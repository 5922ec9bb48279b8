// One direction of a connection: any number of writers take serialize_writes
// in turn and write their frame in pieces of any size, while the peer reads
// header and payload alternately.

module Stream {
  import opened Bytes
  import opened Wire

  // A frame to be written. The tag names its owner; it is not on the wire.
  datatype Entry = Entry(tag: nat, env: Envelope)

  // Where a writer is: in the semaphore's wait list, holding the semaphore
  // with so many bytes of its frame written, holding it with all of them
  // written, or gone.
  datatype Stage = Waiting | Writing(sent: nat) | Flushing | Released

  datatype Reading = AtHeader | AtPayload(h: Header) | Ended

  // queue[w] is the frame of writer w and stages[w] its progress, in the order
  // in which the writers called wait(). `units` and `waiters` are the
  // semaphore. `bytes` is everything written so far, `done` how many frames
  // are in it completely, and `pos` how much of it the reader consumed.
  datatype Stream = Stream(
    queue: seq<Entry>,
    stages: seq<Stage>,
    units: nat,
    waiters: seq<nat>,
    done: nat,
    bytes: Bytes,
    pos: nat,
    reading: Reading,
    received: seq<RecvContext>)

  const Empty := Stream([], [], 1, [], 0, [], 0, AtHeader, [])

  datatype Event =
    | Enqueue(entry: Entry)      // a new writer waits on the semaphore
    | Write(w: nat, n: nat)      // writer w puts out up to n more bytes
    | Release(w: nat)            // writer w has flushed
    | ReadHeader
    | ReadPayload
    | ReadEnd                    // a short read at the end of the input

  predicate Unread(s: Stream, n: nat) { s.pos + n <= |s.bytes| }

  // semaphore::wait(1) by a new writer.
  function Wait(s: Stream, entry: Entry): Stream {
    if s.units >= 1 && s.waiters == []
    then s.(queue := s.queue + [entry], stages := s.stages + [Writing(0)], units := s.units - 1)
    else s.(queue := s.queue + [entry], stages := s.stages + [Waiting], waiters := s.waiters + [|s.queue|])
  }

  // The loop of semaphore::signal() over the wait list.
  function Grant(s: Stream): (r: Stream)
    ensures r == s.(stages := r.stages, waiters := r.waiters, units := r.units)
    ensures |r.stages| == |s.stages|
    decreases |s.waiters|
  {
    if s.waiters != [] && s.units >= 1 && s.waiters[0] < |s.stages|
    then Grant(s.(stages := s.stages[s.waiters[0] := Writing(0)], waiters := s.waiters[1..], units := s.units - 1))
    else s
  }

  function WriteSome(s: Stream, w: nat, n: nat): Stream
    requires w < |s.stages| && w < |s.queue| && s.stages[w].Writing?
  {
    var frame, sent := Encode(s.queue[w].env), s.stages[w].sent;
    if sent + n < |frame| then
      s.(stages := s.stages[w := Writing(sent + n)], bytes := s.bytes + frame[sent..sent + n])
    else if sent <= |frame| then
      s.(stages := s.stages[w := Flushing], bytes := s.bytes + frame[sent..], done := s.done + 1)
    else s
  }

  function Step(hash: Hash, s: Stream, e: Event): Stream {
    match e
    case Enqueue(entry) => Wait(s, entry)
    case Write(w, n) =>
      if w < |s.stages| && w < |s.queue| && s.stages[w].Writing? then WriteSome(s, w, n) else s
    case Release(w) =>
      if w < |s.stages| && s.stages[w].Flushing?
      then Grant(s.(stages := s.stages[w := Released], units := s.units + 1)) else s
    case ReadHeader =>
      if s.reading.AtHeader? && Unread(s, HEADER_SIZE)
      then
        match CheckHeader(s.bytes[s.pos..s.pos + HEADER_SIZE])
        case None => s.(reading := Ended)
        case Some(h) => s.(reading := AtPayload(h), pos := s.pos + HEADER_SIZE)
      else s
    case ReadPayload =>
      if s.reading.AtPayload? && Unread(s, s.reading.h.size)
      then
        var h := s.reading.h;
        match CheckPayload(hash, h, s.bytes[s.pos..s.pos + h.size])
        case None => s.(reading := Ended)
        case Some(ctx) => s.(reading := AtHeader, pos := s.pos + h.size, received := s.received + [ctx])
      else s
    case ReadEnd => s.(reading := Ended)
  }

  function RunFrom(hash: Hash, s: Stream, evs: seq<Event>): Stream
    decreases evs
  {
    if evs == [] then s else RunFrom(hash, Step(hash, s, evs[0]), evs[1..])
  }

  function Envs(q: seq<Entry>): seq<Envelope> {
    seq(|q|, i requires 0 <= i < |q| => q[i].env)
  }

  // ---------- Positions of frames ----------

  function Frames(q: seq<Entry>): Bytes { EncodeAll(Envs(q)) }

  lemma FramesAppend(q: seq<Entry>, n: nat)
    requires n < |q|
    ensures Frames(q[..n + 1]) == Frames(q[..n]) + Encode(q[n].env)
  {
    assert Envs(q[..n + 1]) == Envs(q[..n]) + [q[n].env];
    EncodeAllAppend(Envs(q[..n]), [q[n].env]);
    hide Encode;
    assert EncodeAll([q[n].env]) == Encode(q[n].env) + EncodeAll([]);
  }

  // Frame r starts where the first r frames end.
  lemma {:induction false} FrameAt(q: seq<Entry>, r: nat, n: nat)
    requires r < n <= |q|
    ensures var p := |Frames(q[..r])|;
            && p + |Encode(q[r].env)| <= |Frames(q[..n])|
            && Frames(q[..n])[p..p + |Encode(q[r].env)|] == Encode(q[r].env)
  {
    hide Encode, Frames;
    FramesAppend(q, n - 1);
    if r < n - 1 {
      FrameAt(q, r, n - 1);
    }
  }

  // ---------- The invariant ----------

  // The first writer that has not released the semaphore.
  function Turn(s: Stream): int { |s.queue| - |s.waiters| - 1 + s.units }

  // The semaphore serves the writers in the order of their arrival: those
  // before the current one are gone and those after it wait.
  ghost predicate SemaphoreOk(s: Stream) {
    && |s.stages| == |s.queue|
    && s.units <= 1 && (s.units == 1 ==> s.waiters == [] && s.done == |s.queue|)
    && 0 <= Turn(s)
    && (forall i :: 0 <= i < |s.waiters| ==> s.waiters[i] == |s.queue| - |s.waiters| + i)
    && (forall i :: 0 <= i < Turn(s) ==> s.stages[i].Released?)
    && (forall i :: Turn(s) < i < |s.queue| ==> s.stages[i].Waiting?)
    && (s.units == 0 ==>
          match s.stages[Turn(s)]
          case Writing(n) => s.done == Turn(s) && n < |Encode(s.queue[Turn(s)].env)|
          case Flushing => s.done == Turn(s) + 1
          case _ => false)
  }

  predicate Holds(s: Stream, w: nat) {
    w < |s.stages| && (s.stages[w].Writing? || s.stages[w].Flushing?)
  }

  // No writer is left.
  predicate Quiet(s: Stream) { forall w :: 0 <= w < |s.stages| ==> s.stages[w].Released? }

  // The part of an unfinished frame that has been written.
  function Partial(s: Stream): Bytes {
    if s.done < |s.queue| && s.done < |s.stages| && s.stages[s.done].Writing?
       && s.stages[s.done].sent <= |Encode(s.queue[s.done].env)|
    then Encode(s.queue[s.done].env)[..s.stages[s.done].sent] else []
  }

  ghost predicate WriterOk(s: Stream) {
    && s.done <= |s.queue|
    && SemaphoreOk(s)
    && (forall i :: 0 <= i < |s.queue| ==> Framed(s.queue[i].env))
    && s.bytes == Frames(s.queue[..s.done]) + Partial(s)
  }

  ghost predicate ReaderOk(hash: Hash, s: Stream)
    requires WriterOk(s)
  {
    var r := |s.received|;
    && r <= s.done
    && (forall i :: 0 <= i < r ==>
          Acceptable(hash, s.queue[i].env) && s.received[i] == Receive(s.queue[i].env))
    && match s.reading
       case AtHeader => s.pos == |Frames(s.queue[..r])|
       case AtPayload(h) =>
         && (r < s.done || |Partial(s)| >= HEADER_SIZE)
         && s.pos == |Frames(s.queue[..r])| + HEADER_SIZE
         && CheckHeader(EncodeHeader(s.queue[r].env.header)) == Some(h)
       case Ended => true
  }

  ghost predicate Inv(hash: Hash, s: Stream) { WriterOk(s) && ReaderOk(hash, s) }

  // ---------- Preservation ----------

  // What the reader knows stays true while the stream grows.
  predicate Extends(s: Stream, s': Stream) {
    && s.queue <= s'.queue && s.done <= s'.done
    && s'.pos == s.pos && s'.reading == s.reading && s'.received == s.received
    && (s'.done > s.done || |Partial(s)| <= |Partial(s')|)
  }

  lemma ReaderStays(hash: Hash, s: Stream, s': Stream)
    requires Inv(hash, s) && WriterOk(s') && Extends(s, s')
    ensures Inv(hash, s')
  {
    hide Frames, CheckHeader, EncodeHeader, Acceptable, Receive, SemaphoreOk, Partial, Encode;
    PartialIsPrefix(s);
    assert s'.queue[..|s.received|] == s.queue[..|s.received|];
  }

  lemma WaitOk(s: Stream, entry: Entry)
    requires WriterOk(s) && Framed(entry.env)
    ensures WriterOk(Wait(s, entry)) && Extends(s, Wait(s, entry))
  {
    hide Frames, Encode, SemaphoreOk, Partial;
    var s' := Wait(s, entry);
    assert s'.queue[..s.done] == s.queue[..s.done];
    WaitSemaphore(s, entry);
  }

  lemma WaitSemaphore(s: Stream, entry: Entry)
    requires SemaphoreOk(s)
    ensures SemaphoreOk(Wait(s, entry)) && Partial(Wait(s, entry)) == Partial(s)
  {
    hide Encode;
  }

  lemma WriteSemaphore(s: Stream, w: nat, n: nat)
    requires SemaphoreOk(s) && s.done <= |s.queue| && w < |s.stages| && w < |s.queue| && s.stages[w].Writing?
    ensures w == s.done && s.stages[w].sent < |Encode(s.queue[w].env)|
    ensures SemaphoreOk(WriteSome(s, w, n))
    ensures Partial(s) == Encode(s.queue[w].env)[..s.stages[w].sent]
    ensures Partial(WriteSome(s, w, n))
            == if s.stages[w].sent + n < |Encode(s.queue[w].env)|
               then Encode(s.queue[w].env)[..s.stages[w].sent + n] else []
  {
    hide Encode;
    assert w == Turn(s);
  }

  lemma WriteSomeOk(s: Stream, w: nat, n: nat)
    requires WriterOk(s) && w < |s.stages| && w < |s.queue| && s.stages[w].Writing?
    ensures WriterOk(WriteSome(s, w, n)) && Extends(s, WriteSome(s, w, n))
  {
    hide Frames, Encode, SemaphoreOk, Partial;
    WriteSemaphore(s, w, n);
    var before, frame, sent := Frames(s.queue[..w]), Encode(s.queue[w].env), s.stages[w].sent;
    if sent + n < |frame| {
      assert (before + frame[..sent]) + frame[sent..sent + n] == before + frame[..sent + n];
    } else {
      assert (before + frame[..sent]) + frame[sent..] == before + frame;
      FramesAppend(s.queue, w);
    }
  }

  // One unit comes back, so that exactly the next waiter is served.
  lemma GrantOne(s: Stream)
    requires s.units == 1
    ensures Grant(s) == if s.waiters != [] && s.waiters[0] < |s.stages|
                        then s.(stages := s.stages[s.waiters[0] := Writing(0)], waiters := s.waiters[1..], units := 0)
                        else s
  {}

  lemma ReleaseOk(s: Stream, w: nat)
    requires WriterOk(s) && w < |s.stages| && s.stages[w].Flushing?
    ensures var s' := Grant(s.(stages := s.stages[w := Released], units := s.units + 1));
            WriterOk(s') && Extends(s, s')
  {
    hide Frames, Encode, Grant;
    assert w == Turn(s) == s.done - 1 && s.units == 0;
    var t := s.(stages := s.stages[w := Released], units := 1);
    GrantOne(t);
    assert SemaphoreOk(Grant(t));
    assert Partial(Grant(t)) == [] == Partial(s);
  }

  lemma EnqueueInv(hash: Hash, s: Stream, entry: Entry)
    requires Inv(hash, s) && Framed(entry.env)
    ensures Inv(hash, Step(hash, s, Enqueue(entry)))
  {
    hide WriterOk, Extends, Wait;
    WaitOk(s, entry);
    ReaderStays(hash, s, Wait(s, entry));
  }

  lemma WriteInv(hash: Hash, s: Stream, e: Event)
    requires Inv(hash, s)
    requires e.Write? || e.Release?
    ensures Inv(hash, Step(hash, s, e))
  {
    hide WriterOk, Extends, WriteSome, Grant;
    if e.w < |s.stages| {
      match s.stages[e.w]
      case Writing(_) =>
        if e.Write? && e.w < |s.queue| {
          WriteSomeOk(s, e.w, e.n);
          ReaderStays(hash, s, Step(hash, s, e));
        }
      case Flushing =>
        if e.Release? {
          ReleaseOk(s, e.w);
          ReaderStays(hash, s, Step(hash, s, e));
        }
      case _ =>
    }
  }

  // serialize_writes excludes: at most one writer is past the semaphore, and
  // it is the first of those that have not left.
  lemma AtMostOneWriter(s: Stream, v: nat, w: nat)
    requires SemaphoreOk(s) && Holds(s, v) && Holds(s, w)
    ensures v == w == Turn(s)
  {}

  // What the reader finds at its position.
  lemma HeaderHere(hash: Hash, s: Stream)
    requires Inv(hash, s) && s.reading.AtHeader? && Unread(s, HEADER_SIZE)
    ensures |s.received| < s.done || |Partial(s)| >= HEADER_SIZE
    ensures |s.received| < |s.queue|
    ensures s.bytes[s.pos..s.pos + HEADER_SIZE] == EncodeHeader(s.queue[|s.received|].env.header)
  {
    hide Frames, EncodeHeader, Encode, Acceptable, Receive, SemaphoreOk;
    if |s.received| < s.done {
      PartsAt(s.queue, |s.received|, s.done);
    } else {
      var env, part := s.queue[s.done].env, Partial(s);
      FrameParts(env);
      assert s.bytes[s.pos..s.pos + HEADER_SIZE] == part[..HEADER_SIZE] == Encode(env)[..HEADER_SIZE];
    }
  }

  lemma PayloadHere(hash: Hash, s: Stream)
    requires Inv(hash, s) && s.reading.AtPayload? && Unread(s, s.reading.h.size)
    ensures s.reading.h == Normalize(s.queue[|s.received|].env.header)
    ensures |s.received| < s.done
    ensures s.bytes[s.pos..s.pos + s.reading.h.size] == s.queue[|s.received|].env.body
  {
    hide Frames, CheckHeader, EncodeHeader, Encode, Acceptable, Receive;
    var r := |s.received|;
    var env := s.queue[r].env;
    AcceptedHeader(env, s.reading.h);
    assert Framed(env);
    if r < s.done {
      PartsAt(s.queue, r, s.done);
    }
  }

  // Header and body of frame r within the first n frames.
  lemma PartsAt(q: seq<Entry>, r: nat, n: nat)
    requires r < n <= |q|
    ensures var f, p, env := Frames(q[..n]), |Frames(q[..r])|, q[r].env;
            && p + HEADER_SIZE + |env.body| <= |f|
            && f[p..p + HEADER_SIZE] == EncodeHeader(env.header)
            && f[p + HEADER_SIZE..p + HEADER_SIZE + |env.body|] == env.body
  {
    FrameParts(q[r].env);
    hide Frames, Encode, EncodeHeader;
    FrameAt(q, r, n);
    var f, p, env := Frames(q[..n]), |Frames(q[..r])|, q[r].env;
    var frame := f[p..p + |Encode(env)|];
    assert f[p..p + HEADER_SIZE] == frame[..HEADER_SIZE];
    assert f[p + HEADER_SIZE..p + HEADER_SIZE + |env.body|] == frame[HEADER_SIZE..];
  }

  lemma FrameParts(env: Envelope)
    ensures Encode(env)[..HEADER_SIZE] == EncodeHeader(env.header)
    ensures Encode(env)[HEADER_SIZE..] == env.body
  {
    hide EncodeHeader;
  }

  lemma AcceptedHeader(env: Envelope, h: Header)
    requires CheckHeader(EncodeHeader(env.header)) == Some(h)
    ensures h == Normalize(env.header)
    ensures h.size != 0 && h.checksum != 0 && h.meta != 0 && env.header.compression <= COMPRESSION_MAX
  {
    hide EncodeHeader, CheckHeader;
    CheckEncodedHeader(env);
  }

  // A payload accepted under an accepted header is an acceptable frame.
  lemma AcceptedPayload(hash: Hash, env: Envelope, h: Header)
    requires Framed(env) && CheckHeader(EncodeHeader(env.header)) == Some(h)
    requires CheckPayload(hash, h, env.body).Some?
    ensures Acceptable(hash, env) && CheckPayload(hash, h, env.body).value == Receive(env)
  {
    hide EncodeHeader, CheckHeader;
    AcceptedHeader(env, h);
  }

  // Reading does not touch the writers.
  lemma ReadOnly(s: Stream, s': Stream)
    requires WriterOk(s) && s' == s.(pos := s'.pos, reading := s'.reading, received := s'.received)
    ensures WriterOk(s') && Partial(s') == Partial(s)
  {
    hide Frames, Encode;
  }

  lemma PayloadInv(hash: Hash, s: Stream)
    requires Inv(hash, s) && s.reading.AtPayload? && Unread(s, s.reading.h.size)
    ensures Inv(hash, Step(hash, s, ReadPayload))
  {
    hide Frames, CheckHeader, EncodeHeader, Encode, Acceptable, Receive, CheckPayload, Normalize, SemaphoreOk, Partial;
    PayloadHere(hash, s);
    ReadOnly(s, Step(hash, s, ReadPayload));
    var r, h := |s.received|, s.reading.h;
    var env := s.queue[r].env;
    assert Framed(env) && h.size == |env.body| by { AcceptedHeader(env, h); NormalizeSize(env.header); }
    if CheckPayload(hash, h, env.body).Some? {
      AcceptedPayload(hash, env, h);
      FramesAppend(s.queue, r);
    }
  }

  lemma NormalizeSize(h: Header)
    ensures Normalize(h).size == h.size
  {}

  lemma ReadInv(hash: Hash, s: Stream, e: Event)
    requires Inv(hash, s)
    requires e.ReadHeader? || e.ReadPayload? || e.ReadEnd?
    ensures Inv(hash, Step(hash, s, e))
  {
    hide Frames, CheckHeader, EncodeHeader, Encode, Acceptable, Receive, SemaphoreOk, Partial;
    PartialIsPrefix(s);
    ReadOnly(s, Step(hash, s, e));
    if e.ReadHeader? && s.reading.AtHeader? && Unread(s, HEADER_SIZE) {
      HeaderHere(hash, s);
    } else if e.ReadPayload? && s.reading.AtPayload? && Unread(s, s.reading.h.size) {
      PayloadInv(hash, s);
    }
  }

  lemma StepInv(hash: Hash, s: Stream, e: Event)
    requires Inv(hash, s)
    requires e.Enqueue? ==> Framed(e.entry.env)
    ensures Inv(hash, Step(hash, s, e))
    ensures s.queue <= Step(hash, s, e).queue
    ensures s.received <= Step(hash, s, e).received
  {
    hide Inv;
    match e
    case Enqueue(entry) => EnqueueInv(hash, s, entry);
    case Write(_, _) => WriteInv(hash, s, e);
    case Release(_) => WriteInv(hash, s, e);
    case ReadHeader => ReadInv(hash, s, e);
    case ReadPayload => ReadInv(hash, s, e);
    case ReadEnd => ReadInv(hash, s, e);
  }

  // Apart from Enqueue a step leaves the queue alone, and it delivers at most
  // the next frame.
  lemma StepEffect(hash: Hash, s: Stream, e: Event)
    requires Inv(hash, s) && !e.Enqueue?
    ensures var s' := Step(hash, s, e);
            var r := |s.received|;
            && Inv(hash, s')
            && s'.queue == s.queue
            && (s'.received == s.received
                || (r < |s.queue| && s'.received == s.received + [Receive(s.queue[r].env)]))
  {
    hide Frames, CheckHeader, EncodeHeader, Acceptable, Receive, CheckPayload, Partial;
    StepInv(hash, s, e);
    var s' := Step(hash, s, e);
    if s'.received != s.received {
      assert s'.received[|s.received|] == Receive(s'.queue[|s.received|].env);
    }
  }

  lemma {:induction false} RunInv(hash: Hash, s: Stream, evs: seq<Event>)
    requires Inv(hash, s)
    requires forall e :: e in evs && e.Enqueue? ==> Framed(e.entry.env)
    ensures Inv(hash, RunFrom(hash, s, evs))
    decreases evs
  {
    hide Inv;
    if evs != [] {
      StepInv(hash, s, evs[0]);
      RunInv(hash, Step(hash, s, evs[0]), evs[1..]);
    }
  }

  // ---------- Consequences over every run ----------

  // Whatever the interleaving of any number of writers, each going through
  // its own wait, writes and release, and of the reader: at most one writer
  // holds the semaphore, the bytes on the stream are whole frames in the order
  // of the waits followed by a prefix of the next one, and what the reader has
  // delivered is what the frames it passed decode to, in order.
  lemma FramesInOrder(hash: Hash, evs: seq<Event>)
    requires forall e :: e in evs && e.Enqueue? ==> Framed(e.entry.env)
    ensures var s := RunFrom(hash, Empty, evs);
            var r := |s.received|;
            && (forall v: nat, w: nat :: Holds(s, v) && Holds(s, w) ==> v == w)
            && r <= s.done <= |s.queue|
            && Frames(s.queue[..s.done]) <= s.bytes
            && (if s.done < |s.queue| then s.bytes[|Frames(s.queue[..s.done])|..] < Encode(s.queue[s.done].env)
                else s.bytes == Frames(s.queue))
            && s.received == ReceiveAll(Envs(s.queue)[..r])
  {
    hide Frames, Acceptable, ReceiveAll, Receive, Encode, SemaphoreOk, Holds;
    var s := RunFrom(hash, Empty, evs);
    EmptyInv(hash);
    RunInv(hash, Empty, evs);
    forall v: nat, w: nat | Holds(s, v) && Holds(s, w) ensures v == w { AtMostOneWriter(s, v, w); }
    PartialIsPrefix(s);
    assert s.queue[..|s.queue|] == s.queue;
    ReceivedAll(Envs(s.queue)[..|s.received|], s.received);
  }

  lemma PartialIsPrefix(s: Stream)
    requires SemaphoreOk(s)
    ensures if s.done < |s.queue| then Partial(s) < Encode(s.queue[s.done].env) else Partial(s) == []
  {
    hide Encode;
  }

  lemma {:induction false} ReceivedAll(es: seq<Envelope>, rs: seq<RecvContext>)
    requires |es| == |rs| && forall i :: 0 <= i < |es| ==> rs[i] == Receive(es[i])
    ensures rs == ReceiveAll(es)
  {
    if es != [] { ReceivedAll(es[1..], rs[1..]); }
  }

  // The incremental reader, however it is interleaved with the writers, never
  // delivers anything but a prefix of what parsing all the bytes at once gives.
  lemma ReaderRefinesParse(hash: Hash, evs: seq<Event>)
    requires forall e :: e in evs && e.Enqueue? ==> Framed(e.entry.env)
    ensures var s := RunFrom(hash, Empty, evs);
            s.received <= ParseStream(hash, s.bytes)
  {
    hide Frames, Partial, EncodeAll, ParseStream, Acceptable, ReceiveAll, Receive, SemaphoreOk;
    var s := RunFrom(hash, Empty, evs);
    EmptyInv(hash);
    RunInv(hash, Empty, evs);
    var r := |s.received|;
    ReceivedAll(Envs(s.queue)[..r], s.received);
    var es := Envs(s.queue)[..r];
    FramesSplit(s.queue, r, s.done);
    assert Envs(s.queue[..r]) == es;
    var rest := Frames(s.queue[r..s.done]) + Partial(s);
    assert s.bytes == EncodeAll(es) + rest;
    ParseMore(hash, es, rest);
  }

  lemma EmptyInv(hash: Hash)
    ensures Inv(hash, Empty)
  {}

  lemma FramesSplit(q: seq<Entry>, r: nat, n: nat)
    requires r <= n <= |q|
    ensures Frames(q[..n]) == EncodeAll(Envs(q[..r])) + Frames(q[r..n])
  {
    assert Envs(q[..n]) == Envs(q[..r]) + Envs(q[r..n]);
    EncodeAllAppend(Envs(q[..r]), Envs(q[r..n]));
  }

  lemma {:induction false} ParseMore(hash: Hash, es: seq<Envelope>, rest: Bytes)
    requires forall e :: e in es ==> Acceptable(hash, e)
    ensures ParseStream(hash, EncodeAll(es) + rest) == ReceiveAll(es) + ParseStream(hash, rest)
  {
    hide Encode, ParseFrame, Acceptable;
    if es == [] {
      assert EncodeAll(es) + rest == rest;
    } else {
      ParseMore(hash, es[1..], rest);
      assert EncodeAll(es) + rest == Encode(es[0]) + (EncodeAll(es[1..]) + rest);
      assert Acceptable(hash, es[0]);
      assert Framed(es[0]) by { AcceptableFramed(hash, es[0]); }
      ParseEncoded(hash, es[0], EncodeAll(es[1..]) + rest);
    }
  }

  lemma AcceptableFramed(hash: Hash, e: Envelope)
    requires Acceptable(hash, e)
    ensures Framed(e)
  {}

  // ---------- Progress ----------

  // Only the holder's remaining writes and its release are needed to complete
  // its frame, and the next waiter gets its turn.
  lemma WriteThrough(hash: Hash, s: Stream, w: nat, n: nat)
    requires SemaphoreOk(s) && w < |s.stages| && s.stages[w].Writing?
    requires s.stages[w].sent + n >= |Encode(s.queue[w].env)|
    ensures var t := Step(hash, Step(hash, s, Write(w, n)), Release(w));
            && t.bytes == s.bytes + Encode(s.queue[w].env)[s.stages[w].sent..] && t.done == w + 1
            && t.stages[w].Released? && t.queue == s.queue
            && (w + 1 < |s.queue| ==> Holds(t, w + 1))
            && (w + 1 == |s.queue| ==> Quiet(t))
  {
    hide Encode, Grant;
    var u := WriteSome(s, w, n);
    GrantOne(u.(stages := u.stages[w := Released], units := 1));
  }

  // The only writer's frame is written at once.
  function Written(s: Stream): Stream
    requires s.done < |s.queue| && s.done < |s.stages|
  {
    s.(stages := s.stages[s.done := Released], units := 1, done := s.done + 1,
       bytes := s.bytes + Encode(s.queue[s.done].env))
  }

  // Everything before the last frame has been read, and the last is about to
  // be written.
  predicate AtRest(s: Stream) {
    && s.done + 1 == |s.queue| == |s.stages| && s.stages[s.done] == Writing(0)
    && s.units == 0 && s.waiters == [] && s.reading.AtHeader? && |s.received| == s.done
  }

  lemma WriteLast(hash: Hash, s: Stream)
    requires AtRest(s)
    ensures Step(hash, Step(hash, s, Write(s.done, |Encode(s.queue[s.done].env)|)), Release(s.done)) == Written(s)
  {
    hide Encode;
  }

  // Once written, an acceptable frame is read and delivered.
  lemma ReadThrough(hash: Hash, s: Stream)
    requires Inv(hash, s) && s.reading.AtHeader? && |s.received| < s.done
    requires Acceptable(hash, s.queue[|s.received|].env)
    ensures var t := Step(hash, s, ReadHeader);
            var u := Step(hash, t, ReadPayload);
            && t.received == s.received && !t.reading.Ended?
            && u.received == s.received + [Receive(s.queue[|s.received|].env)]
  {
    hide Frames, EncodeHeader, CheckHeader, Encode, Receive, Partial;
    var r := |s.received|;
    var env := s.queue[r].env;
    PartsAt(s.queue, r, s.done);
    assert Unread(s, HEADER_SIZE);
    HeaderHere(hash, s);
    CheckEncodedHeader(env);
    var t := Step(hash, s, ReadHeader);
    StepInv(hash, s, ReadHeader);
    NormalizeSize(env.header);
    assert Unread(t, t.reading.h.size);
    PayloadHere(hash, t);
    DeliversReceive(hash, env);
  }

  lemma DeliversReceive(hash: Hash, env: Envelope)
    requires Acceptable(hash, env)
    ensures CheckPayload(hash, Normalize(env.header), env.body) == Some(Receive(env))
  {}
}
