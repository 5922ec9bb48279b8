// The whole system: one client, its successive connections (each with a byte
// stream in either direction) and the server's background jobs, stepping in
// any interleaving.

module Rpc {
  import opened Bytes
  import opened Wire
  import opened Filters
  import C = Client
  import S = Stream

  // The filters registered on either side.
  datatype Config = Config(
    env: Env,
    clientOut: seq<OutFilter>,
    clientIn: seq<InFilter>,
    serverIn: seq<InFilter>,
    serverOut: seq<OutFilter>)

  // What became of a request that the server received.
  datatype Job = Running | Answered(reply: Envelope) | Dropped

  // The client's reader of a connection: do_reads() under the gate, a single
  // process_one_request() left behind by with_timeout(), or none.
  datatype Reader = Looping | Detached | Finished

  // jobs[j] is the job of the j-th request received on `up`.
  datatype Link = Link(up: S.Stream, down: S.Stream, jobs: seq<Job>, reader: Reader)

  // Where an accepted send is: in the outgoing filters, handed to the writers
  // of a connection, or abandoned.
  datatype Status = Staged | Queued(link: nat) | Abandoned

  // requests[k] is the envelope of the k-th accepted send.
  datatype System = System(
    client: C.Client,
    links: seq<Link>,
    requests: seq<Envelope>,
    status: seq<Status>)

  const Init := System(C.Init, [], [], [])

  function Stamp(e: Envelope, session: uint16): Envelope {
    e.(header := e.header.(session := session))
  }

  // What raw_send() hands to dispatch_write() for the k-th send.
  function Outgoing(cfg: Config, requests: seq<Envelope>, k: nat): Option<Envelope>
    requires k < |requests|
  {
    ApplyOut(cfg.env, cfg.clientOut, Stamp(requests[k], C.SessionOf(k)))
  }

  // What the server writes for a handler's reply to a request.
  function Answer(cfg: Config, request: RecvContext, reply: Envelope): Option<Envelope> {
    ApplyOut(cfg.env, cfg.serverOut, Stamp(reply, request.header.session))
  }

  // Incoming filters and the check that nothing is left compressed.
  function Incoming(env: Env, ins: seq<InFilter>, c: RecvContext): Option<RecvContext> {
    match ApplyIn(env, ins, c)
    case None => None
    case Some(d) => if d.header.compression == NONE then Some(d) else None
  }

  // What the handler of a received request is given, and what the caller of
  // send() gets out of a promise's value.
  function HandlerInput(cfg: Config, c: RecvContext): Option<RecvContext> {
    Incoming(cfg.env, cfg.serverIn, c)
  }

  function SendResult(cfg: Config, c: RecvContext): Option<RecvContext> {
    Incoming(cfg.env, cfg.clientIn, c)
  }

  // ---------- Steps ----------

  datatype Event =
    | Send(e: Envelope)
    | Dispatch(k: nat)                        // the filters are through
    | UpStep(i: nat, ev: S.Event)             // client writes, server reads
    | DownStep(i: nat, ev: S.Event)           // server writes
    | ClientRead(i: nat, ev: S.Event)         // a client reader reads
    | JobAnswers(i: nat, j: nat, reply: Envelope)
    | JobDrops(i: nat, j: nat)
    | Timeout(i: nat)                         // with_timeout() gives up on a read
    | ReadThrows(i: nat)
    | WriteThrows
    | EndOfStream(i: nat)
    | LoopExit(i: nat)                        // do_until sees an invalid connection
    | Stop
    | Reopen                                  // reconnect() after the gate drained
    | Connect

  predicate IsRead(ev: S.Event) { ev.ReadHeader? || ev.ReadPayload? || ev.ReadEnd? }
  predicate IsWrite(ev: S.Event) { ev.Write? || ev.Release? }

  // No do_reads() and no write is under way on any connection.
  predicate Idle(s: System) {
    forall i :: 0 <= i < |s.links| ==> !s.links[i].reader.Looping? && S.Quiet(s.links[i].up)
  }

  // No fiber is left inside the dispatch gate.
  predicate GateDrained(s: System) {
    Idle(s) && forall k :: 0 <= k < |s.status| ==> !s.status[k].Staged?
  }

  function SendStep(s: System, e: Envelope): System {
    if s.client.Accepts()
    then s.(client := C.Send(s.client), requests := s.requests + [e], status := s.status + [Staged])
    else s
  }

  function DispatchStep(cfg: Config, s: System, k: nat): System {
    if k < |s.status| && k < |s.requests| && s.status[k].Staged? then
      var conn := s.client.conn;
      match Outgoing(cfg, s.requests, k)
      case None => s.(status := s.status[k := Abandoned])
      case Some(env) =>
        if s.client.gateClosed || conn.None? || conn.value >= |s.links|
        then s.(status := s.status[k := Abandoned])
        else
          var i := conn.value;
          var link := s.links[i];
          s.(status := s.status[k := Queued(i)],
             links := s.links[i := link.(up := S.Step(cfg.env.hash, link.up, S.Enqueue(S.Entry(k, env))))])
    else s
  }

  function UpLink(cfg: Config, link: Link, ev: S.Event): Link {
    var up := S.Step(cfg.env.hash, link.up, ev);
    link.(up := up, jobs := if |up.received| > |link.up.received| then link.jobs + [Running] else link.jobs)
  }

  function DownLink(cfg: Config, link: Link, ev: S.Event): Link {
    link.(down := S.Step(cfg.env.hash, link.down, ev))
  }

  // The continuation that a reader's progress runs on the client.
  function AfterRead(c: C.Client, i: nat, before: S.Stream, after: S.Stream): C.Client {
    if |after.received| > |before.received| then C.Deliver(c, i, Some(after.received[|before.received|]))
    else if after.reading.Ended? && !before.reading.Ended? then C.Deliver(c, i, None)
    else c
  }

  function ClientReadStep(cfg: Config, s: System, i: nat, ev: S.Event): System {
    if i < |s.links| && !s.links[i].reader.Finished? && IsRead(ev) then
      var link := s.links[i];
      var link' := DownLink(cfg, link, ev);
      var client := AfterRead(s.client, i, link.down, link'.down);
      // A reader left behind handles the one request it was reading.
      var over := link.reader.Detached? && (|link'.down.received| > |link.down.received| || link'.down.reading.Ended?);
      s.(client := client,
         links := s.links[i := if over then link'.(reader := Finished) else link'])
    else s
  }

  function AnswerLink(cfg: Config, link: Link, j: nat, reply: Envelope): Link {
    if j < |link.jobs| && j < |link.up.received| && link.jobs[j].Running?
       && HandlerInput(cfg, link.up.received[j]).Some?
    then
      match Answer(cfg, link.up.received[j], reply)
      case None => link.(jobs := link.jobs[j := Dropped])
      case Some(env) =>
        link.(jobs := link.jobs[j := Answered(reply)],
              down := S.Step(cfg.env.hash, link.down, S.Enqueue(S.Entry(j, env))))
    else link
  }

  function DropLink(link: Link, j: nat): Link {
    if j < |link.jobs| && link.jobs[j].Running? then link.(jobs := link.jobs[j := Dropped]) else link
  }

  function SetReader(s: System, i: nat, r: Reader): System
    requires i < |s.links|
  {
    s.(links := s.links[i := s.links[i].(reader := r)])
  }

  function Step(cfg: Config, s: System, e: Event): System {
    match e
    case Send(env) => SendStep(s, env)
    case Dispatch(k) => DispatchStep(cfg, s, k)
    case UpStep(i, ev) =>
      if i < |s.links| && (IsRead(ev) || IsWrite(ev))
      then s.(links := s.links[i := UpLink(cfg, s.links[i], ev)]) else s
    case DownStep(i, ev) =>
      if i < |s.links| && IsWrite(ev)
      then s.(links := s.links[i := DownLink(cfg, s.links[i], ev)]) else s
    case ClientRead(i, ev) => ClientReadStep(cfg, s, i, ev)
    case JobAnswers(i, j, reply) =>
      if i < |s.links| then s.(links := s.links[i := AnswerLink(cfg, s.links[i], j, reply)]) else s
    case JobDrops(i, j) =>
      if i < |s.links| then s.(links := s.links[i := DropLink(s.links[i], j)]) else s
    case Timeout(i) =>
      if i < |s.links| && s.links[i].reader.Looping?
      then SetReader(s, i, Detached).(client := C.FailOutstanding(s.client)) else s
    case ReadThrows(i) =>
      if i < |s.links| && s.links[i].reader.Looping?
      then SetReader(s, i, Finished).(client := C.FailOutstanding(s.client)) else s
    case WriteThrows => s.(client := C.FailOutstanding(s.client))
    case EndOfStream(i) => s.(client := C.EndOfStream(s.client, i))
    case LoopExit(i) =>
      if i < |s.links| && s.links[i].reader.Looping? && !s.client.IsConnValid()
      then SetReader(s, i, Finished) else s
    case Stop => s.(client := C.Stop(s.client))
    case Reopen => if GateDrained(s) then s.(client := C.Reopen(s.client)) else s
    case Connect =>
      // A closed gate keeps do_reads() from starting.
      if !s.client.IsConnValid() && Idle(s)
      then s.(client := C.Connect(s.client),
              links := s.links + [Link(S.Empty, S.Empty, [], if s.client.gateClosed then Finished else Looping)])
      else s
  }

  function RunFrom(cfg: Config, s: System, evs: seq<Event>): System
    decreases evs
  {
    if evs == [] then s else RunFrom(cfg, Step(cfg, s, evs[0]), evs[1..])
  }

  // ---------- What the theorem asks of a run ----------

  // An envelope as the typed interface builds it.
  predicate WellMade(hash: Hash, e: Envelope) {
    && Sealed(hash, e.header, e.body)
    && (e.header.compression == NONE || e.header.compression == DISABLED)
  }

  // The header's 32-bit size holds the length of the filtered body.
  predicate Fits(e: Option<Envelope>) { e.Some? ==> Framed(e.value) }

  // Request k is not yet handed to a stream, or was put on the one of link i
  // whose reader may still deliver the reply.
  ghost predicate Awaited(s: System, k: nat, i: nat) {
    && i < |s.links| && !s.links[i].reader.Finished?
    && exists q :: && 0 <= q < |s.links[i].up.queue| && s.links[i].up.queue[q].tag == k
                   && !Delivered(s.links[i], q)
  }

  ghost predicate InFlight(s: System, k: nat) {
    (k < |s.status| && s.status[k].Staged?) || exists i: nat :: Awaited(s, k, i)
  }

  // A new send's session is neither in use nor that of a request in flight,
  // and the envelopes are well made.
  ghost predicate Legit(cfg: Config, s: System, e: Event) {
    match e
    case Send(env) =>
      && WellMade(cfg.env.hash, env)
      && (s.client.Accepts() ==>
            && C.SessionOf(|s.client.promises|) !in s.client.slots
            && forall k: nat :: InFlight(s, k) ==> C.SessionOf(k) != C.SessionOf(|s.client.promises|))
    case Dispatch(k) => k < |s.requests| ==> Fits(Outgoing(cfg, s.requests, k))
    case JobAnswers(i, j, reply) =>
      && WellMade(cfg.env.hash, reply)
      && (i < |s.links| && j < |s.links[i].up.received| ==> Fits(Answer(cfg, s.links[i].up.received[j], reply)))
    case _ => true
  }

  ghost predicate LegitRun(cfg: Config, s: System, evs: seq<Event>)
    decreases evs
  {
    evs == [] || (Legit(cfg, s, evs[0]) && LegitRun(cfg, Step(cfg, s, evs[0]), evs[1..]))
  }

  // ---------- The invariant ----------

  ghost predicate UpOk(cfg: Config, requests: seq<Envelope>, status: seq<Status>, i: nat, up: S.Stream)
    requires |requests| == |status|
  {
    && S.Inv(cfg.env.hash, up)
    && (forall q :: 0 <= q < |up.queue| ==>
          && up.queue[q].tag < |requests|
          && status[up.queue[q].tag] == Queued(i)
          && Outgoing(cfg, requests, up.queue[q].tag) == Some(up.queue[q].env))
    && (forall p, q :: 0 <= p < |up.queue| && 0 <= q < |up.queue| ==>
          up.queue[p].tag == up.queue[q].tag ==> p == q)
  }

  ghost predicate DownOk(cfg: Config, link: Link) {
    && S.Inv(cfg.env.hash, link.down)
    && |link.jobs| == |link.up.received|
    && (forall r :: 0 <= r < |link.down.queue| ==>
          var j := link.down.queue[r].tag;
          && j < |link.jobs|
          && link.jobs[j].Answered?
          && WellMade(cfg.env.hash, link.jobs[j].reply)
          && HandlerInput(cfg, link.up.received[j]).Some?
          && Answer(cfg, link.up.received[j], link.jobs[j].reply) == Some(link.down.queue[r].env))
    && (forall p, r :: 0 <= p < |link.down.queue| && 0 <= r < |link.down.queue| ==>
          link.down.queue[p].tag == link.down.queue[r].tag ==> p == r)
  }

  ghost predicate LinkOk(cfg: Config, requests: seq<Envelope>, status: seq<Status>, i: nat, link: Link)
    requires |requests| == |status|
  {
    UpOk(cfg, requests, status, i, link.up) && DownOk(cfg, link)
  }

  // The client's reader has taken the reply to the q-th request of the link.
  ghost predicate Delivered(link: Link, q: nat) {
    exists r :: 0 <= r < |link.down.received| && r < |link.down.queue| && link.down.queue[r].tag == q
  }

  // Promise k's value is the reply of the job that ran request k.
  ghost predicate ServedBy(s: System, k: nat, ctx: RecvContext, i: nat, j: nat, r: nat) {
    && i < |s.links| && j < |s.links[i].jobs| && j < |s.links[i].up.queue|
    && s.links[i].up.queue[j].tag == k
    && r < |s.links[i].down.received| && r < |s.links[i].down.queue|
    && s.links[i].down.queue[r].tag == j
    && s.links[i].down.received[r] == ctx
  }

  ghost predicate Served(s: System, k: nat, ctx: RecvContext) {
    exists i: nat, j: nat, r: nat :: ServedBy(s, k, ctx, i, j, r)
  }

  // A reply that may still come in reaches its own request or none.
  ghost predicate Tracked(s: System) {
    forall k: nat :: InFlight(s, k) ==> C.Pending(s.client, k) || C.SessionOf(k) !in s.client.slots
  }

  ghost predicate Shape(s: System) {
    && C.Inv(s.client)
    && |s.client.conns| == |s.links|
    && |s.client.promises| == |s.requests| == |s.status|
  }

  ghost predicate LinksOk(cfg: Config, s: System)
    requires |s.requests| == |s.status|
  {
    forall i :: 0 <= i < |s.links| ==> LinkOk(cfg, s.requests, s.status, i, s.links[i])
  }

  ghost predicate RequestsOk(cfg: Config, s: System) {
    forall k :: 0 <= k < |s.requests| ==> WellMade(cfg.env.hash, s.requests[k])
  }

  ghost predicate ValuesServed(s: System) {
    forall k: nat :: k < |s.client.promises| && s.client.promises[k].Value?
      ==> Served(s, k, s.client.promises[k].ctx)
  }

  ghost predicate Inv(cfg: Config, s: System) {
    Shape(s) && LinksOk(cfg, s) && RequestsOk(cfg, s) && Tracked(s) && ValuesServed(s)
  }
}
