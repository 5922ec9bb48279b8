// Preservation of the system invariant, step by step.

module RpcProofs {
  import opened Bytes
  import opened Wire
  import opened Filters
  import C = Client
  import S = Stream
  import opened Rpc

  // ---------- Growth ----------

  predicate Grows(l: Link, l': Link) {
    && l.up.queue <= l'.up.queue
    && l.down.queue <= l'.down.queue
    && l.down.received <= l'.down.received
    && |l.jobs| <= |l'.jobs|
  }

  ghost predicate AllGrow(s: System, s': System) {
    && |s.links| <= |s'.links|
    && forall i :: 0 <= i < |s.links| ==> Grows(s.links[i], s'.links[i])
  }

  lemma ServedGrows(s: System, s': System, k: nat, ctx: RecvContext)
    requires AllGrow(s, s') && Served(s, k, ctx)
    ensures Served(s', k, ctx)
  {
    var i: nat, j: nat, r: nat :| ServedBy(s, k, ctx, i, j, r);
    assert Grows(s.links[i], s'.links[i]);
    assert ServedBy(s', k, ctx, i, j, r);
  }

  // No promise got a value in between.
  ghost predicate NoNewValues(c: C.Client, c': C.Client) {
    forall k: nat :: k < |c'.promises| && c'.promises[k].Value? ==>
      k < |c.promises| && c'.promises[k] == c.promises[k]
  }

  lemma ValuesStayServed(s: System, s': System)
    requires ValuesServed(s) && AllGrow(s, s') && NoNewValues(s.client, s'.client)
    ensures ValuesServed(s')
  {
    forall k: nat | k < |s'.client.promises| && s'.client.promises[k].Value?
      ensures Served(s', k, s'.client.promises[k].ctx)
    {
      ServedGrows(s, s', k, s.client.promises[k].ctx);
    }
  }

  lemma DeliveredGrows(l: Link, l': Link, q: nat)
    requires Grows(l, l') && Delivered(l, q)
    ensures Delivered(l', q)
  {
    var r :| 0 <= r < |l.down.received| && r < |l.down.queue| && l.down.queue[r].tag == q;
    assert l'.down.queue[r].tag == q;
  }

  // ---------- Requests in flight ----------

  // Readers only stop, and the links they read have been sent nothing new.
  predicate LiveShrink(s: System, s': System) {
    forall i :: 0 <= i < |s'.links| && !s'.links[i].reader.Finished? && s'.links[i].up.queue != [] ==>
      && i < |s.links| && !s.links[i].reader.Finished?
      && s'.links[i].up.queue == s.links[i].up.queue && Grows(s.links[i], s'.links[i])
  }

  lemma AwaitedBefore(s: System, s': System, k: nat, i: nat)
    requires i < |s.links| && i < |s'.links| && !s.links[i].reader.Finished?
    requires s'.links[i].up.queue == s.links[i].up.queue && Grows(s.links[i], s'.links[i])
    requires Awaited(s', k, i)
    ensures Awaited(s, k, i)
  {
    hide Delivered;
    var q :| && 0 <= q < |s'.links[i].up.queue| && s'.links[i].up.queue[q].tag == k
             && !Delivered(s'.links[i], q);
    if Delivered(s.links[i], q) { DeliveredGrows(s.links[i], s'.links[i], q); }
    assert s.links[i].up.queue[q].tag == k;
  }

  lemma InFlightBefore(s: System, s': System, k: nat)
    requires LiveShrink(s, s') && InFlight(s', k)
    requires k < |s'.status| && s'.status[k].Staged? ==> k < |s.status| && s.status[k].Staged?
    ensures InFlight(s, k)
  {
    hide Delivered;
    if !(k < |s'.status| && s'.status[k].Staged?) {
      var i: nat :| Awaited(s', k, i);
      AwaitedBefore(s, s', k, i);
    }
  }

  // Slots are only given up.
  predicate SlotsShrink(c: C.Client, c': C.Client) {
    forall x :: x in c'.slots ==> x in c.slots && c'.slots[x] == c.slots[x]
  }

  lemma TrackedStays(s: System, s': System)
    requires Tracked(s) && LiveShrink(s, s') && SlotsShrink(s.client, s'.client) && s'.status == s.status
    ensures Tracked(s')
  {
    hide InFlight, C.SessionOf, LiveShrink;
    forall k: nat | InFlight(s', k)
      ensures C.Pending(s'.client, k) || C.SessionOf(k) !in s'.client.slots
    {
      InFlightBefore(s, s', k);
    }
  }

  // ---------- A step inside one link ----------

  // The parts of a link on which the rest of the system depends.
  predicate SameForClient(l: Link, l': Link) {
    Grows(l, l') && l'.up.queue == l.up.queue && l'.reader == l.reader
  }

  lemma LinkStep(cfg: Config, s: System, i: nat, link': Link)
    requires Inv(cfg, s) && i < |s.links|
    requires SameForClient(s.links[i], link')
    requires LinkOk(cfg, s.requests, s.status, i, link')
    ensures Inv(cfg, s.(links := s.links[i := link']))
  {
    hide LinkOk, C.Inv, ValuesServed, WellMade, Tracked;
    var s' := s.(links := s.links[i := link']);
    ValuesStayServed(s, s');
    assert LinksOk(cfg, s');
    TrackedStays(s, s');
  }

  lemma UpLinkOk(cfg: Config, requests: seq<Envelope>, status: seq<Status>, i: nat, link: Link, ev: S.Event)
    requires |requests| == |status| && LinkOk(cfg, requests, status, i, link)
    requires IsRead(ev) || IsWrite(ev)
    ensures LinkOk(cfg, requests, status, i, UpLink(cfg, link, ev))
    ensures SameForClient(link, UpLink(cfg, link, ev))
  {
    hide S.Inv, S.Step, Outgoing, Answer, HandlerInput, WellMade, Receive;
    S.StepEffect(cfg.env.hash, link.up, ev);
    var link' := UpLink(cfg, link, ev);
    assert UpOk(cfg, requests, status, i, link'.up);
    assert link.up.received <= link'.up.received;
    hide UpOk;
  }

  lemma DownLinkOk(cfg: Config, requests: seq<Envelope>, status: seq<Status>, i: nat, link: Link, ev: S.Event)
    requires |requests| == |status| && LinkOk(cfg, requests, status, i, link)
    requires IsRead(ev) || IsWrite(ev)
    ensures LinkOk(cfg, requests, status, i, DownLink(cfg, link, ev))
    ensures SameForClient(link, DownLink(cfg, link, ev))
  {
    hide UpOk, S.Inv, S.Step, Outgoing, Answer, HandlerInput, WellMade, Receive;
    S.StepEffect(cfg.env.hash, link.down, ev);
  }

  lemma AnswerLinkOk(cfg: Config, requests: seq<Envelope>, status: seq<Status>, i: nat, link: Link, j: nat, reply: Envelope)
    requires |requests| == |status| && LinkOk(cfg, requests, status, i, link)
    requires WellMade(cfg.env.hash, reply)
    requires j < |link.up.received| ==> Fits(Answer(cfg, link.up.received[j], reply))
    ensures LinkOk(cfg, requests, status, i, AnswerLink(cfg, link, j, reply))
    ensures SameForClient(link, AnswerLink(cfg, link, j, reply))
  {
    hide S.Inv, UpOk, Answer, HandlerInput, WellMade, Receive, Framed;
    if j < |link.up.received| {
      match Answer(cfg, link.up.received[j], reply)
      case None =>
      case Some(env) => S.StepInv(cfg.env.hash, link.down, S.Enqueue(S.Entry(j, env)));
    }
  }

  lemma DropLinkOk(cfg: Config, requests: seq<Envelope>, status: seq<Status>, i: nat, link: Link, j: nat)
    requires |requests| == |status| && LinkOk(cfg, requests, status, i, link)
    ensures LinkOk(cfg, requests, status, i, DropLink(link, j))
    ensures SameForClient(link, DropLink(link, j))
  {
    hide S.Inv, UpOk, Answer, HandlerInput, WellMade, Receive, Framed;
  }

  // ---------- A step of the client alone ----------

  lemma ClientStep(cfg: Config, s: System, c': C.Client)
    requires Inv(cfg, s)
    requires C.Inv(c') && |c'.conns| == |s.client.conns| && |c'.promises| == |s.client.promises|
    requires NoNewValues(s.client, c') && SlotsShrink(s.client, c')
    ensures Inv(cfg, s.(client := c'))
  {
    hide LinkOk, C.Inv, ValuesServed, WellMade, Tracked, SlotsShrink;
    var s' := s.(client := c');
    assert AllGrow(s, s');
    ValuesStayServed(s, s');
    TrackedStays(s, s');
  }

  lemma FailClient(c0: C.Client, c: C.Client)
    requires C.Inv(c0) && C.SlotsOk(c) && c == c0.(conns := c.conns) && |c.conns| == |c0.conns|
    ensures C.Inv(C.FailOutstanding(c)) && SlotsShrink(c0, C.FailOutstanding(c))
    ensures NoNewValues(c0, C.FailOutstanding(c))
    ensures |C.FailOutstanding(c).conns| == |c0.conns| && |C.FailOutstanding(c).promises| == |c0.promises|
  {
    hide C.Inv;
    C.FailInv(c, c0);
  }

  lemma FailStep(cfg: Config, s: System)
    requires Inv(cfg, s)
    ensures Inv(cfg, s.(client := C.FailOutstanding(s.client)))
  {
    ShapeClient(s);
    hide Inv, C.Inv, C.SlotsOk, SlotsShrink;
    FailClient(s.client, s.client);
    ClientStep(cfg, s, C.FailOutstanding(s.client));
  }

  lemma ShapeClient(s: System)
    requires Shape(s)
    ensures C.Inv(s.client) && C.SlotsOk(s.client)
  {
    hide C.SlotsOk;
  }

  lemma StopStep(cfg: Config, s: System)
    requires Inv(cfg, s)
    ensures Inv(cfg, s.(client := C.Stop(s.client)))
  {
    hide LinkOk, ValuesServed, WellMade, Tracked, C.SlotsOk, C.Values, Low64, Low16;
    var c := s.client;
    assert C.SlotsOk(c);
    if !c.gateClosed {
      FailClient(c, c);
      C.StepInv(c, C.DoStop);
      ClientStep(cfg, s, C.Stop(c));
    }
  }

  lemma EndOfStreamStep(cfg: Config, s: System, i: nat)
    requires Inv(cfg, s)
    ensures Inv(cfg, s.(client := C.EndOfStream(s.client, i)))
  {
    hide LinkOk, ValuesServed, WellMade, Tracked, C.SlotsOk, C.Values, Low64, Low16;
    C.StepInv(s.client, C.DoEndOfStream(i));
    ClientStep(cfg, s, C.EndOfStream(s.client, i));
  }

  lemma SetReaderInv(cfg: Config, s: System, i: nat, r: Reader)
    requires Inv(cfg, s) && i < |s.links| && !s.links[i].reader.Finished?
    ensures Inv(cfg, SetReader(s, i, r))
  {
    hide C.Inv, ValuesServed, WellMade, LinkOk, Tracked;
    var s' := SetReader(s, i, r);
    TrackedStays(s, s');
    ReaderLinkOk(cfg, s.requests, s.status, i, s.links[i], r);
    ValuesStayServed(s, s');
  }

  lemma ReaderLinkOk(cfg: Config, requests: seq<Envelope>, status: seq<Status>, i: nat, link: Link, r: Reader)
    requires |requests| == |status| && LinkOk(cfg, requests, status, i, link)
    ensures LinkOk(cfg, requests, status, i, link.(reader := r))
  {
    hide S.Inv, UpOk, Answer, HandlerInput, WellMade;
  }

  // ---------- Sending ----------

  lemma SendStepInv(cfg: Config, s: System, e: Envelope)
    requires Inv(cfg, s) && Legit(cfg, s, Send(e))
    ensures Inv(cfg, SendStep(s, e))
  {
    hide UpOk, DownOk, ValuesServed, WellMade, Tracked, InFlight, C.SlotsOk, C.Values, C.SessionOf;
    if s.client.Accepts() {
      var s' := SendStep(s, e);
      C.SendInv(s.client);
      assert Shape(s');
      assert AllGrow(s, s');
      ValuesStayServed(s, s');
      forall i: nat | i < |s.links| ensures LinkOk(cfg, s'.requests, s'.status, i, s'.links[i]) {
        SendUpOk(cfg, s.requests, s.status, i, s.links[i].up, e);
      }
      SendTracked(s, e);
    }
  }

  lemma SendUpOk(cfg: Config, requests: seq<Envelope>, status: seq<Status>, i: nat, up: S.Stream, e: Envelope)
    requires |requests| == |status| && UpOk(cfg, requests, status, i, up)
    ensures UpOk(cfg, requests + [e], status + [Staged], i, up)
  {
    hide S.Inv, ApplyOut, C.SessionOf, Stamp;
  }

  lemma SendTracked(s: System, e: Envelope)
    requires Tracked(s) && Shape(s) && s.client.Accepts()
    requires C.SessionOf(|s.client.promises|) !in s.client.slots
    requires forall k: nat :: InFlight(s, k) ==> C.SessionOf(k) != C.SessionOf(|s.client.promises|)
    ensures Tracked(SendStep(s, e))
  {
    hide InFlight, C.SlotsOk, C.Values, Low64, Low16, C.SessionOf;
    C.NextSession(|s.client.promises|);
    var s' := SendStep(s, e);
    forall k: nat | InFlight(s', k)
      ensures C.Pending(s'.client, k) || C.SessionOf(k) !in s'.client.slots
    {
      if k != |s.status| { InFlightBefore(s, s', k); }
    }
  }

  // ---------- Handing a request to the writers ----------

  lemma DispatchInv(cfg: Config, s: System, k: nat)
    requires Inv(cfg, s) && Legit(cfg, s, Dispatch(k))
    ensures Inv(cfg, DispatchStep(cfg, s, k))
  {
    hide LinkOk, C.Inv, ValuesServed, WellMade, Outgoing, Tracked, Framed;
    if k < |s.status| && s.status[k].Staged? {
      var s' := DispatchStep(cfg, s, k);
      StatusLinksOk(cfg, s, k, s'.status[k]);
      if s'.links != s.links {
        var i := s.client.conn.value;
        var entry := S.Entry(k, Outgoing(cfg, s.requests, k).value);
        QueueLinkOk(cfg, s.requests, s.status, i, s.links[i], entry);
        assert AllGrow(s, s');
      }
      ValuesStayServed(s, s');
      DispatchTracked(cfg, s, k);
    }
  }

  // Requests already handed over keep their status.
  lemma StatusLinksOk(cfg: Config, s: System, k: nat, st: Status)
    requires |s.requests| == |s.status| && LinksOk(cfg, s) && k < |s.status| && s.status[k].Staged?
    ensures LinksOk(cfg, s.(status := s.status[k := st]))
  {
    hide DownOk, Outgoing, S.Inv;
  }

  lemma QueueLinkOk(cfg: Config, requests: seq<Envelope>, status: seq<Status>, i: nat, link: Link, entry: S.Entry)
    requires |requests| == |status| && LinkOk(cfg, requests, status, i, link)
    requires entry.tag < |requests| && status[entry.tag].Staged?
    requires Outgoing(cfg, requests, entry.tag) == Some(entry.env) && Framed(entry.env)
    ensures var link' := link.(up := S.Step(cfg.env.hash, link.up, S.Enqueue(entry)));
            && LinkOk(cfg, requests, status[entry.tag := Queued(i)], i, link')
            && Grows(link, link')
  {
    hide Outgoing, S.Inv, Answer, HandlerInput, WellMade, Framed;
    S.StepInv(cfg.env.hash, link.up, S.Enqueue(entry));
  }

  lemma DispatchTracked(cfg: Config, s: System, k: nat)
    requires Tracked(s) && k < |s.status| && k < |s.requests| && s.status[k].Staged?
    ensures Tracked(DispatchStep(cfg, s, k))
  {
    hide InFlight, C.SessionOf, C.Pending, Outgoing, S.Step;
    var s' := DispatchStep(cfg, s, k);
    forall x: nat | InFlight(s', x)
      ensures C.Pending(s'.client, x) || C.SessionOf(x) !in s'.client.slots
    {
      DispatchInFlight(cfg, s, k, x);
    }
  }

  lemma DispatchInFlight(cfg: Config, s: System, k: nat, x: nat)
    requires k < |s.status| && k < |s.requests| && s.status[k].Staged?
    requires InFlight(DispatchStep(cfg, s, k), x)
    ensures InFlight(s, x)
  {
    hide Outgoing, Delivered;
    var s' := DispatchStep(cfg, s, k);
    if x != k && !(x < |s'.status| && s'.status[x].Staged?) {
      var i: nat :| Awaited(s', x, i);
      var q :| && 0 <= q < |s'.links[i].up.queue| && s'.links[i].up.queue[q].tag == x
               && !Delivered(s'.links[i], q);
      assert s.links[i].up.queue[q].tag == x;
      if Delivered(s.links[i], q) { DeliveredGrows(s.links[i], s'.links[i], q); }
      assert Awaited(s, x, i);
    }
  }

  // ---------- Reading a reply ----------

  // The r-th reply on a link carries the session of the request it answers.
  lemma ReplySession(cfg: Config, requests: seq<Envelope>, status: seq<Status>, i: nat, link: Link, r: nat)
    requires |requests| == |status| && LinkOk(cfg, requests, status, i, link)
    requires r < |link.down.queue|
    ensures var j := link.down.queue[r].tag;
            && j < |link.up.queue| && j < |link.jobs|
            && link.up.queue[j].tag < |requests|
            && Receive(link.down.queue[r].env).header.session == C.SessionOf(link.up.queue[j].tag)
  {
    hide C.SessionOf, ApplyOut, S.Inv, HandlerInput, WellMade, Sealed;
    var j := link.down.queue[r].tag;
    assert Answer(cfg, link.up.received[j], link.jobs[j].reply) == Some(link.down.queue[r].env);
    ReceivedEntry(cfg.env.hash, link.up, j);
    var k := link.up.queue[j].tag;
    OutKeepsSession(cfg.env, cfg.serverOut, Stamp(link.jobs[j].reply, link.up.received[j].header.session));
    OutKeepsSession(cfg.env, cfg.clientOut, Stamp(requests[k], C.SessionOf(k)));
  }

  lemma ReceivedEntry(hash: Hash, s: S.Stream, j: nat)
    requires S.Inv(hash, s) && j < |s.received|
    ensures j < |s.queue| && s.received[j] == Receive(s.queue[j].env) && Acceptable(hash, s.queue[j].env)
  {
    hide S.Frames, CheckHeader, EncodeHeader, Acceptable, Receive, S.Partial;
  }

  // A reply whose request is not pending, or an unreadable one.
  lemma DeliverFails(cfg: Config, s: System, i: nat, r: Option<RecvContext>)
    requires Inv(cfg, s) && i < |s.links|
    requires r.None? || r.value.header.session !in s.client.slots
    ensures Inv(cfg, s.(client := C.Deliver(s.client, i, r)))
  {
    ShapeClient(s);
    hide Inv, Shape, C.Inv, C.Disable, SlotsShrink;
    var c := C.SetError(s.client, i);
    FailClient(s.client, c);
    ClientStep(cfg, s, C.FailOutstanding(c));
  }

  // The frame that the step has just delivered was not delivered before.
  lemma NotYetDelivered(cfg: Config, link: Link, r: nat)
    requires DownOk(cfg, link) && r == |link.down.received| && r < |link.down.queue|
    ensures !Delivered(link, link.down.queue[r].tag)
  {
    hide S.Inv, Answer, HandlerInput, WellMade;
  }

  // A reply whose session is pending reaches the request it answers.
  lemma ReplyPending(cfg: Config, s: System, i: nat)
    requires Inv(cfg, s) && i < |s.links| && !s.links[i].reader.Finished?
    requires |s.links[i].down.received| < |s.links[i].down.queue|
    ensures var link := s.links[i];
            var r := |link.down.received|;
            var j := link.down.queue[r].tag;
            var ctx := Receive(link.down.queue[r].env);
            && j < |link.up.queue| && j < |link.jobs|
            && (ctx.header.session in s.client.slots ==>
                  && C.Pending(s.client, link.up.queue[j].tag)
                  && ctx.header.session == C.SessionOf(link.up.queue[j].tag))
  {
    hide C.SessionOf, UpOk, DownOk, WellMade, Receive, C.Inv, ValuesServed, Delivered, RequestsOk;
    var link := s.links[i];
    var r := |link.down.received|;
    ReplySession(cfg, s.requests, s.status, i, link, r);
    NotYetDelivered(cfg, link, r);
    assert LinkOk(cfg, s.requests, s.status, i, link);
    var k := link.up.queue[link.down.queue[r].tag].tag;
    assert Awaited(s, k, i);
    assert InFlight(s, k);
  }

  // The step that settles a promise with a value.
  lemma DeliverValue(cfg: Config, s: System, i: nat, j: nat, r: nat)
    requires Inv(cfg, s) && i < |s.links|
    requires r < |s.links[i].down.received| && r < |s.links[i].down.queue| && s.links[i].down.queue[r].tag == j
    requires j < |s.links[i].jobs| && j < |s.links[i].up.queue|
    requires C.Pending(s.client, s.links[i].up.queue[j].tag)
    requires s.links[i].down.received[r].header.session == C.SessionOf(s.links[i].up.queue[j].tag)
    ensures Inv(cfg, s.(client := C.Deliver(s.client, i, Some(s.links[i].down.received[r]))))
  {
    hide C.SessionOf, LinkOk, WellMade, Low64, Low16, ValuesServed, C.Inv, C.Deliver, Tracked, C.Pending;
    var k, ctx := s.links[i].up.queue[j].tag, s.links[i].down.received[r];
    var c' := C.Deliver(s.client, i, Some(ctx));
    DeliverClient(s.client, i, k, ctx);
    DeliverServed(s, i, j, r, c');
    TrackedStays(s, s.(client := c'));
  }

  lemma DeliverClient(c: C.Client, i: nat, k: nat, ctx: RecvContext)
    requires C.Inv(c) && C.Pending(c, k) && ctx.header.session == C.SessionOf(k)
    ensures var c' := C.Deliver(c, i, Some(ctx));
            && C.Inv(c') && k < |c.promises|
            && c' == c.(readCounter := c'.readCounter,
                        promises := c.promises[k := C.Value(ctx)],
                        slots := c.slots - {C.SessionOf(k)})
  {
    hide C.SessionOf, Low64, Low16, C.Values;
    C.DeliverInv(c, i, Some(ctx));
  }

  lemma DeliverServed(s: System, i: nat, j: nat, r: nat, c': C.Client)
    requires ValuesServed(s) && i < |s.links|
    requires r < |s.links[i].down.received| && r < |s.links[i].down.queue| && s.links[i].down.queue[r].tag == j
    requires j < |s.links[i].jobs| && j < |s.links[i].up.queue|
    requires s.links[i].up.queue[j].tag < |s.client.promises|
    requires c'.promises == s.client.promises[s.links[i].up.queue[j].tag := C.Value(s.links[i].down.received[r])]
    ensures ValuesServed(s.(client := c'))
  {
    var s' := s.(client := c');
    var k0, ctx0 := s.links[i].up.queue[j].tag, s.links[i].down.received[r];
    forall k: nat | k < |c'.promises| && c'.promises[k].Value?
      ensures Served(s', k, c'.promises[k].ctx)
    {
      if k == k0 {
        assert ServedBy(s', k, ctx0, i, j, r);
      } else {
        ServedGrows(s, s', k, c'.promises[k].ctx);
      }
    }
  }

  // The continuation run on the client after the link has moved on.
  lemma AfterReadInv(cfg: Config, s: System, i: nat, ev: S.Event)
    requires Inv(cfg, s) && i < |s.links| && !s.links[i].reader.Finished? && IsRead(ev)
    ensures var link' := DownLink(cfg, s.links[i], ev);
            Inv(cfg, s.(client := AfterRead(s.client, i, s.links[i].down, link'.down),
                        links := s.links[i := link']))
  {
    hide Inv, LinkOk, S.Inv, S.Step, C.Deliver, Receive, C.SessionOf, C.Pending, SameForClient;
    var link := s.links[i];
    LinkOf(cfg, s, i);
    var link' := DownLink(cfg, link, ev);
    DownLinkOk(cfg, s.requests, s.status, i, link, ev);
    S.StepEffect(cfg.env.hash, link.down, ev);
    LinkStep(cfg, s, i, link');
    var s1 := s.(links := s.links[i := link']);
    var r := |link.down.received|;
    if |link'.down.received| > r {
      ReplyPending(cfg, s, i);
      var ctx := link'.down.received[r];
      if ctx.header.session in s.client.slots {
        DeliverValue(cfg, s1, i, link.down.queue[r].tag, r);
      } else {
        DeliverFails(cfg, s1, i, Some(ctx));
      }
    } else if link'.down.reading.Ended? && !link.down.reading.Ended? {
      DeliverFails(cfg, s1, i, None);
    }
  }

  lemma ClientReadInv(cfg: Config, s: System, i: nat, ev: S.Event)
    requires Inv(cfg, s)
    ensures Inv(cfg, ClientReadStep(cfg, s, i, ev))
  {
    hide Inv, S.Step;
    if i < |s.links| && !s.links[i].reader.Finished? && IsRead(ev) {
      AfterReadInv(cfg, s, i, ev);
      var link' := DownLink(cfg, s.links[i], ev);
      var s1 := s.(client := AfterRead(s.client, i, s.links[i].down, link'.down), links := s.links[i := link']);
      SetReaderInv(cfg, s1, i, Finished);
      var s' := ClientReadStep(cfg, s, i, ev);
      assert s'.links[i].reader.Finished? ==> s' == SetReader(s1, i, Finished);
    }
  }

  // ---------- Connecting ----------

  lemma ReopenInv(cfg: Config, s: System)
    requires Inv(cfg, s)
    ensures Inv(cfg, s.(client := C.Reopen(s.client)))
  {
    hide LinkOk, ValuesServed, WellMade, Tracked, C.SlotsOk, C.Values, Low64, Low16;
    C.StepInv(s.client, C.DoReopen);
    ClientStep(cfg, s, C.Reopen(s.client));
  }

  lemma ConnectInv(cfg: Config, s: System)
    requires Inv(cfg, s)
    ensures Inv(cfg, Step(cfg, s, Connect))
  {
    hide LinkOk, ValuesServed, WellMade, Tracked, C.SlotsOk, C.Values, Low64, Low16, Idle;
    if !s.client.IsConnValid() && Idle(s) {
      C.StepInv(s.client, C.DoConnect);
      var s' := Step(cfg, s, Connect);
      assert AllGrow(s, s');
      ValuesStayServed(s, s');
      TrackedStays(s, s');
      FreshLinkOk(cfg, s.requests, s.status, |s.links|, s'.links[|s.links|].reader);
    }
  }

  lemma FreshLinkOk(cfg: Config, requests: seq<Envelope>, status: seq<Status>, i: nat, r: Reader)
    requires |requests| == |status|
    ensures LinkOk(cfg, requests, status, i, Link(S.Empty, S.Empty, [], r))
  {
    hide S.Inv;
    S.EmptyInv(cfg.env.hash);
  }

  // ---------- Every step and every run ----------

  lemma LinkOf(cfg: Config, s: System, i: nat)
    requires Inv(cfg, s) && i < |s.links|
    ensures |s.requests| == |s.status| && LinkOk(cfg, s.requests, s.status, i, s.links[i])
    ensures S.Inv(cfg.env.hash, s.links[i].down)
  {
    hide UpOk, S.Inv, C.Inv, Tracked, ValuesServed, RequestsOk;
  }

  lemma LinkEventInv(cfg: Config, s: System, e: Event)
    requires Inv(cfg, s) && Legit(cfg, s, e)
    requires e.UpStep? || e.DownStep? || e.JobAnswers? || e.JobDrops?
    ensures Inv(cfg, Step(cfg, s, e))
  {
    hide Inv, LinkOk, SameForClient, Answer, WellMade, S.Step, AnswerLink, DropLink, UpLink, DownLink;
    if e.i < |s.links| {
      var link := s.links[e.i];
      LinkOf(cfg, s, e.i);
      match e
      case UpStep(i, ev) =>
        if IsRead(ev) || IsWrite(ev) {
          UpLinkOk(cfg, s.requests, s.status, i, link, ev);
          LinkStep(cfg, s, i, UpLink(cfg, link, ev));
        }
      case DownStep(i, ev) =>
        if IsWrite(ev) {
          DownLinkOk(cfg, s.requests, s.status, i, link, ev);
          LinkStep(cfg, s, i, DownLink(cfg, link, ev));
        }
      case JobAnswers(i, j, reply) =>
        AnswerLinkOk(cfg, s.requests, s.status, i, link, j, reply);
        LinkStep(cfg, s, i, AnswerLink(cfg, link, j, reply));
      case JobDrops(i, j) =>
        DropLinkOk(cfg, s.requests, s.status, i, link, j);
        LinkStep(cfg, s, i, DropLink(link, j));
    }
  }

  lemma FailEventInv(cfg: Config, s: System, e: Event)
    requires Inv(cfg, s)
    requires e.Timeout? || e.ReadThrows? || e.WriteThrows?
    ensures Inv(cfg, Step(cfg, s, e))
  {
    hide Inv, C.FailOutstanding;
    FailStep(cfg, s);
    var s1 := s.(client := C.FailOutstanding(s.client));
    match e
    case Timeout(i) =>
      if i < |s.links| && s.links[i].reader.Looping? {
        SetReaderInv(cfg, s1, i, Detached);
        assert Step(cfg, s, e) == SetReader(s1, i, Detached);
      }
    case ReadThrows(i) =>
      if i < |s.links| && s.links[i].reader.Looping? {
        SetReaderInv(cfg, s1, i, Finished);
        assert Step(cfg, s, e) == SetReader(s1, i, Finished);
      }
    case WriteThrows =>
  }

  lemma StepInv(cfg: Config, s: System, e: Event)
    requires Inv(cfg, s) && Legit(cfg, s, e)
    ensures Inv(cfg, Step(cfg, s, e))
  {
    hide Inv, Legit, GateDrained;
    match e
    case Send(env) => SendStepInv(cfg, s, env);
    case Dispatch(k) => DispatchInv(cfg, s, k);
    case UpStep(_, _) => LinkEventInv(cfg, s, e);
    case DownStep(_, _) => LinkEventInv(cfg, s, e);
    case JobAnswers(_, _, _) => LinkEventInv(cfg, s, e);
    case JobDrops(_, _) => LinkEventInv(cfg, s, e);
    case ClientRead(i, ev) => ClientReadInv(cfg, s, i, ev);
    case Timeout(_) => FailEventInv(cfg, s, e);
    case ReadThrows(_) => FailEventInv(cfg, s, e);
    case WriteThrows => FailEventInv(cfg, s, e);
    case EndOfStream(i) => EndOfStreamStep(cfg, s, i);
    case LoopExit(i) =>
      if i < |s.links| && s.links[i].reader.Looping? { SetReaderInv(cfg, s, i, Finished); }
    case Stop => StopStep(cfg, s);
    case Reopen => ReopenInv(cfg, s);
    case Connect => ConnectInv(cfg, s);
  }

  lemma {:induction false} RunInv(cfg: Config, s: System, evs: seq<Event>)
    requires Inv(cfg, s) && LegitRun(cfg, s, evs)
    ensures Inv(cfg, RunFrom(cfg, s, evs))
    decreases evs
  {
    hide Inv, Legit, Step;
    if evs != [] {
      StepInv(cfg, s, evs[0]);
      RunInv(cfg, Step(cfg, s, evs[0]), evs[1..]);
    }
  }
}
