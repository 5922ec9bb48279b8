// When a reader left over from an earlier connection disturbs the current one,
// and when nothing but the current connection's own events can.

module Isolation {
  import opened Bytes
  import opened Wire
  import C = Client
  import CR = ClientRuns
  import S = Stream
  import opened Rpc
  import P = RpcProofs
  import E = EndToEnd
  import R = Reachability

  // The read delivers a frame, or ends the reader.
  predicate Progress(cfg: Config, s: System, i: nat, ev: S.Event)
    requires i < |s.links|
  {
    var before, after := s.links[i].down, DownLink(cfg, s.links[i], ev).down;
    |after.received| > |before.received| || (after.reading.Ended? && !before.reading.Ended?)
  }

  // What the reader's continuation is given.
  function Outcome(cfg: Config, s: System, i: nat, ev: S.Event): Option<RecvContext>
    requires i < |s.links|
  {
    var before, after := s.links[i].down, DownLink(cfg, s.links[i], ev).down;
    if |after.received| > |before.received| then Some(after.received[|before.received|]) else None
  }

  lemma ReadDelivers(cfg: Config, s: System, i: nat, ev: S.Event)
    requires i < |s.links| && IsRead(ev) && !s.links[i].reader.Finished?
    ensures Step(cfg, s, ClientRead(i, ev)).client
            == if Progress(cfg, s, i, ev) then C.Deliver(s.client, i, Outcome(cfg, s, i, ev)) else s.client
  {
    hide C.Deliver, S.Step;
  }

  // There is nothing left that a failure of connection i could change.
  predicate Spent(c: C.Client, i: nat) {
    i < |c.conns| && c.conns[i].error && c.slots == map[] && !c.IsConnValid()
  }

  lemma FailChanges(c: C.Client, i: nat)
    requires C.Inv(c) && i < |c.conns|
    ensures C.FailOutstanding(C.SetError(c, i)) == c <==> Spent(c, i)
  {
    hide C.SessionOf, Low64, Low16, C.Values;
    var c' := C.FailOutstanding(C.SetError(c, i));
    if Spent(c, i) {
      C.FailNone(c.promises);
      assert c.conns[i := c.conns[i].(error := true)] == c.conns;
    } else if c.IsConnValid() {
      assert c'.conns[c.conn.value] != c.conns[c.conn.value];
    }
  }

  lemma DeliverChanges(c: C.Client, i: nat, r: Option<RecvContext>)
    requires C.Inv(c) && i < |c.conns|
    ensures C.Deliver(c, i, r) == c <==> Spent(c, i)
  {
    hide C.SessionOf, Low64, Low16, C.Values, C.FailOutstanding;
    if r.Some? && r.value.header.session in c.slots {
      var k := c.slots[r.value.header.session];
      assert C.Deliver(c, i, r).promises[k] != c.promises[k];
    } else {
      FailChanges(c, i);
    }
  }

  // A read on any connection leaves the client alone exactly when its reader
  // is over, the read makes no progress, or there is nothing left to fail.
  lemma ReadLeavesClient(cfg: Config, s: System, i: nat, ev: S.Event)
    requires Inv(cfg, s) && i < |s.links| && IsRead(ev)
    ensures Step(cfg, s, ClientRead(i, ev)).client == s.client
            <==> s.links[i].reader.Finished? || !Progress(cfg, s, i, ev) || Spent(s.client, i)
  {
    hide C.Inv, C.Deliver, Step, Outcome, Progress, LinksOk, RequestsOk, Tracked, ValuesServed, Spent;
    if s.links[i].reader.Finished? {
      assert Step(cfg, s, ClientRead(i, ev)).client == s.client by { FinishedReads(cfg, s, i, ev); }
    } else {
      ReadDelivers(cfg, s, i, ev);
      DeliverChanges(s.client, i, Outcome(cfg, s, i, ev));
    }
  }

  lemma FinishedReads(cfg: Config, s: System, i: nat, ev: S.Event)
    requires i < |s.links| && s.links[i].reader.Finished?
    ensures Step(cfg, s, ClientRead(i, ev)) == s
  {}

  // A reader of another connection that makes progress costs a usable client
  // its connection and every pending request, except when it delivers the
  // reply of a pending request.
  lemma LeftoverBreaks(cfg: Config, s: System, i: nat, ev: S.Event)
    requires Inv(cfg, s) && i < |s.links| && IsRead(ev)
    requires s.client.IsConnValid() && s.client.conn != Some(i)
    requires !s.links[i].reader.Finished? && Progress(cfg, s, i, ev)
    ensures var reply := Outcome(cfg, s, i, ev);
            var matched := reply.Some? && reply.value.header.session in s.client.slots;
            var c' := Step(cfg, s, ClientRead(i, ev)).client;
            && (c'.IsConnValid() <==> matched)
            && (!matched ==>
                  && c'.slots == map[] && |c'.promises| == |s.client.promises|
                  && forall k: nat :: k < |s.client.promises| && C.Pending(s.client, k)
                       ==> c'.promises[k] == C.Exception)
  {
    hide Step, LinksOk, RequestsOk, Tracked, ValuesServed, C.Pending, C.Deliver, C.Inv, C.Client.IsConnValid,
      Progress, Outcome;
    ReadDelivers(cfg, s, i, ev);
    ConnOf(s.client);
    CR.LateReader(s.client, i, Outcome(cfg, s, i, ev));
  }

  lemma ConnOf(c: C.Client)
    requires c.IsConnValid()
    ensures c.conn.Some? && c.conn.value < |c.conns|
  {}

  // It can happen: a read times out, the client reconnects and sends, and then
  // the first connection's reader comes to the end of its input.
  lemma LateReaderReachable(cfg: Config, e: Envelope) returns (evs: seq<Event>)
    requires WellMade(cfg.env.hash, e)
    ensures LegitRun(cfg, Init, evs)
    ensures var c := RunFrom(cfg, Init, evs).client;
            c.conn == Some(1) && !c.IsConnValid() && c.promises == [C.Exception]
  {
    var evs1, s1 := FirstConnection(cfg);
    evs := SecondConnection(cfg, e, evs1, s1);
  }

  // A connection was made, its read timed out, and the client is between the
  // drained gate and the new connection of reconnect().
  ghost predicate Reconnecting(s: System) {
    && s.links == [Link(S.Empty, S.Empty, [], Detached)] && s.status == []
    && s.client == C.Client([C.Connection(false, false, false)], None, map[], [], 0, 0, false)
  }

  lemma FirstConnection(cfg: Config) returns (evs: seq<Event>, s: System)
    ensures R.Reached(cfg, evs, s) && Reconnecting(s)
  {
    hide Inv, R.Reached, S.Step;
    assert R.Reached(cfg, [], Init) by { E.InitInv(cfg); InitReached(cfg); }
    R.Then(cfg, [], Init, Connect);
    assert [] + [Connect] == [Connect];
    TimedOut(cfg);
    var s2 := Step(cfg, Step(cfg, Init, Connect), Timeout(0));
    R.Then(cfg, [Connect], Step(cfg, Init, Connect), Timeout(0));
    hide Step;
    assert [Connect] + [Timeout(0)] == [Connect, Timeout(0)];
    R.Then(cfg, [Connect, Timeout(0)], s2, Stop);
    s := Step(cfg, Step(cfg, s2, Stop), Reopen);
    R.Then(cfg, [Connect, Timeout(0)] + [Stop], Step(cfg, s2, Stop), Reopen);
    evs := [Connect, Timeout(0)] + [Stop] + [Reopen];
    Stopped(cfg, s2);
  }

  // The first connection after the timeout of its read.
  ghost predicate Abandoned(s: System) {
    && s.links == [Link(S.Empty, S.Empty, [], Detached)] && s.status == []
    && s.client == C.Client([C.Connection(false, false, false)], Some(0), map[], [], 0, 0, false)
  }

  lemma TimedOut(cfg: Config)
    ensures Abandoned(Step(cfg, Step(cfg, Init, Connect), Timeout(0)))
  {
    hide S.Step;
  }

  lemma Stopped(cfg: Config, s: System)
    requires Abandoned(s)
    ensures Reconnecting(Step(cfg, Step(cfg, s, Stop), Reopen))
  {
    hide S.Step;
  }

  lemma InitReached(cfg: Config)
    requires Inv(cfg, Init)
    ensures R.Reached(cfg, [], Init)
  {
    hide Inv;
  }

  lemma SecondConnection(cfg: Config, e: Envelope, evs: seq<Event>, s: System) returns (evs': seq<Event>)
    requires WellMade(cfg.env.hash, e) && R.Reached(cfg, evs, s) && Reconnecting(s)
    ensures LegitRun(cfg, Init, evs')
    ensures var c := RunFrom(cfg, Init, evs').client;
            c.conn == Some(1) && !c.IsConnValid() && c.promises == [C.Exception]
  {
    hide WellMade, Inv;
    var s1 := Step(cfg, s, Connect);
    R.Then(cfg, evs, s, Connect);
    assert s1.links == [Link(S.Empty, S.Empty, [], Detached), Link(S.Empty, S.Empty, [], Looping)];
    var s2 := Step(cfg, s1, Send(e));
    R.Then(cfg, evs + [Connect], s1, Send(e));
    var over := ClientRead(0, S.ReadEnd);
    R.Then(cfg, evs + [Connect] + [Send(e)], s2, over);
    assert Step(cfg, s2, over).client == C.Deliver(s2.client, 0, None);
    assert s2.client.slots[1] == 0;
    evs' := evs + [Connect] + [Send(e)] + [over];
  }

  // ---------- Isolation ----------

  // The events that are about connection c, and the two that are about
  // whatever connection is current.
  predicate Touches(e: Event, c: nat) {
    match e
    case ClientRead(i, _) => i == c
    case Timeout(i) => i == c
    case ReadThrows(i) => i == c
    case EndOfStream(i) => i == c
    case WriteThrows => true
    case Stop => true
    case _ => false
  }

  // c is current and usable, and no other connection has a reader left.
  predicate Alone(s: System, c: nat) {
    && s.client.conn == Some(c) && s.client.Accepts() && c < |s.links|
    && forall i :: 0 <= i < |s.links| && i != c ==> s.links[i].reader.Finished?
  }

  lemma StepIsolated(cfg: Config, s: System, c: nat, e: Event)
    requires Alone(s, c) && !Touches(e, c)
    ensures Alone(Step(cfg, s, e), c)
    ensures forall k: nat :: C.Pending(s.client, k) ==> C.Pending(Step(cfg, s, e).client, k)
  {
    hide S.Step, Outgoing, Answer, HandlerInput, C.SessionOf, Low64, Low16, GateDrained;
  }

  // On every run of a client whose earlier readers are over, only the current
  // connection's own reads, a failed write and stop() can make it unusable or
  // take a pending request away.
  lemma {:induction false} RunIsolated(cfg: Config, s: System, c: nat, evs: seq<Event>)
    requires Alone(s, c) && forall e :: e in evs ==> !Touches(e, c)
    ensures Alone(RunFrom(cfg, s, evs), c)
    ensures forall k: nat :: C.Pending(s.client, k) ==> C.Pending(RunFrom(cfg, s, evs).client, k)
    decreases evs
  {
    hide Step, Alone, Touches, C.Pending;
    if evs != [] {
      StepIsolated(cfg, s, c, evs[0]);
      RunIsolated(cfg, Step(cfg, s, evs[0]), c, evs[1..]);
    }
  }
}
