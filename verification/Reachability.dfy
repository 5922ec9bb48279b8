// The client inside the system, and that a round trip can happen at all.

module Reachability {
  import opened Bytes
  import opened Wire
  import opened Filters
  import C = Client
  import CR = ClientRuns
  import S = Stream
  import opened Rpc
  import P = RpcProofs
  import E = EndToEnd

  // ---------- The client of the system is the client machine ----------

  // The event of the client machine that a step of the system performs.
  function ClientEvent(cfg: Config, s: System, e: Event): Option<C.Event> {
    match e
    case Send(_) => Some(C.DoSend)
    case ClientRead(i, ev) =>
      if i < |s.links| && !s.links[i].reader.Finished? && IsRead(ev) then
        var before, after := s.links[i].down, DownLink(cfg, s.links[i], ev).down;
        if |after.received| > |before.received| then Some(C.DoDeliver(i, Some(after.received[|before.received|])))
        else if after.reading.Ended? && !before.reading.Ended? then Some(C.DoDeliver(i, None))
        else None
      else None
    case Timeout(i) => if i < |s.links| && s.links[i].reader.Looping? then Some(C.DoFail) else None
    case ReadThrows(i) => if i < |s.links| && s.links[i].reader.Looping? then Some(C.DoFail) else None
    case WriteThrows => Some(C.DoFail)
    case EndOfStream(i) => Some(C.DoEndOfStream(i))
    case Stop => Some(C.DoStop)
    case Reopen => if GateDrained(s) then Some(C.DoReopen) else None
    case Connect => if !s.client.IsConnValid() && Idle(s) then Some(C.DoConnect) else None
    case _ => None
  }

  lemma StepRefines(cfg: Config, s: System, e: Event)
    ensures Step(cfg, s, e).client
            == match ClientEvent(cfg, s, e) case None => s.client case Some(ce) => C.Step(s.client, ce)
  {
    hide S.Step, GateDrained, C.Deliver, C.FailOutstanding, C.EndOfStream, C.Stop, C.Reopen, Outgoing, Answer, HandlerInput;
  }

  // Every run of the system is, for its client, a run of the client machine,
  // so that all that holds of those runs holds here.
  lemma {:induction false} RunRefines(cfg: Config, s: System, evs: seq<Event>) returns (ces: seq<C.Event>)
    ensures RunFrom(cfg, s, evs).client == C.RunFrom(s.client, ces)
    decreases evs
  {
    hide Step, C.Step, ClientEvent;
    if evs == [] {
      ces := [];
    } else {
      StepRefines(cfg, s, evs[0]);
      var s' := Step(cfg, s, evs[0]);
      var more := RunRefines(cfg, s', evs[1..]);
      match ClientEvent(cfg, s, evs[0])
      case None => ces := more;
      case Some(ce) =>
        ces := [ce] + more;
        assert ces[1..] == more;
    }
  }

  // ---------- A round trip can happen ----------

  // t is reached from the start by legitimate events.
  ghost predicate Reached(cfg: Config, evs: seq<Event>, t: System) {
    LegitRun(cfg, Init, evs) && RunFrom(cfg, Init, evs) == t && Inv(cfg, t)
  }

  lemma {:induction false} RunThen(cfg: Config, s: System, evs: seq<Event>, e: Event)
    requires LegitRun(cfg, s, evs) && Legit(cfg, RunFrom(cfg, s, evs), e)
    ensures LegitRun(cfg, s, evs + [e])
    ensures RunFrom(cfg, s, evs + [e]) == Step(cfg, RunFrom(cfg, s, evs), e)
    decreases evs
  {
    hide Step, Legit;
    if evs == [] {
      assert evs + [e] == [e] && [e][1..] == [];
      assert RunFrom(cfg, s, [e]) == RunFrom(cfg, Step(cfg, s, e), []);
      assert LegitRun(cfg, Step(cfg, s, e), []);
    } else {
      assert (evs + [e])[0] == evs[0] && (evs + [e])[1..] == evs[1..] + [e];
      RunThen(cfg, Step(cfg, s, evs[0]), evs[1..], e);
    }
  }

  lemma Then(cfg: Config, evs: seq<Event>, t: System, e: Event)
    requires Reached(cfg, evs, t) && Legit(cfg, t, e)
    ensures Reached(cfg, evs + [e], Step(cfg, t, e))
  {
    hide Step, Legit, Inv;
    RunThen(cfg, Init, evs, e);
    P.StepInv(cfg, t, e);
  }

  // The whole of the last frame in the queue is written.
  function WriteEvent(s: S.Stream): S.Event
    requires s.done < |s.queue|
  {
    S.Write(s.done, |Encode(s.queue[s.done].env)|)
  }

  lemma UpLinkWrites(cfg: Config, link: Link)
    requires S.AtRest(link.up)
    ensures UpLink(cfg, UpLink(cfg, link, WriteEvent(link.up)), S.Release(link.up.done))
            == link.(up := S.Written(link.up))
  {
    hide Encode;
    S.WriteLast(cfg.env.hash, link.up);
  }

  lemma UpWrites(cfg: Config, s: System)
    requires |s.links| == 1 && S.AtRest(s.links[0].up)
    ensures var up := s.links[0].up;
            Step(cfg, Step(cfg, s, UpStep(0, WriteEvent(up))), UpStep(0, S.Release(up.done)))
            == s.(links := [s.links[0].(up := S.Written(up))])
  {
    hide Encode, UpLink, S.Written;
    UpLinkWrites(cfg, s.links[0]);
  }

  lemma DownWrites(cfg: Config, s: System)
    requires |s.links| == 1 && S.AtRest(s.links[0].down)
    ensures var down := s.links[0].down;
            Step(cfg, Step(cfg, s, DownStep(0, WriteEvent(down))), DownStep(0, S.Release(down.done)))
            == s.(links := [s.links[0].(down := S.Written(down))])
  {
    hide Encode, S.Step, S.Written;
    S.WriteLast(cfg.env.hash, s.links[0].down);
  }

  // One complete frame is written but not yet read, and it is acceptable.
  predicate ReadyToRead(hash: Hash, s: S.Stream) {
    && s.reading.AtHeader? && |s.received| + 1 == s.done <= |s.queue|
    && Acceptable(hash, s.queue[|s.received|].env)
  }

  lemma UpLinkReads(cfg: Config, link: Link)
    requires S.Inv(cfg.env.hash, link.up) && ReadyToRead(cfg.env.hash, link.up)
    ensures var link' := UpLink(cfg, UpLink(cfg, link, S.ReadHeader), S.ReadPayload);
            && link'.up.received == link.up.received + [Receive(link.up.queue[|link.up.received|].env)]
            && link' == link.(up := link'.up, jobs := link.jobs + [Running])
  {
    hide S.Inv, Acceptable, Receive, S.Step;
    S.ReadThrough(cfg.env.hash, link.up);
  }

  lemma UpReads(cfg: Config, s: System)
    requires Inv(cfg, s) && |s.links| == 1 && ReadyToRead(cfg.env.hash, s.links[0].up)
    ensures var s' := Step(cfg, Step(cfg, s, UpStep(0, S.ReadHeader)), UpStep(0, S.ReadPayload));
            var up := s.links[0].up;
            && s'.client == s.client && |s'.links| == 1
            && s'.links[0].up.received == up.received + [Receive(up.queue[|up.received|].env)]
            && s'.links[0].jobs == s.links[0].jobs + [Running]
            && s'.links[0].down == s.links[0].down && s'.links[0].reader == s.links[0].reader
  {
    hide Inv, S.Inv, Receive, S.Step, UpLink, Acceptable;
    UpInvOf(cfg, s);
    UpLinkReads(cfg, s.links[0]);
  }

  lemma UpInvOf(cfg: Config, s: System)
    requires Inv(cfg, s) && |s.links| == 1
    ensures S.Inv(cfg.env.hash, s.links[0].up) && S.Inv(cfg.env.hash, s.links[0].down)
  {
    hide S.Inv, C.Inv, ValuesServed, Tracked, RequestsOk, Outgoing, Answer, HandlerInput, WellMade;
    assert LinkOk(cfg, s.requests, s.status, 0, s.links[0]);
  }

  lemma ClientReads(cfg: Config, s: System)
    requires Inv(cfg, s) && |s.links| == 1 && s.links[0].reader.Looping?
    requires ReadyToRead(cfg.env.hash, s.links[0].down)
    ensures var down := s.links[0].down;
            Step(cfg, Step(cfg, s, ClientRead(0, S.ReadHeader)), ClientRead(0, S.ReadPayload)).client
            == C.Deliver(s.client, 0, Some(Receive(down.queue[|down.received|].env)))
  {
    hide Inv, S.Inv, Receive, S.Step, C.Deliver, Acceptable;
    UpInvOf(cfg, s);
    S.ReadThrough(cfg.env.hash, s.links[0].down);
  }

  // Two connected ends with the first request handed to the writer.
  lemma FirstRequest(cfg: Config, e: Envelope) returns (evs: seq<Event>, s: System)
    requires WellMade(cfg.env.hash, e)
    requires var oe := Outgoing(cfg, [e], 0); oe.Some? && Framed(oe.value)
    ensures Reached(cfg, evs, s)
    ensures s.client.slots == map[1 := 0] && s.client.promises == [C.Unset]
    ensures s.links == [Link(S.Step(cfg.env.hash, S.Empty, S.Enqueue(S.Entry(0, Outgoing(cfg, [e], 0).value))),
                             S.Empty, [], Looping)]
  {
    hide WellMade, Outgoing, Framed, S.Step, C.Inv, Inv;
    E.InitInv(cfg);
    var s1 := Step(cfg, Init, Connect);
    Then(cfg, [], Init, Connect);
    var s2 := Step(cfg, s1, Send(e));
    assert s1.client.Accepts();
    Then(cfg, [] + [Connect], s1, Send(e));
    assert s2.client.slots == map[1 := 0] && s2.status == [Staged] && s2.requests == [e];
    s := Step(cfg, s2, Dispatch(0));
    Then(cfg, [] + [Connect] + [Send(e)], s2, Dispatch(0));
    evs := [] + [Connect] + [Send(e)] + [Dispatch(0)];
  }

  // The server receives the request.
  lemma RequestArrives(cfg: Config, evs: seq<Event>, s: System) returns (evs': seq<Event>, s': System)
    requires Reached(cfg, evs, s) && |s.links| == 1 && S.AtRest(s.links[0].up)
    requires Acceptable(cfg.env.hash, s.links[0].up.queue[s.links[0].up.done].env)
    ensures Reached(cfg, evs', s') && s'.client == s.client && |s'.links| == 1
    ensures var up := s.links[0].up;
            && s'.links[0].up.received == up.received + [Receive(up.queue[|up.received|].env)]
            && s'.links[0].jobs == s.links[0].jobs + [Running]
            && s'.links[0].down == s.links[0].down && s'.links[0].reader == s.links[0].reader
  {
    hide Step, Inv, Acceptable, Receive, EncodeHeader;
    var up := s.links[0].up;
    var w1, w2 := UpStep(0, WriteEvent(up)), UpStep(0, S.Release(up.done));
    var r1, r2 := UpStep(0, S.ReadHeader), UpStep(0, S.ReadPayload);
    Then(cfg, evs, s, w1);
    Then(cfg, evs + [w1], Step(cfg, s, w1), w2);
    UpWrites(cfg, s);
    var u := Step(cfg, Step(cfg, s, w1), w2);
    var done := evs + [w1] + [w2];
    Then(cfg, done, u, r1);
    Then(cfg, done + [r1], Step(cfg, u, r1), r2);
    UpReads(cfg, u);
    evs', s' := done + [r1] + [r2], Step(cfg, Step(cfg, u, r1), r2);
  }

  // The client receives the reply at the head of the server's queue.
  lemma ReplyArrives(cfg: Config, evs: seq<Event>, s: System) returns (evs': seq<Event>, s': System)
    requires Reached(cfg, evs, s) && |s.links| == 1 && S.AtRest(s.links[0].down) && s.links[0].reader.Looping?
    requires Acceptable(cfg.env.hash, s.links[0].down.queue[s.links[0].down.done].env)
    ensures Reached(cfg, evs', s')
    ensures var down := s.links[0].down;
            s'.client == C.Deliver(s.client, 0, Some(Receive(down.queue[|down.received|].env)))
  {
    hide Step, Inv, Acceptable, Receive, EncodeHeader, C.Deliver;
    var down := s.links[0].down;
    var w1, w2 := DownStep(0, WriteEvent(down)), DownStep(0, S.Release(down.done));
    var r1, r2 := ClientRead(0, S.ReadHeader), ClientRead(0, S.ReadPayload);
    Then(cfg, evs, s, w1);
    Then(cfg, evs + [w1], Step(cfg, s, w1), w2);
    DownWrites(cfg, s);
    var u := Step(cfg, Step(cfg, s, w1), w2);
    var done := evs + [w1] + [w2];
    Then(cfg, done, u, r1);
    Then(cfg, done + [r1], Step(cfg, u, r1), r2);
    ClientReads(cfg, u);
    evs', s' := done + [r1] + [r2], Step(cfg, Step(cfg, u, r1), r2);
  }

  lemma FirstSession(cfg: Config, e: Envelope, reply: Envelope)
    requires Outgoing(cfg, [e], 0).Some?
    requires Answer(cfg, Receive(Outgoing(cfg, [e], 0).value), reply).Some?
    ensures Receive(Answer(cfg, Receive(Outgoing(cfg, [e], 0).value), reply).value).header.session == 1
  {
    hide ApplyOut;
    var request := Receive(Outgoing(cfg, [e], 0).value);
    OutKeepsSession(cfg.env, cfg.serverOut, Stamp(reply, request.header.session));
    OutKeepsSession(cfg.env, cfg.clientOut, Stamp(e, C.SessionOf(0)));
  }

  // Whatever the request and the handler's reply, as long as both can be put
  // on the wire and the server can decompress the request, there is a run in
  // which the caller gets that reply.
  lemma RoundTripReachable(cfg: Config, e: Envelope, reply: Envelope) returns (evs: seq<Event>)
    requires WellMade(cfg.env.hash, e) && WellMade(cfg.env.hash, reply)
    requires var oe := Outgoing(cfg, [e], 0); oe.Some? && Acceptable(cfg.env.hash, oe.value)
    requires var request := Receive(Outgoing(cfg, [e], 0).value);
             && HandlerInput(cfg, request).Some?
             && Answer(cfg, request, reply).Some?
             && Acceptable(cfg.env.hash, Answer(cfg, request, reply).value)
    ensures LegitRun(cfg, Init, evs)
    ensures var s := RunFrom(cfg, Init, evs);
            var request := Receive(Outgoing(cfg, [e], 0).value);
            |s.client.promises| == 1 && s.client.promises[0] == C.Value(Receive(Answer(cfg, request, reply).value))
  {
    hide WellMade, Outgoing, Answer, HandlerInput, Acceptable, Receive, Inv, EncodeHeader;
    var oe := Outgoing(cfg, [e], 0).value;
    var request := Receive(oe);
    var re := Answer(cfg, request, reply).value;
    FirstSession(cfg, e, reply);
    S.AcceptableFramed(cfg.env.hash, oe);
    S.AcceptableFramed(cfg.env.hash, re);
    var evs1, s1 := FirstRequest(cfg, e);
    var evs2, s2 := RequestArrives(cfg, evs1, s1);
    assert s2.links[0].up.received == [request];
    var answer := JobAnswers(0, 0, reply);
    Then(cfg, evs2, s2, answer);
    var s3 := Step(cfg, s2, answer);
    assert s3.client == s2.client && s3.links[0].down.queue == [S.Entry(0, re)];
    var evs4, s4 := ReplyArrives(cfg, evs2 + [answer], s3);
    evs := evs4;
  }
}
