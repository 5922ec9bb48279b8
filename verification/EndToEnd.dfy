// What a caller of send() can rely on, over every run of the whole system.

module EndToEnd {
  import opened Bytes
  import opened Wire
  import opened Filters
  import C = Client
  import CR = ClientRuns
  import S = Stream
  import opened Rpc
  import P = RpcProofs
  import opened Ids
  import opened Router

  lemma InitInv(cfg: Config)
    ensures Inv(cfg, Init)
  {}

  // The k-th send was executed as job j of link i on exactly the envelope that
  // the caller passed, and its promise holds that job's reply.
  ghost predicate AnsweredBy(cfg: Config, s: System, k: nat, i: nat, j: nat) {
    && k < |s.client.promises| && s.client.promises[k].Value?
    && k < |s.requests|
    && i < |s.links| && j < |s.links[i].jobs| && s.links[i].jobs[j].Answered?
    && j < |s.links[i].up.queue| && s.links[i].up.queue[j].tag == k
    && j < |s.links[i].up.received|
    && HandlerInput(cfg, s.links[i].up.received[j]) == Some(Receive(Stamp(s.requests[k], C.SessionOf(k))))
    && SendResult(cfg, s.client.promises[k].ctx)
       == (if Covered(cfg.clientIn, s.client.promises[k].ctx)
           then Some(Receive(Stamp(s.links[i].jobs[j].reply, C.SessionOf(k)))) else None)
  }

  // Sealing does not look at the session.
  lemma StampWellMade(hash: Hash, e: Envelope, session: uint16)
    requires WellMade(hash, e)
    ensures WellMade(hash, Stamp(e, session))
  {}

  lemma IncomingOf(env: Env, outs: seq<OutFilter>, ins: seq<InFilter>, e: Envelope, r: Envelope)
    requires env.Ok() && WellMade(env.hash, e) && ApplyOut(env, outs, e) == Some(r)
    ensures Incoming(env, ins, Receive(r)) == if Covered(ins, Receive(r)) then Some(Receive(e)) else None
  {
    hide ApplyOut, ApplyIn, Covered, Seal, Env.Ok;
    Pipeline(env, outs, ins, e);
  }

  lemma JobSawRequest(cfg: Config, s: System, i: nat, j: nat)
    requires cfg.env.Ok() && Inv(cfg, s) && i < |s.links| && j < |s.links[i].up.received|
    requires HandlerInput(cfg, s.links[i].up.received[j]).Some?
    ensures j < |s.links[i].up.queue| && s.links[i].up.queue[j].tag < |s.requests|
    ensures var k := s.links[i].up.queue[j].tag;
            HandlerInput(cfg, s.links[i].up.received[j]) == Some(Receive(Stamp(s.requests[k], C.SessionOf(k))))
  {
    hide C.Inv, DownOk, ValuesServed, S.Inv, ApplyOut, Incoming, WellMade, Receive, C.SessionOf, Env.Ok;
    var link := s.links[i];
    assert LinkOk(cfg, s.requests, s.status, i, link);
    P.ReceivedEntry(cfg.env.hash, link.up, j);
    var k := link.up.queue[j].tag;
    var e := Stamp(s.requests[k], C.SessionOf(k));
    StampWellMade(cfg.env.hash, s.requests[k], C.SessionOf(k));
    IncomingOf(cfg.env, cfg.clientOut, cfg.serverIn, e, link.up.queue[j].env);
  }

  lemma ReplyReaches(cfg: Config, s: System, i: nat, j: nat, r: nat)
    requires cfg.env.Ok() && Inv(cfg, s) && i < |s.links| && r < |s.links[i].down.received|
    requires r < |s.links[i].down.queue| && s.links[i].down.queue[r].tag == j
    requires j < |s.links[i].up.queue|
    ensures j < |s.links[i].jobs| && s.links[i].jobs[j].Answered?
    ensures j < |s.links[i].up.received| && HandlerInput(cfg, s.links[i].up.received[j]).Some?
    ensures var ctx := s.links[i].down.received[r];
            SendResult(cfg, ctx)
            == (if Covered(cfg.clientIn, ctx)
                then Some(Receive(Stamp(s.links[i].jobs[j].reply, C.SessionOf(s.links[i].up.queue[j].tag)))) else None)
  {
    hide C.Inv, ValuesServed, S.Inv, ApplyOut, Incoming, WellMade, Receive, C.SessionOf, Covered, Env.Ok;
    var link := s.links[i];
    assert LinkOk(cfg, s.requests, s.status, i, link);
    P.ReceivedEntry(cfg.env.hash, link.down, r);
    P.ReplySession(cfg, s.requests, s.status, i, link, r);
    var session := link.up.received[j].header.session;
    var env := link.down.queue[r].env;
    assert ApplyOut(cfg.env, cfg.serverOut, Stamp(link.jobs[j].reply, session)) == Some(env);
    StampWellMade(cfg.env.hash, link.jobs[j].reply, session);
    IncomingOf(cfg.env, cfg.serverOut, cfg.clientIn, Stamp(link.jobs[j].reply, session), env);
    assert session == C.SessionOf(link.up.queue[j].tag) by { RequestSession(cfg, s.requests, s.status, i, link, j); }
  }

  lemma RequestSession(cfg: Config, requests: seq<Envelope>, status: seq<Status>, i: nat, link: Link, j: nat)
    requires |requests| == |status| && LinkOk(cfg, requests, status, i, link)
    requires j < |link.up.received| && j < |link.up.queue|
    ensures link.up.received[j].header.session == C.SessionOf(link.up.queue[j].tag)
  {
    hide C.SessionOf, ApplyOut, S.Inv, DownOk;
    P.ReceivedEntry(cfg.env.hash, link.up, j);
    var k := link.up.queue[j].tag;
    OutKeepsSession(cfg.env, cfg.clientOut, Stamp(requests[k], C.SessionOf(k)));
  }

  // In every interleaving, with replies in any order, lost connections,
  // timeouts and reconnections: a promise that holds a value holds the reply
  // that the server computed from that very request.
  lemma RepliesMatch(cfg: Config, evs: seq<Event>, k: nat)
    requires cfg.env.Ok() && LegitRun(cfg, Init, evs)
    requires var s := RunFrom(cfg, Init, evs);
             k < |s.client.promises| && s.client.promises[k].Value?
    ensures exists i: nat, j: nat :: AnsweredBy(cfg, RunFrom(cfg, Init, evs), k, i, j)
  {
    var s := RunFrom(cfg, Init, evs);
    InitInv(cfg);
    P.RunInv(cfg, Init, evs);
    RepliesMatchIn(cfg, s, k);
  }

  lemma RepliesMatchIn(cfg: Config, s: System, k: nat)
    requires cfg.env.Ok() && Inv(cfg, s)
    requires k < |s.client.promises| && s.client.promises[k].Value?
    ensures exists i: nat, j: nat :: AnsweredBy(cfg, s, k, i, j)
  {
    hide LinkOk, C.Inv, RequestsOk, HandlerInput, SendResult, Covered, Receive, C.SessionOf, Env.Ok;
    var ctx := s.client.promises[k].ctx;
    assert Served(s, k, ctx);
    var i: nat, j: nat, r: nat :| ServedBy(s, k, ctx, i, j, r);
    hide Inv;
    ReplyReaches(cfg, s, i, j, r);
    JobSawRequest(cfg, s, i, j);
    assert AnsweredBy(cfg, s, k, i, j);
  }

  // The request that job j of link i received carries the caller's request id.
  lemma JobKeepsId(cfg: Config, s: System, i: nat, j: nat)
    requires Inv(cfg, s) && cfg.env.Ok() && i < |s.links| && j < |s.links[i].up.received| && j < |s.links[i].up.queue|
    ensures s.links[i].up.queue[j].tag < |s.requests|
    ensures s.links[i].up.received[j].header.meta == s.requests[s.links[i].up.queue[j].tag].header.meta
  {
    hide C.Inv, DownOk, ValuesServed, S.Inv, ApplyOut, Sealed, C.SessionOf, Tracked, Env.Ok, ApplyIn, Covered;
    var link := s.links[i];
    assert LinkOk(cfg, s.requests, s.status, i, link);
    P.ReceivedEntry(cfg.env.hash, link.up, j);
    var k := link.up.queue[j].tag;
    assert WellMade(cfg.env.hash, s.requests[k]);
    StampWellMade(cfg.env.hash, s.requests[k], C.SessionOf(k));
    Pipeline(cfg.env, cfg.clientOut, [], Stamp(s.requests[k], C.SessionOf(k)));
  }

  // With distinct ids registered, a caller that used the id of one of the
  // registered methods, other than id zero, is answered by a job for which the
  // server selected that very method.
  lemma RightMethod(cfg: Config, evs: seq<Event>, k: nat, crc: Crc, ss: seq<Service>, svc: Service, m: nat)
    requires cfg.env.Ok() && LegitRun(cfg, Init, evs)
    requires AllOk(ss) && DistinctIds(crc, ss) && svc in ss && m < |svc.calls| && crc(svc.name) != MethodId(crc, svc.calls[m])
    requires var s := RunFrom(cfg, Init, evs);
             && k < |s.client.promises| && s.client.promises[k].Value?
             && k < |s.requests| && s.requests[k].header.meta == RequestId(crc, svc, m) as int
    ensures exists i: nat, j: nat ::
              && AnsweredBy(cfg, RunFrom(cfg, Init, evs), k, i, j)
              && RoutedTo(crc, ss, RunFrom(cfg, Init, evs).links[i].up.received[j].header.meta as bv32, Handle(svc, m))
  {
    hide Inv, LegitRun, RunFrom, RequestId, MethodId, DistinctIds, Selected, Env.Ok, HandlerInput, SendResult, Covered;
    var s := RunFrom(cfg, Init, evs);
    InitInv(cfg);
    P.RunInv(cfg, Init, evs);
    RepliesMatch(cfg, evs, k);
    var i: nat, j: nat :| AnsweredBy(cfg, s, k, i, j);
    JobKeepsId(cfg, s, i, j);
    var id := s.links[i].up.received[j].header.meta as bv32;
    assert id == RequestId(crc, svc, m);
    forall r | Selected(crc, ss, id, r) ensures r == Some(Handle(svc, m)) {
      UnreachableMethod(crc, ss, svc, m, r);
    }
  }

  // Each send is executed at most once.
  lemma AtMostOnce(cfg: Config, evs: seq<Event>, i: nat, j: nat, i': nat, j': nat)
    requires LegitRun(cfg, Init, evs)
    requires var s := RunFrom(cfg, Init, evs);
             && i < |s.links| && j < |s.links[i].jobs| && j < |s.links[i].up.queue|
             && i' < |s.links| && j' < |s.links[i'].jobs| && j' < |s.links[i'].up.queue|
             && s.links[i].up.queue[j].tag == s.links[i'].up.queue[j'].tag
    ensures i == i' && j == j'
  {
    hide C.Inv, DownOk, ValuesServed, RequestsOk, S.Inv, Outgoing;
    InitInv(cfg);
    P.RunInv(cfg, Init, evs);
    var s := RunFrom(cfg, Init, evs);
    assert LinkOk(cfg, s.requests, s.status, i, s.links[i]);
    assert LinkOk(cfg, s.requests, s.status, i', s.links[i']);
  }

  // ---------- The window is enough ----------

  // As Legit, with fewer than 65536 sends since the oldest one that is pending
  // or in flight in place of a free session.
  ghost predicate InWindow(cfg: Config, s: System, e: Event) {
    match e
    case Send(env) =>
      && WellMade(cfg.env.hash, env)
      && (s.client.Accepts() ==>
            forall k: nat :: k < |s.client.promises| && (C.Pending(s.client, k) || InFlight(s, k))
              ==> |s.client.promises| - k < C.SESSIONS)
    case _ => Legit(cfg, s, e)
  }

  ghost predicate WindowRun(cfg: Config, s: System, evs: seq<Event>)
    decreases evs
  {
    evs == [] || (InWindow(cfg, s, evs[0]) && WindowRun(cfg, Step(cfg, s, evs[0]), evs[1..]))
  }

  lemma {:induction false} WindowSuffices(cfg: Config, s: System, evs: seq<Event>)
    requires Inv(cfg, s) && WindowRun(cfg, s, evs)
    ensures LegitRun(cfg, s, evs)
    decreases evs
  {
    hide Step, Inv;
    if evs != [] {
      InWindowLegit(cfg, s, evs[0]);
      P.StepInv(cfg, s, evs[0]);
      WindowSuffices(cfg, Step(cfg, s, evs[0]), evs[1..]);
    }
  }

  lemma InFlightIsSend(cfg: Config, s: System, k: nat)
    requires Inv(cfg, s) && InFlight(s, k)
    ensures k < |s.client.promises|
  {
    hide DownOk, S.Inv, Outgoing, Delivered, C.Inv, Tracked, ValuesServed, RequestsOk;
    if !(k < |s.status| && s.status[k].Staged?) {
      var i: nat :| Awaited(s, k, i);
      assert LinkOk(cfg, s.requests, s.status, i, s.links[i]);
    }
  }

  lemma InWindowLegit(cfg: Config, s: System, e: Event)
    requires Inv(cfg, s) && InWindow(cfg, s, e)
    ensures Legit(cfg, s, e)
  {
    hide LinksOk, RequestsOk, ValuesServed, WellMade, C.SessionOf, C.Pending, C.Inv, InFlight, Tracked;
    if e.Send? && s.client.Accepts() {
      CR.WindowFree(s.client);
      forall k: nat | InFlight(s, k) ensures C.SessionOf(k) != C.SessionOf(|s.client.promises|) {
        InFlightIsSend(cfg, s, k);
        CR.WindowSessions(k, |s.client.promises|);
      }
    }
  }
}
