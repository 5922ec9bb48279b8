// What single steps of the system do, apart from what all of them keep.

module RpcSteps {
  import opened Bytes
  import opened Wire
  import C = Client
  import S = Stream
  import opened Rpc

  // A staged request is handed to the current connection's writers, behind all
  // earlier ones, exactly if the filters did not throw, the gate is open and
  // there is a connection; otherwise no stream sees it.
  lemma Dispatched(cfg: Config, s: System, k: nat)
    requires Shape(s) && k < |s.status| && s.status[k].Staged?
    ensures var t := Step(cfg, s, Dispatch(k));
            var env := Outgoing(cfg, s.requests, k);
            && t.client == s.client && t.requests == s.requests
            && if env.Some? && !s.client.gateClosed && s.client.conn.Some?
               then var i := s.client.conn.value;
                    && t.status == s.status[k := Queued(i)] && |t.links| == |s.links| && i < |s.links|
                    && t.links[i].up.queue == s.links[i].up.queue + [S.Entry(k, env.value)]
                    && t.links[i].up.bytes == s.links[i].up.bytes
                    && forall j :: 0 <= j < |s.links| && j != i ==> t.links[j] == s.links[j]
               else t.status == s.status[k := Abandoned] && t.links == s.links
  {
    hide C.SlotsOk, C.Values, Low64, Low16, Outgoing;
  }

  // The filters see the caller's envelope under the session of its send.
  lemma OutgoingIs(cfg: Config, requests: seq<Envelope>, k: nat)
    requires k < |requests| && cfg.clientOut == []
    ensures Outgoing(cfg, requests, k)
            == Some(requests[k].(header := requests[k].header.(session := (k + 1) % 0x1_0000)))
  {}

  // A timed out read leaves its reader behind for one more request, and every
  // outstanding request failed.
  lemma TimeoutLeavesReader(cfg: Config, s: System, i: nat)
    requires i < |s.links| && s.links[i].reader.Looping?
    ensures var t := Step(cfg, s, Timeout(i));
            && t.links == s.links[i := s.links[i].(reader := Detached)]
            && t.client == C.FailOutstanding(s.client) && t.client.slots == map[]
  {}

  // A reader that was left behind is over with its first delivery or its end,
  // and a looping one is not.
  lemma LeftoverReadsOnce(cfg: Config, s: System, i: nat, ev: S.Event)
    requires i < |s.links| && !s.links[i].reader.Finished? && IsRead(ev)
    ensures var before, after := s.links[i].down, S.Step(cfg.env.hash, s.links[i].down, ev);
            var t := Step(cfg, s, ClientRead(i, ev));
            && t.links[i].down == after
            && (t.links[i].reader.Finished? <==>
                s.links[i].reader.Detached? && (|after.received| > |before.received| || after.reading.Ended?))
  {
    hide S.Step, C.Deliver;
  }

  // reconnect() goes on only when every fiber has left the gate: no request in
  // the filters, no read loop and no writer.
  lemma ReopensWhenDrained(cfg: Config, s: System)
    requires s.client.gateClosed
    ensures var t := Step(cfg, s, Reopen);
            (!t.client.gateClosed && t.client.conn.None?) <==>
            && (forall k :: 0 <= k < |s.status| ==> s.status[k] != Staged)
            && (forall i :: 0 <= i < |s.links| ==> s.links[i].reader != Looping)
            && (forall i, w :: 0 <= i < |s.links| && 0 <= w < |s.links[i].up.stages| ==>
                  s.links[i].up.stages[w] == S.Released)
  {}

  // The read loop ends at its next check of an unusable connection, and not
  // before.
  lemma LoopEnds(cfg: Config, s: System, i: nat)
    requires i < |s.links| && s.links[i].reader.Looping?
    ensures Step(cfg, s, LoopExit(i)).links[i].reader.Finished? <==> !s.client.IsConnValid()
  {}

  // Every request that the server receives starts a job, and a job answers at
  // most once, with the session of its request.
  lemma JobPerRequest(cfg: Config, s: System, i: nat, ev: S.Event)
    requires i < |s.links| && (IsRead(ev) || IsWrite(ev))
    ensures var t := Step(cfg, s, UpStep(i, ev));
            && t.links[i].up == S.Step(cfg.env.hash, s.links[i].up, ev)
            && t.links[i].jobs == if |t.links[i].up.received| > |s.links[i].up.received|
                                  then s.links[i].jobs + [Running] else s.links[i].jobs
  {
    hide S.Step;
  }

  lemma AnswersOnce(cfg: Config, s: System, i: nat, j: nat, reply: Envelope, again: Envelope)
    requires i < |s.links|
    ensures var t := Step(cfg, s, JobAnswers(i, j, reply));
            t != s ==> Step(cfg, t, JobAnswers(i, j, again)) == t
  {
    hide S.Step, HandlerInput, Answer;
    var t := Step(cfg, s, JobAnswers(i, j, reply));
    assert t != s ==> j < |t.links[i].jobs| && !t.links[i].jobs[j].Running?;
    assert t.links == t.links[i := t.links[i]];
  }
}
