// What becomes of a request on the server: admission, dispatch, the end of its
// job, and the return of its units.

module ServerSteps {
  import opened Bytes
  import opened Server
  import R = ServerRuns

  // What a signal of `size` adds to the available units.
  function Returned(size: uint32): int { if size < 0x8000_0000 then size else size - 0x1_0000_0000 }

  // ---------- The payload ----------

  // A good payload under an open gate is dispatched: its units stay taken, and
  // the connection goes back to reading, unmarked.
  lemma GoodPayload(s: Server, id: nat, short: bool, throws: bool)
    requires R.Inv(s) && id in s.conns && s.conns[id].loop.AwaitBody? && !s.gateClosed
    ensures var a := s.conns[id].loop.a;
            var t := Step(s, BodyRead(id, true, short, throws));
            && a < |s.admissions| && t.available == s.available && t.waiters == s.waiters
            && t.admissions == s.admissions[a := s.admissions[a].(phase := Dispatched)]
            && t.admissions[a].id == id && t.admissions[a].Held()
            && t.conns == s.conns[id := s.conns[id].(loop := AtCheck)]
            && t.open == s.open && t.stats == s.stats
  {
    hide R.Inv;
    R.BodyAdmission(s, id);
    AdmissionOf(s, id);
  }

  lemma AdmissionOf(s: Server, id: nat)
    requires R.Inv(s) && id in s.conns && s.conns[id].loop.AwaitBody?
    ensures s.conns[id].loop.a < |s.admissions| && s.admissions[s.conns[id].loop.a] == Admission(id, s.admissions[s.conns[id].loop.a].size, Reading)
  {
    hide R.MemoryOk, R.ConnsOk, R.StatsOk, R.WaitersOk;
  }

  // A bad payload marks the connection and gives the units back at once.
  lemma BadPayload(s: Server, id: nat, short: bool, throws: bool)
    requires R.Inv(s) && id in s.conns && s.conns[id].loop.AwaitBody?
    ensures var a := s.conns[id].loop.a;
            var t := Step(s, BodyRead(id, false, short, throws));
            && a < |s.admissions| && t.available == s.available + Returned(s.admissions[a].size)
            && t.admissions == s.admissions[a := s.admissions[a].(phase := Signalled)] && t.waiters == s.waiters
            && t.conns[id] == s.conns[id].(error := true, eof := s.conns[id].eof || short, loop := AtCheck)
            && t.open == s.open && t.stats == s.stats
  {
    hide R.Inv;
    AdmissionOf(s, id);
  }

  // At a closed gate, and when the read throws or times out, the units are
  // never given back.
  lemma AbandonedPayload(s: Server, id: nat, e: Event)
    requires R.Inv(s) && id in s.conns && s.conns[id].loop.AwaitBody?
    requires e == BodyThrows(id) || (e.BodyRead? && e.id == id && e.ok && s.gateClosed)
    ensures var a := s.conns[id].loop.a;
            var t := Step(s, e);
            && a < |s.admissions| && t.available == s.available
            && t.admissions == s.admissions[a := s.admissions[a].(phase := Abandoned)]
            && t.conns[id].loop == if e.BodyThrows? || e.throws then Unwinding else AtCheck
  {
    hide R.Inv, Low64;
    AdmissionOf(s, id);
  }

  // ---------- The job ----------

  lemma StepJob(s: Server, e: Event, a: nat)
    requires R.Inv(s) && a < |s.admissions|
    ensures a < |Step(s, e).admissions|
    ensures s.admissions[a].phase.Dispatched? && e != JobCleanup(a) && e != JobThrows(a)
            ==> Step(s, e).admissions[a] == s.admissions[a]
    ensures (s.admissions[a].phase.Dispatched? || s.admissions[a].phase.Finishing?) && e != JobSignal(a)
            ==> var x := Step(s, e).admissions[a];
                x == s.admissions[a].(phase := x.phase) && (x.phase.Dispatched? || x.phase.Finishing?)
  {
    hide Low64, ToInt32, Unreferenced, Cleanup, R.MemoryOk, R.ConnsOk, R.StatsOk, R.WaitersOk;
  }

  // A dispatched job runs until it is cleaned up after or throws, whatever else
  // the server does.
  lemma {:induction false} RunsUntilItEnds(s: Server, evs: seq<Event>, a: nat)
    requires R.Inv(s) && a < |s.admissions| && s.admissions[a].phase.Dispatched?
    requires forall e :: e in evs ==> e != JobCleanup(a) && e != JobThrows(a)
    ensures a < |RunFrom(s, evs).admissions| && RunFrom(s, evs).admissions[a] == s.admissions[a]
    decreases evs
  {
    hide Step, R.Inv;
    if evs != [] {
      assert evs[0] in evs && forall e :: e in evs[1..] ==> e in evs;
      StepJob(s, evs[0], a);
      R.StepInv(s, evs[0]);
      RunsUntilItEnds(Step(s, evs[0]), evs[1..], a);
    }
  }

  // And its units are in use until its own signal.
  lemma {:induction false} HeldUntilSignal(s: Server, evs: seq<Event>, a: nat)
    requires R.Inv(s) && a < |s.admissions|
    requires s.admissions[a].phase.Dispatched? || s.admissions[a].phase.Finishing?
    requires forall e :: e in evs ==> e != JobSignal(a)
    ensures a < |RunFrom(s, evs).admissions|
    ensures var x := RunFrom(s, evs).admissions[a]; x.Held() && x.size == s.admissions[a].size
    decreases evs
  {
    hide Step, R.Inv;
    if evs != [] {
      assert evs[0] in evs && forall e :: e in evs[1..] ==> e in evs;
      StepJob(s, evs[0], a);
      R.StepInv(s, evs[0]);
      HeldUntilSignal(Step(s, evs[0]), evs[1..], a);
    }
  }

  // The end of the job, by success or exception, gives its units back, and only
  // success cleans up and counts.
  lemma JobEnds(s: Server, a: nat, threw: bool)
    requires R.Inv(s) && HasPhase(s, a, Dispatched)
    ensures var t := Step(Step(s, if threw then JobThrows(a) else JobCleanup(a)), JobSignal(a));
            && t.available == s.available + Returned(s.admissions[a].size)
            && t.admissions == s.admissions[a := s.admissions[a].(phase := Signalled)]
            && (threw ==> t.conns == s.conns && t.open == s.open && t.stats == s.stats)
            && (!threw && !s.conns[s.admissions[a].id].error ==>
                  t.conns == s.conns && t.open == s.open && t.stats.bad == s.stats.bad
                  && (t.stats.completed - s.stats.completed - 1) % 0x1_0000_0000_0000_0000 == 0)
            && (!threw && s.conns[s.admissions[a].id].error ==> s.admissions[a].id !in t.open)
  {
    hide R.Inv;
    var u := Step(s, if threw then JobThrows(a) else JobCleanup(a));
    assert u.admissions == s.admissions[a := s.admissions[a].(phase := Finishing)];
    assert HasPhase(u, a, Finishing);
  }

  // ---------- Admission ----------

  // A parsed header takes its units if nobody waits and enough are free, and
  // queues behind the others if not; an unreadable one marks the connection.
  lemma Header(s: Server, id: nat, size: Option<uint32>, short: bool)
    requires id in s.conns && s.conns[id].loop.AwaitHeader?
    ensures var t := Step(s, HeaderRead(id, size, short));
            match size
            case None => t.conns[id] == s.conns[id].(error := true, eof := s.conns[id].eof || short, loop := AtCheck)
                         && t.admissions == s.admissions
                         && t.waiters == s.waiters && t.available == s.available
            case Some(n) =>
              if s.waiters == [] && n <= s.available
              then && t.available == s.available - n && t.waiters == []
                   && t.admissions == s.admissions + [Admission(id, n, Reading)]
                   && t.conns[id] == s.conns[id].(loop := AwaitBody(|s.admissions|))
              else && t.available == s.available && t.waiters == s.waiters + [Waiter(id, n)]
                   && t.admissions == s.admissions && t.conns[id] == s.conns[id].(loop := AwaitUnits)
  {}

  // The first waiter is admitted exactly as soon as its units are free.
  lemma FirstWaiter(s: Server)
    requires R.Inv(s) && s.waiters != []
    ensures var w := s.waiters[0];
            var t := Step(s, Grant);
            if w.size <= s.available
            then && t.waiters == s.waiters[1..] && t.available == s.available - w.size
                 && t.admissions == s.admissions + [Admission(w.id, w.size, Reading)]
                 && w.id in s.conns && t.conns == s.conns[w.id := s.conns[w.id].(loop := AwaitBody(|s.admissions|))]
            else t == s
  {
    hide R.MemoryOk, R.ConnsOk, R.StatsOk, R.BodiesOk;
  }

  // The read loop goes on exactly while the connection is enabled, without
  // error and not at the end of its input.
  lemma LoopGoesOn(s: Server, id: nat)
    requires id in s.conns && s.conns[id].loop.AtCheck?
    ensures var c := s.conns[id];
            var t := Step(s, LoopCheck(id));
            if c.enabled && !c.error && !c.eof
            then t == s.(conns := s.conns[id := c.(loop := AwaitHeader)])
            else t.conns[id].loop.Done? && (c.error ==> id !in t.open)
  {}

  // An exception in the read loop closes the connection.
  lemma ThrowCloses(s: Server, id: nat, e: Event)
    requires R.Inv(s) && id in s.conns && (e == HeaderThrows(id) || e == BodyThrows(id))
    requires if e.HeaderThrows? then s.conns[id].loop.AwaitHeader? else s.conns[id].loop.AwaitBody?
    ensures var t := Step(Step(s, e), Unwind(id));
            t.conns[id].loop.Done? && t.conns[id].error && id !in t.open
  {
    hide R.Inv, Low64;
    if e.BodyThrows? { AdmissionOf(s, id); }
    var u := Step(s, e);
    assert id in u.conns && u.conns[id].loop.Unwinding?;
  }

  // ---------- Connections ----------

  // A new connection is usable, about to read, and under an id of its own; none
  // is accepted once the server stops.
  lemma Accepted(s: Server)
    requires R.Inv(s)
    ensures var t := Step(s, Accept);
            if s.gateClosed then t == s
            else && t.connectionIdx == s.connectionIdx + 1 && t.connectionIdx !in s.conns
                 && t.conns == s.conns[t.connectionIdx := Conn(true, false, false, AtCheck, false)]
                 && t.open == s.open + {t.connectionIdx}
                 && t.available == s.available && t.waiters == s.waiters && t.admissions == s.admissions
    ensures Step(s, Stop).gateClosed && Step(s, Stop) == s.(gateClosed := true)
  {
    R.FreshId(s);
    hide R.Inv;
  }

  // A job that finds no id, no route or no decompressor marks its connection,
  // which the clean-up then closes.
  lemma JobErrorCloses(s: Server, a: nat, noRoute: bool)
    requires HasPhase(s, a, Dispatched)
    ensures var id := s.admissions[a].id;
            var t := Step(s, JobError(a, noRoute));
            && t.conns == s.conns[id := s.conns[id].(error := true)] && t.admissions == s.admissions
            && HasPhase(t, a, Dispatched) && id !in Step(t, JobCleanup(a)).open
            && (noRoute <==> t.stats != s.stats)
  {}

  // A connection object goes away exactly when nothing refers to it: it has
  // left the map, its loop is over, and no request of it is under way.
  lemma DestroyedExactly(s: Server, id: nat)
    requires id in s.conns && !s.conns[id].destroyed
    ensures var t := Step(s, Destroy(id));
            t.conns[id].destroyed <==>
            && id !in s.open && s.conns[id].loop == Done
            && forall a :: 0 <= a < |s.admissions| && s.admissions[a].id == id ==>
                 s.admissions[a].phase == Signalled || s.admissions[a].phase == Abandoned
  {}

  // ---------- The whole way ----------

  // From every state with an idle usable connection and enough free units, a
  // good request passes through all its stages and leaves everything as it was
  // but for its own record and one more completed request.
  lemma ServedInFull(s: Server, id: nat, n: uint32)
    requires R.Inv(s) && id in s.conns && s.conns[id].loop.AtCheck? && !s.gateClosed
    requires s.conns[id].enabled && !s.conns[id].error && !s.conns[id].eof
    requires s.waiters == [] && n <= s.available && n < 0x8000_0000
    ensures var a := |s.admissions|;
            var t := RunFrom(s, [LoopCheck(id), HeaderRead(id, Some(n), false), BodyRead(id, true, false, false),
                                 JobCleanup(a), JobSignal(a)]);
            && t.available == s.available && t.waiters == s.waiters
            && t.admissions == s.admissions + [Admission(id, n, Signalled)]
            && t.conns == s.conns && t.open == s.open
            && t.stats == s.stats.(completed := t.stats.completed)
            && (t.stats.completed - s.stats.completed - 1) % 0x1_0000_0000_0000_0000 == 0
  {
    hide Step, R.Inv;
    var a := |s.admissions|;
    var e0, e1, e2, e3, e4 := LoopCheck(id), HeaderRead(id, Some(n), false), BodyRead(id, true, false, false),
        JobCleanup(a), JobSignal(a);
    ReadInFull(s, id, n);
    var s3 := Step(Step(Step(s, e0), e1), e2);
    assert s3.admissions[a] == Admission(id, n, Dispatched);
    AnsweredInFull(s3, a);
    FiveSteps(s, e0, e1, e2, e3, e4);
    var t := Step(Step(s3, e3), e4);
    assert t.admissions == s.admissions + [Admission(id, n, Signalled)];
  }

  lemma ReadInFull(s: Server, id: nat, n: uint32)
    requires id in s.conns && s.conns[id].loop.AtCheck? && !s.gateClosed
    requires s.conns[id].enabled && !s.conns[id].error && !s.conns[id].eof
    requires s.waiters == [] && n <= s.available
    ensures Step(Step(Step(s, LoopCheck(id)), HeaderRead(id, Some(n), false)), BodyRead(id, true, false, false))
            == s.(available := s.available - n, admissions := s.admissions + [Admission(id, n, Dispatched)])
  {
    var s1 := Step(s, LoopCheck(id));
    assert s1 == s.(conns := s.conns[id := s.conns[id].(loop := AwaitHeader)]);
    var s2 := Step(s1, HeaderRead(id, Some(n), false));
    assert s2.admissions == s.admissions + [Admission(id, n, Reading)];
    var s3 := Step(s2, BodyRead(id, true, false, false));
    assert s3.conns == s.conns;
    assert s3.admissions == s.admissions + [Admission(id, n, Dispatched)];
  }

  lemma AnsweredInFull(s: Server, a: nat)
    requires HasPhase(s, a, Dispatched) && !s.conns[s.admissions[a].id].error && s.admissions[a].size < 0x8000_0000
    ensures var t := Step(Step(s, JobCleanup(a)), JobSignal(a));
            && t == s.(available := s.available + s.admissions[a].size,
                       admissions := s.admissions[a := s.admissions[a].(phase := Signalled)], stats := t.stats)
            && t.stats == s.stats.(completed := t.stats.completed)
            && (t.stats.completed - s.stats.completed - 1) % 0x1_0000_0000_0000_0000 == 0
  {
    var u := Step(s, JobCleanup(a));
    assert u.admissions == s.admissions[a := s.admissions[a].(phase := Finishing)];
  }

  lemma FiveSteps(s: Server, e0: Event, e1: Event, e2: Event, e3: Event, e4: Event)
    ensures RunFrom(s, [e0, e1, e2, e3, e4]) == Step(Step(Step(Step(Step(s, e0), e1), e2), e3), e4)
  {
    hide Step;
    var s1 := Step(s, e0);
    var s2 := Step(s1, e1);
    var s3 := Step(s2, e2);
    var s4 := Step(s3, e3);
    assert RunFrom(s4, [e4]) == RunFrom(Step(s4, e4), []);
    assert [e3, e4][1..] == [e4] && RunFrom(s3, [e3, e4]) == RunFrom(s4, [e4]);
    assert [e2, e3, e4][1..] == [e3, e4] && RunFrom(s2, [e2, e3, e4]) == RunFrom(s3, [e3, e4]);
    assert [e1, e2, e3, e4][1..] == [e2, e3, e4] && RunFrom(s1, [e1, e2, e3, e4]) == RunFrom(s2, [e2, e3, e4]);
    assert [e0, e1, e2, e3, e4][1..] == [e1, e2, e3, e4];
  }
}
