// What holds over every run of the server: conservation of memory units and
// the accounting of connections.

module ServerRuns {
  import opened Bytes
  import opened Server

  // ---------- Sums over admissions ----------

  type Measure = Admission -> int

  function Sum(w: Measure, xs: seq<Admission>): int {
    if xs == [] then 0 else Sum(w, xs[..|xs| - 1]) + w(xs[|xs| - 1])
  }

  lemma {:induction false} SumUpdate(w: Measure, xs: seq<Admission>, a: nat, x: Admission)
    requires a < |xs|
    ensures Sum(w, xs[a := x]) == Sum(w, xs) - w(xs[a]) + w(x)
  {
    var n := |xs| - 1;
    if a < n {
      assert xs[a := x][..n] == xs[..n][a := x];
      SumUpdate(w, xs[..n], a, x);
    } else {
      assert xs[a := x][..n] == xs[..n];
    }
  }

  lemma SumAppend(w: Measure, xs: seq<Admission>, x: Admission)
    ensures Sum(w, xs + [x]) == Sum(w, xs) + w(x)
  {
    assert (xs + [x])[..|xs|] == xs;
  }

  lemma {:induction false} SumNonNegative(w: Measure, xs: seq<Admission>)
    requires forall x :: w(x) >= 0
    ensures Sum(w, xs) >= 0
  {
    if xs != [] { SumNonNegative(w, xs[..|xs| - 1]); }
  }

  // Units in use by a request, units taken by a request that never gives them
  // back, and units lost when a size of 2^31 or more is signalled as negative.
  const HELD: Measure := (x: Admission) => if x.Held() then x.size else 0
  const ABANDONED: Measure := (x: Admission) => if x.phase.Abandoned? then x.size else 0
  const LEAKED: Measure := (x: Admission) => if x.phase.Signalled? then x.size - ToInt32(x.size) else 0
  const TAKEN: Measure := (x: Admission) => HELD(x) + ABANDONED(x) + LEAKED(x)

  lemma {:induction false} SumTaken(xs: seq<Admission>)
    ensures Sum(TAKEN, xs) == Sum(HELD, xs) + Sum(ABANDONED, xs) + Sum(LEAKED, xs)
    ensures Sum(HELD, xs) >= 0 && Sum(ABANDONED, xs) >= 0 && Sum(LEAKED, xs) >= 0
  {
    if xs != [] { SumTaken(xs[..|xs| - 1]); }
  }

  // ---------- Memory ----------

  // Conservation, for all sizes, and the bound on what is in use.
  ghost predicate MemoryOk(s: Server) {
    && s.available + Sum(TAKEN, s.admissions) == s.maxMemory
    && Sum(HELD, s.admissions) <= s.maxMemory
  }

  // The loop that reads a body and the admission it reads for point at each
  // other, so that the body's outcome settles that admission and no other.
  ghost predicate BodiesOk(conns: map<nat, Conn>, xs: seq<Admission>) {
    && (forall id :: id in conns && conns[id].loop.AwaitBody? ==>
          var a := conns[id].loop.a;
          a < |xs| && xs[a].phase.Reading? && xs[a].id == id)
    && (forall a :: 0 <= a < |xs| ==>
          && xs[a].id in conns
          && (xs[a].phase.Reading? ==> conns[xs[a].id].loop == AwaitBody(a)))
  }

  // The loops that wait for units are those of the semaphore's waiters.
  ghost predicate WaitersOk(conns: map<nat, Conn>, ws: seq<Waiter>) {
    && (forall w :: 0 <= w < |ws| ==> ws[w].id in conns && conns[ws[w].id].loop.AwaitUnits?)
    && (forall v, w :: 0 <= v < w < |ws| ==> ws[v].id != ws[w].id)
  }

  ghost predicate LoopsOk(s: Server) {
    BodiesOk(s.conns, s.admissions) && WaitersOk(s.conns, s.waiters)
  }

  lemma PhaseMemory(s: Server, a: nat, p: Phase)
    requires MemoryOk(s) && a < |s.admissions| && s.admissions[a].Held() && !p.Signalled?
    ensures MemoryOk(SetPhase(s, a, p))
  {
    var x := s.admissions[a].(phase := p);
    SumUpdate(TAKEN, s.admissions, a, x);
    SumUpdate(HELD, s.admissions, a, x);
  }

  lemma SignalMemory(s: Server, a: nat)
    requires MemoryOk(s) && a < |s.admissions| && s.admissions[a].Held()
    ensures MemoryOk(Signal(s, a))
  {
    var x := s.admissions[a].(phase := Signalled);
    SumUpdate(TAKEN, s.admissions, a, x);
    SumUpdate(HELD, s.admissions, a, x);
  }

  lemma AdmitMemory(s: Server, id: nat, size: uint32)
    requires MemoryOk(s) && id in s.conns && s.available >= size
    ensures MemoryOk(Admit(s, id, size))
  {
    var x := Admission(id, size, Reading);
    SumAppend(TAKEN, s.admissions, x);
    SumAppend(HELD, s.admissions, x);
    SumTaken(s.admissions);
  }

  // MemoryOk depends on these three fields only.
  predicate SameMemory(s: Server, s': Server) {
    s'.maxMemory == s.maxMemory && s'.available == s.available && s'.admissions == s.admissions
  }

  lemma BodyMemory(s: Server, e: Event)
    requires MemoryOk(s) && LoopsOk(s)
    requires e.BodyRead? || e.BodyThrows?
    ensures MemoryOk(Step(s, e)) && Step(s, e).maxMemory == s.maxMemory
  {
    hide Sum, HELD, TAKEN, Low64, ToInt32;
    if e.id in s.conns && s.conns[e.id].loop.AwaitBody? {
      var a := s.conns[e.id].loop.a;
      SignalMemory(s, a);
      PhaseMemory(s, a, Abandoned);
      PhaseMemory(s, a, Dispatched);
    }
  }

  lemma UnitsMemory(s: Server, e: Event)
    requires MemoryOk(s) && (e.HeaderRead? || e.Grant?)
    ensures MemoryOk(Step(s, e)) && Step(s, e).maxMemory == s.maxMemory
  {
    hide Sum, HELD, TAKEN;
    if e.HeaderRead? {
      if e.id in s.conns && e.size.Some? && s.available >= e.size.value { AdmitMemory(s, e.id, e.size.value); }
    } else if s.waiters != [] && s.available >= s.waiters[0].size && s.waiters[0].id in s.conns {
      AdmitMemory(s, s.waiters[0].id, s.waiters[0].size);
    }
  }

  lemma JobMemory(s: Server, e: Event)
    requires MemoryOk(s) && (e.JobCleanup? || e.JobThrows? || e.JobSignal?)
    ensures MemoryOk(Step(s, e)) && Step(s, e).maxMemory == s.maxMemory
  {
    hide Sum, HELD, TAKEN, Low64, ToInt32;
    if HasPhase(s, e.a, Dispatched) { PhaseMemory(s, e.a, Finishing); }
    if HasPhase(s, e.a, Finishing) { SignalMemory(s, e.a); }
  }

  lemma StepMemory(s: Server, e: Event)
    requires MemoryOk(s) && LoopsOk(s)
    ensures MemoryOk(Step(s, e)) && Step(s, e).maxMemory == s.maxMemory
  {
    hide MemoryOk, LoopsOk, Low64, Unreferenced;
    match e
    case HeaderRead(_, _, _) => UnitsMemory(s, e);
    case Grant => UnitsMemory(s, e);
    case BodyRead(_, _, _, _) => BodyMemory(s, e);
    case BodyThrows(_) => BodyMemory(s, e);
    case JobCleanup(_) => JobMemory(s, e);
    case JobThrows(_) => JobMemory(s, e);
    case JobSignal(_) => JobMemory(s, e);
    case _ => StillMemory(s, Step(s, e));
  }

  lemma StillMemory(s: Server, s': Server)
    requires MemoryOk(s) && SameMemory(s, s')
    ensures MemoryOk(s')
  {}

  // ---------- Loops and admissions ----------

  // A connection changes without entering or leaving a wait for body or units.
  predicate SameWait(l: Loop, l': Loop) {
    l == l' || (!l.AwaitBody? && !l.AwaitUnits? && !l'.AwaitBody? && !l'.AwaitUnits?)
  }

  lemma SetConnLoops(s: Server, id: nat, c: Conn)
    requires LoopsOk(s) && (id in s.conns ==> SameWait(s.conns[id].loop, c.loop))
    requires id !in s.conns ==> c.loop.AtCheck?
    ensures LoopsOk(SetConn(s, id, c))
  {}

  lemma CleanupLoops(s: Server, id: nat, l: Loop)
    requires LoopsOk(s) && id in s.conns && SameWait(s.conns[id].loop, l)
    ensures LoopsOk(GoTo(Cleanup(s, id), id, l))
  {
    hide Low64, BodiesOk, WaitersOk;
    SetConnLoops(s, id, s.conns[id].(enabled := false));
    SetConnLoops(Cleanup(s, id), id, Cleanup(s, id).conns[id].(loop := l));
  }

  // A loop that waits for a body moves on, and its admission with it.
  lemma SettleLoops(s: Server, id: nat, c: Conn, p: Phase)
    requires LoopsOk(s) && id in s.conns && s.conns[id].loop.AwaitBody? && !p.Reading?
    requires !c.loop.AwaitBody? && !c.loop.AwaitUnits?
    ensures s.conns[id].loop.a < |s.admissions|
    ensures LoopsOk(SetConn(SetPhase(s, s.conns[id].loop.a, p), id, c))
  {}

  lemma PhaseLoops(s: Server, a: nat, p: Phase)
    requires LoopsOk(s) && a < |s.admissions| && !s.admissions[a].phase.Reading? && !p.Reading?
    ensures LoopsOk(SetPhase(s, a, p))
  {}

  lemma AdmitLoops(s: Server, id: nat, size: uint32)
    requires LoopsOk(s) && id in s.conns && !s.conns[id].loop.AwaitBody? && !s.conns[id].loop.AwaitUnits?
    ensures LoopsOk(Admit(s, id, size))
  {}

  lemma QueueLoops(s: Server, id: nat, size: uint32)
    requires LoopsOk(s) && id in s.conns && !s.conns[id].loop.AwaitBody? && !s.conns[id].loop.AwaitUnits?
    ensures LoopsOk(GoTo(s, id, AwaitUnits).(waiters := s.waiters + [Waiter(id, size)]))
  {}

  lemma GrantLoops(s: Server)
    requires LoopsOk(s)
    ensures LoopsOk(GrantStep(s))
  {
    if s.waiters != [] && s.available >= s.waiters[0].size {
      var id := s.waiters[0].id;
      // As if the head waiter had first returned to the header.
      var s1 := GoTo(s, id, AwaitHeader).(waiters := s.waiters[1..]);
      assert LoopsOk(s1);
      AdmitLoops(s1, id, s.waiters[0].size);
      assert s1.conns[id := s1.conns[id].(loop := AwaitBody(|s.admissions|))]
          == s.conns[id := s.conns[id].(loop := AwaitBody(|s.admissions|))];
    }
  }

  lemma LoopsOfLoop(s: Server, e: Event)
    requires LoopsOk(s)
    requires e.LoopCheck? || e.HeaderThrows? || e.Unwind? || e.Destroy?
    ensures LoopsOk(Step(s, e))
  {
    hide Low64, BodiesOk, WaitersOk, Cleanup;
    if e.id in s.conns {
      var c := s.conns[e.id];
      match e
      case LoopCheck(id) =>
        if c.loop.AtCheck? {
          SetConnLoops(s, id, c.(loop := AwaitHeader));
          CleanupLoops(s, id, Done);
        }
      case HeaderThrows(id) => if c.loop.AwaitHeader? { CleanupLoops(s, id, Unwinding); }
      case Unwind(id) =>
        SetConnLoops(s, id, c.(error := true));
        if c.loop.Unwinding? { CleanupLoops(SetError(s, id), id, Done); }
      case Destroy(id) => SetConnLoops(s, id, c.(destroyed := true));
    }
  }

  lemma LoopsOfHeader(s: Server, id: nat, size: Option<uint32>, short: bool)
    requires LoopsOk(s)
    ensures LoopsOk(HeaderReadStep(s, id, size, short))
  {
    hide BodiesOk, WaitersOk;
    if id in s.conns && s.conns[id].loop.AwaitHeader? {
      match size
      case None =>
        SetConnLoops(s, id, s.conns[id].(error := true, eof := s.conns[id].eof || short, loop := AtCheck));
      case Some(n) =>
        AdmitLoops(s, id, n);
        QueueLoops(s, id, n);
    }
  }

  lemma LoopsOfBody(s: Server, e: Event)
    requires LoopsOk(s)
    requires e.BodyRead? || e.BodyThrows?
    ensures LoopsOk(Step(s, e))
  {
    hide Low64, ToInt32, BodiesOk, WaitersOk;
    if e.id in s.conns && s.conns[e.id].loop.AwaitBody? && s.conns[e.id].loop.a < |s.admissions| {
      var id, c := e.id, s.conns[e.id];
      SettleLoops(s, id, c.(loop := AtCheck), Abandoned);
      SettleLoops(s, id, c.(loop := AtCheck), Dispatched);
      ThrowOutLoops(s, id);
      if e.BodyRead? {
        SettleLoops(s, id, c.(error := true, eof := c.eof || e.short, loop := AtCheck), Signalled);
      }
    }
  }

  lemma ThrowOutLoops(s: Server, id: nat)
    requires LoopsOk(s) && id in s.conns && s.conns[id].loop.AwaitBody? && s.conns[id].loop.a < |s.admissions|
    ensures LoopsOk(ThrowOut(SetPhase(s, s.conns[id].loop.a, Abandoned), id))
  {
    hide Low64, BodiesOk, WaitersOk;
    var s1 := SetPhase(s, s.conns[id].loop.a, Abandoned);
    var s2 := ThrowOut(s1, id);
    SettleLoops(s, id, s2.conns[id], Abandoned);
    assert s2.conns == s.conns[id := s2.conns[id]];
  }

  lemma LoopsOfJob(s: Server, e: Event)
    requires LoopsOk(s)
    requires e.JobError? || e.JobCleanup? || e.JobThrows? || e.JobSignal?
    ensures LoopsOk(Step(s, e))
  {
    hide Low64, ToInt32, BodiesOk, WaitersOk;
    if HasPhase(s, e.a, Dispatched) {
      var id := s.admissions[e.a].id;
      SetConnLoops(s, id, s.conns[id].(error := true));
      PhaseLoops(s, e.a, Finishing);
      SetConnLoops(s, id, s.conns[id].(enabled := false));
      PhaseLoops(Cleanup(s, id), e.a, Finishing);
    } else if HasPhase(s, e.a, Finishing) {
      PhaseLoops(s, e.a, Signalled);
    }
  }

  lemma StepLoops(s: Server, e: Event)
    requires LoopsOk(s) && s.connectionIdx + 1 !in s.conns
    ensures LoopsOk(Step(s, e))
  {
    hide BodiesOk, WaitersOk, Low64;
    match e
    case Accept =>
      SetConnLoops(s, s.connectionIdx + 1, Conn(true, false, false, AtCheck, false));
    case HeaderRead(id, size, short) => LoopsOfHeader(s, id, size, short);
    case Grant => GrantLoops(s);
    case BodyRead(_, _, _, _) => LoopsOfBody(s, e);
    case BodyThrows(_) => LoopsOfBody(s, e);
    case JobError(_, _) => LoopsOfJob(s, e);
    case JobCleanup(_) => LoopsOfJob(s, e);
    case JobThrows(_) => LoopsOfJob(s, e);
    case JobSignal(_) => LoopsOfJob(s, e);
    case Stop =>
    case _ => LoopsOfLoop(s, e);
  }

  // ---------- Connections ----------

  function Destroyed(s: Server): set<nat> { set id | id in s.conns && s.conns[id].destroyed }

  // One connection's part: it is open, and enabled, exactly until its error
  // has been cleaned up, and its read loop never ends before that.
  predicate ConnOk(c: Conn, isOpen: bool) {
    && (c.eof ==> c.error)
    && (c.enabled <==> isOpen)
    && (!c.enabled ==> c.error)
    && (c.loop.Done? ==> !isOpen)
  }

  ghost predicate ConnsOk(s: Server) {
    && (forall id :: id in s.conns <==> 1 <= id <= s.connectionIdx)
    && |s.conns| == s.connectionIdx
    && s.open <= s.conns.Keys
    && (forall id :: id in s.conns ==> ConnOk(s.conns[id], id in s.open))
  }

  // total, bad and active as the statistics should be.
  ghost predicate StatsOk(s: Server) {
    && s.stats.total == Low64(s.connectionIdx)
    && s.stats.bad == Low64(s.connectionIdx - |s.open|)
    && s.stats.active == Low64(|s.open| - |Destroyed(s)|)
  }

  // What a step may do to the connections: change one of them, and close it.
  lemma OneConn(s: Server, s': Server, id: nat)
    requires ConnsOk(s) && StatsOk(s) && id in s.conns
    requires s'.connectionIdx == s.connectionIdx
    requires id in s'.conns && s'.conns == s.conns[id := s'.conns[id]]
    requires s'.conns[id].destroyed == s.conns[id].destroyed
    requires ConnOk(s'.conns[id], id in s'.open)
    requires || (s'.open == s.open && s'.stats == s.stats.(completed := s'.stats.completed, noRoute := s'.stats.noRoute))
             || (&& id in s.open && s'.open == s.open - {id}
                 && s'.stats == s.stats.(bad := Low64(s.stats.bad + 1), active := Low64(s.stats.active - 1),
                                         completed := s'.stats.completed, noRoute := s'.stats.noRoute))
    ensures ConnsOk(s') && StatsOk(s')
  {
    Low64Step(s.connectionIdx - |s.open|);
    Low64Step(|s.open| - |Destroyed(s)|);
    hide Low64, ConnOk;
    assert s'.conns.Keys == s.conns.Keys;
    assert Destroyed(s') == Destroyed(s);
  }

  lemma CleanupConn(s: Server, id: nat, l: Loop)
    requires ConnsOk(s) && StatsOk(s) && id in s.conns && (l.Done? ==> !s.conns[id].IsValid())
    ensures ConnsOk(GoTo(Cleanup(s, id), id, l)) && StatsOk(GoTo(Cleanup(s, id), id, l))
  {
    hide Low64, StatsOk, ConnsOk;
    assert ConnOk(s.conns[id], id in s.open) by { ConnOf(s, id); }
    OneConn(s, GoTo(Cleanup(s, id), id, l), id);
  }

  lemma ConnOf(s: Server, id: nat)
    requires ConnsOk(s) && id in s.conns
    ensures ConnOk(s.conns[id], id in s.open)
  {}

  lemma AcceptConns(s: Server)
    requires ConnsOk(s) && StatsOk(s)
    ensures ConnsOk(AcceptStep(s)) && StatsOk(AcceptStep(s))
  {
    Low64Step(s.connectionIdx);
    Low64Step(|s.open| - |Destroyed(s)|);
    hide Low64, ConnOk;
    var s' := AcceptStep(s);
    assert ConnOk(Conn(true, false, false, AtCheck, false), true) by { FreshConn(); }
    assert Destroyed(s') == Destroyed(s);
    assert s'.conns.Keys == s.conns.Keys + {s.connectionIdx + 1};
  }

  lemma FreshConn()
    ensures ConnOk(Conn(true, false, false, AtCheck, false), true)
  {}

  lemma DestroyConns(s: Server, id: nat)
    requires ConnsOk(s) && StatsOk(s)
    ensures ConnsOk(Step(s, Destroy(id))) && StatsOk(Step(s, Destroy(id)))
  {
    Low64Step(|s.open| - |Destroyed(s)|);
    hide Low64;
    if Unreferenced(s, id) {
      var s' := Step(s, Destroy(id));
      assert s'.conns.Keys == s.conns.Keys;
      assert Destroyed(s') == Destroyed(s) + {id};
    }
  }

  // A step that only moves a connection or marks it as failed.
  lemma MarkConn(s: Server, s': Server, id: nat, c: Conn)
    requires ConnsOk(s) && StatsOk(s) && id in s.conns && !c.loop.Done?
    requires c.enabled == s.conns[id].enabled && c.destroyed == s.conns[id].destroyed
    requires (c.eof ==> c.error) && (s.conns[id].error ==> c.error)
    requires s'.connectionIdx == s.connectionIdx && s'.open == s.open && s'.conns == s.conns[id := c]
    requires s'.stats == s.stats.(noRoute := s'.stats.noRoute)
    ensures ConnsOk(s') && StatsOk(s')
  {
    ConnOf(s, id);
    hide Low64, StatsOk, ConnsOk;
    OneConn(s, s', id);
  }

  // ConnsOk and StatsOk depend on these fields only.
  lemma StillConns(s: Server, s': Server)
    requires ConnsOk(s) && StatsOk(s)
    requires s'.connectionIdx == s.connectionIdx && s'.open == s.open && s'.conns == s.conns && s'.stats == s.stats
    ensures ConnsOk(s') && StatsOk(s')
  {
    hide Low64, ConnOk;
    assert Destroyed(s') == Destroyed(s);
  }

  lemma ConnsOfLoop(s: Server, e: Event)
    requires ConnsOk(s) && StatsOk(s)
    requires e.LoopCheck? || e.HeaderThrows? || e.Unwind?
    ensures ConnsOk(Step(s, e)) && StatsOk(Step(s, e))
  {
    hide Low64, StatsOk, ConnsOk, Cleanup;
    if e.id in s.conns {
      var id, c := e.id, s.conns[e.id];
      ConnOf(s, id);
      match e
      case LoopCheck(_) =>
        if c.loop.AtCheck? {
          MarkConn(s, GoTo(s, id, AwaitHeader), id, c.(loop := AwaitHeader));
          if !c.IsValid() { CleanupConn(s, id, Done); }
        }
      case HeaderThrows(_) => CleanupConn(s, id, Unwinding);
      case Unwind(_) =>
        if c.loop.Unwinding? {
          MarkConn(s, SetError(s, id), id, c.(error := true));
          CleanupConn(SetError(s, id), id, Done);
        }
    }
  }

  lemma ConnsOfUnits(s: Server, e: Event)
    requires ConnsOk(s) && StatsOk(s)
    requires e.HeaderRead? || e.Grant?
    ensures ConnsOk(Step(s, e)) && StatsOk(Step(s, e))
  {
    hide Low64, StatsOk, ConnsOk;
    var s' := Step(s, e);
    if e.HeaderRead? {
      if e.id in s.conns && s.conns[e.id].loop.AwaitHeader? {
        ConnOf(s, e.id);
        MarkConn(s, s', e.id, s'.conns[e.id]);
      }
    } else if s.waiters != [] && s.available >= s.waiters[0].size && s.waiters[0].id in s.conns {
      ConnOf(s, s.waiters[0].id);
      MarkConn(s, s', s.waiters[0].id, s'.conns[s.waiters[0].id]);
    }
  }

  lemma ConnsOfBody(s: Server, e: Event)
    requires ConnsOk(s) && StatsOk(s)
    requires e.BodyRead? || e.BodyThrows?
    ensures ConnsOk(Step(s, e)) && StatsOk(Step(s, e))
  {
    hide Low64, StatsOk, ConnsOk, ToInt32, Cleanup;
    if e.id in s.conns && s.conns[e.id].loop.AwaitBody? && s.conns[e.id].loop.a < |s.admissions| {
      var id, c := e.id, s.conns[e.id];
      ConnOf(s, id);
      var s1 := SetPhase(s, c.loop.a, Abandoned);
      StillConns(s, s1);
      CleanupConn(s1, id, Unwinding);
      if e.BodyRead? && !(e.ok && s.gateClosed && e.throws) {
        MarkConn(s, Step(s, e), id, Step(s, e).conns[id]);
      }
    }
  }

  lemma ConnsOfJob(s: Server, e: Event)
    requires ConnsOk(s) && StatsOk(s)
    requires e.JobError? || e.JobCleanup? || e.JobThrows? || e.JobSignal?
    ensures ConnsOk(Step(s, e)) && StatsOk(Step(s, e))
  {
    hide Low64, StatsOk, ConnsOk, ToInt32;
    if HasPhase(s, e.a, Dispatched) {
      var id := s.admissions[e.a].id;
      ConnOf(s, id);
      var c := s.conns[id];
      match e
      case JobError(_, _) => OneConn(s, Step(s, e), id);
      case JobCleanup(_) =>
        var s1 := Cleanup(s, id);
        OneConn(s, s1, id);
        StillConns(s1, Step(s, e));
      case _ => StillConns(s, Step(s, e));
    } else {
      StillConns(s, Step(s, e));
    }
  }

  lemma StepConns(s: Server, e: Event)
    requires ConnsOk(s) && StatsOk(s)
    ensures ConnsOk(Step(s, e)) && StatsOk(Step(s, e))
  {
    hide ConnsOk, StatsOk, Low64;
    match e
    case Accept => AcceptConns(s);
    case HeaderRead(_, _, _) => ConnsOfUnits(s, e);
    case Grant => ConnsOfUnits(s, e);
    case BodyRead(_, _, _, _) => ConnsOfBody(s, e);
    case BodyThrows(_) => ConnsOfBody(s, e);
    case JobError(_, _) => ConnsOfJob(s, e);
    case JobCleanup(_) => ConnsOfJob(s, e);
    case JobThrows(_) => ConnsOfJob(s, e);
    case JobSignal(_) => ConnsOfJob(s, e);
    case Destroy(id) => DestroyConns(s, id);
    case Stop => StillConns(s, Step(s, e));
    case _ => ConnsOfLoop(s, e);
  }

  // ---------- Every run ----------

  ghost predicate Inv(s: Server) { MemoryOk(s) && LoopsOk(s) && ConnsOk(s) && StatsOk(s) }

  lemma StepInv(s: Server, e: Event)
    requires Inv(s)
    ensures Inv(Step(s, e)) && Step(s, e).maxMemory == s.maxMemory
  {
    FreshId(s);
    hide MemoryOk, LoopsOk, ConnsOk, StatsOk, Step;
    StepMemory(s, e);
    StepLoops(s, e);
    StepConns(s, e);
  }

  lemma FreshId(s: Server)
    requires Inv(s)
    ensures s.connectionIdx + 1 !in s.conns
  {}

  lemma BodyAdmission(s: Server, id: nat)
    requires Inv(s) && id in s.conns && s.conns[id].loop.AwaitBody?
    ensures s.conns[id].loop.a < |s.admissions|
  {}

  lemma {:induction false} RunInv(s: Server, evs: seq<Event>)
    requires Inv(s)
    ensures Inv(RunFrom(s, evs)) && RunFrom(s, evs).maxMemory == s.maxMemory
    decreases evs
  {
    hide Inv, Step;
    if evs != [] {
      StepInv(s, evs[0]);
      RunInv(Step(s, evs[0]), evs[1..]);
    }
  }

  lemma InitInv(maxMemory: nat)
    ensures Inv(Init(maxMemory))
  {
    assert Destroyed(Init(maxMemory)) == {};
  }

  function Run(maxMemory: nat, evs: seq<Event>): Server { RunFrom(Init(maxMemory), evs) }

  // ---------- Memory over every run ----------

  // Available units, units in use, units abandoned (by a body that failed or
  // timed out, or at a closed gate) and units leaked add up to max_memory, for
  // all sizes; what is in use never exceeds max_memory; and the leak is absent
  // exactly when no size of 2^31 or more has been signalled.
  lemma MemoryConserved(maxMemory: nat, evs: seq<Event>)
    ensures var s := Run(maxMemory, evs);
            var xs := s.admissions;
            && s.available + Sum(HELD, xs) + Sum(ABANDONED, xs) + Sum(LEAKED, xs) == maxMemory
            && 0 <= Sum(HELD, xs) <= maxMemory
            && (s.available + Sum(HELD, xs) + Sum(ABANDONED, xs) == maxMemory
                <==> forall a :: 0 <= a < |xs| && xs[a].phase.Signalled? ==> xs[a].size < 0x8000_0000)
  {
    InitInv(maxMemory);
    RunInv(Init(maxMemory), evs);
    var s := Run(maxMemory, evs);
    SumTaken(s.admissions);
    LeakFree(s.admissions);
  }

  lemma {:induction false} LeakFree(xs: seq<Admission>)
    ensures Sum(LEAKED, xs) >= 0
    ensures Sum(LEAKED, xs) == 0
            <==> forall a :: 0 <= a < |xs| && xs[a].phase.Signalled? ==> xs[a].size < 0x8000_0000
  {
    if xs != [] {
      var n := |xs| - 1;
      LeakFree(xs[..n]);
      assert forall a :: 0 <= a < n ==> xs[..n][a] == xs[a];
      assert Sum(LEAKED, xs) == Sum(LEAKED, xs[..n]) + LEAKED(xs[n]);
    }
  }

  predicate Settled(p: Phase) { p.Signalled? || p.Abandoned? }

  lemma StepSettled(s: Server, e: Event, a: nat)
    requires LoopsOk(s) && a < |s.admissions|
    ensures a < |Step(s, e).admissions|
    ensures Settled(s.admissions[a].phase) ==> Step(s, e).admissions[a] == s.admissions[a]
  {
    hide Low64, WaitersOk, ToInt32, Unreferenced, Cleanup;
  }

  // Units are given back or abandoned once: a settled admission stays as it is
  // for the rest of the run.
  lemma {:induction false} SettledOnce(s: Server, evs: seq<Event>, a: nat)
    requires Inv(s) && a < |s.admissions| && Settled(s.admissions[a].phase)
    ensures a < |RunFrom(s, evs).admissions|
    ensures RunFrom(s, evs).admissions[a] == s.admissions[a]
    decreases evs
  {
    if evs != [] {
      StepSettled(s, evs[0], a);
      StepInv(s, evs[0]);
      hide Inv, Step, LoopsOk;
      SettledOnce(Step(s, evs[0]), evs[1..], a);
    }
  }

  // With fewer than no units left and none in use, nothing is ever admitted
  // again.
  predicate Starved(s: Server) {
    s.available < 0 && forall a :: 0 <= a < |s.admissions| ==> !s.admissions[a].Held()
  }

  lemma StepStarved(s: Server, e: Event)
    requires LoopsOk(s) && Starved(s)
    ensures Starved(Step(s, e)) && Step(s, e).admissions == s.admissions
  {
    hide Low64, WaitersOk, ToInt32, Unreferenced, Cleanup;
    assert e.BodyRead? || e.BodyThrows? ==> e.id !in s.conns || !s.conns[e.id].loop.AwaitBody?;
    assert e.JobError? || e.JobCleanup? || e.JobThrows? || e.JobSignal? ==>
        !HasPhase(s, e.a, Dispatched) && !HasPhase(s, e.a, Finishing);
  }

  lemma {:induction false} StarvedForever(s: Server, evs: seq<Event>)
    requires Inv(s) && Starved(s)
    ensures RunFrom(s, evs).admissions == s.admissions
    decreases evs
  {
    if evs != [] {
      StepStarved(s, evs[0]);
      StepInv(s, evs[0]);
      hide Inv, Step, LoopsOk, Starved;
      StarvedForever(Step(s, evs[0]), evs[1..]);
    }
  }

  // memory_avail_per_core of a default server.
  const DEFAULT_MEMORY := 0x8000_0000

  // One request of 2^31 bytes, which the payload check refuses, starves a
  // default server for good.
  lemma OversizeRequestStarves()
    ensures Starved(Run(DEFAULT_MEMORY, [Accept, LoopCheck(1), HeaderRead(1, Some(0x8000_0000), false),
                                         BodyRead(1, false, false, false)]))
  {
    var s0 := Init(DEFAULT_MEMORY);
    var e0, e1, e2, e3 := Accept, LoopCheck(1), HeaderRead(1, Some(0x8000_0000), false), BodyRead(1, false, false, false);
    var s1 := Step(s0, e0);
    var s2 := Step(s1, e1);
    var s3 := Step(s2, e2);
    assert s3.admissions == [Admission(1, 0x8000_0000, Reading)] && s3.available == 0;
    var s4 := Step(s3, e3);
    assert s4.admissions == [Admission(1, 0x8000_0000, Signalled)] && s4.available == -0x8000_0000;
    hide Step;
    assert RunFrom(s3, [e3]) == RunFrom(s4, []);
    assert [e2, e3][1..] == [e3] && RunFrom(s2, [e2, e3]) == RunFrom(s3, [e3]);
    assert [e1, e2, e3][1..] == [e2, e3] && RunFrom(s1, [e1, e2, e3]) == RunFrom(s2, [e2, e3]);
    assert [e0, e1, e2, e3][1..] == [e1, e2, e3];
  }

  // ---------- Connections over every run ----------

  // The statistics of every reachable state, and that a connection whose read
  // loop has ended, by error, end of input or exception, has left the map.
  lemma ConnectionsAccounted(maxMemory: nat, evs: seq<Event>)
    requires Run(maxMemory, evs).connectionIdx < 0x1_0000_0000_0000_0000
    ensures var s := Run(maxMemory, evs);
            && s.stats.total == s.connectionIdx == |s.open| + s.stats.bad
            && s.stats.active == Low64(s.stats.total - s.stats.bad - |Destroyed(s)|)
            && (forall id :: id in s.conns && s.conns[id].loop.Done? ==> id !in s.open)
            && (forall id :: id in s.conns ==> (id in s.open <==> s.conns[id].enabled))
  {
    hide Inv, Low64, RunFrom, Destroyed;
    InitInv(maxMemory);
    RunInv(Init(maxMemory), evs);
    AccountedIn(Run(maxMemory, evs));
  }

  lemma AccountedIn(s: Server)
    requires Inv(s) && s.connectionIdx < 0x1_0000_0000_0000_0000
    ensures s.stats.total == s.connectionIdx == |s.open| + s.stats.bad
    ensures s.stats.active == Low64(s.stats.total - s.stats.bad - |Destroyed(s)|)
    ensures forall id :: id in s.conns && s.conns[id].loop.Done? ==> id !in s.open
    ensures forall id :: id in s.conns ==> (id in s.open <==> s.conns[id].enabled)
  {
    hide Low64, MemoryOk, LoopsOk, Destroyed;
    OpenBound(s);
    Low64Small(s.connectionIdx);
    Low64Small(s.connectionIdx - |s.open|);
  }

  lemma OpenBound(s: Server)
    requires ConnsOk(s)
    ensures |s.open| <= s.connectionIdx
  {
    SubsetSize(s.open, s.conns.Keys);
  }

  lemma {:induction false} SubsetSize(a: set<nat>, b: set<nat>)
    requires a <= b
    ensures |a| <= |b|
  {
    if a != {} {
      var x :| x in a;
      SubsetSize(a - {x}, b - {x});
    }
  }

  lemma StepClosed(s: Server, e: Event, id: nat)
    requires ConnsOk(s) && id in s.conns && id !in s.open
    ensures id in Step(s, e).conns && id !in Step(s, e).open
  {
    hide Low64, ToInt32, Unreferenced, ConnOk, Cleanup;
  }

  // A connection leaves the map, and is counted in bad_requests, once.
  lemma {:induction false} ClosedOnce(s: Server, evs: seq<Event>, id: nat)
    requires Inv(s) && id in s.conns && id !in s.open
    ensures id in RunFrom(s, evs).conns && id !in RunFrom(s, evs).open
    decreases evs
  {
    if evs != [] {
      StepClosed(s, evs[0], id);
      StepInv(s, evs[0]);
      hide Inv, Step, ConnsOk;
      ClosedOnce(Step(s, evs[0]), evs[1..], id);
    }
  }

  // Clean-up and destructor both decrement active_connections, so that it is
  // the number of open connections exactly as long as none has been destroyed.
  lemma ActiveExact(maxMemory: nat, evs: seq<Event>)
    requires Run(maxMemory, evs).connectionIdx < 0x1_0000_0000_0000_0000
    ensures var s := Run(maxMemory, evs);
            s.stats.active == |s.open| <==> Destroyed(s) == {}
  {
    hide Inv, Low64, RunFrom, Destroyed;
    InitInv(maxMemory);
    RunInv(Init(maxMemory), evs);
    ActiveIn(Run(maxMemory, evs));
  }

  lemma ActiveIn(s: Server)
    requires Inv(s) && s.connectionIdx < 0x1_0000_0000_0000_0000
    ensures s.stats.active == |s.open| <==> Destroyed(s) == {}
  {
    hide Low64, MemoryOk, LoopsOk, ConnOk;
    OpenBound(s);
    SubsetSize(Destroyed(s), s.conns.Keys);
    Low64Small(|s.open| - |Destroyed(s)|);
  }

  // Once all connections are gone it has wrapped below zero by their number,
  // so that it reads zero only if there never was one.
  lemma ActiveUnderflows(maxMemory: nat, evs: seq<Event>)
    requires var s := Run(maxMemory, evs);
             s.connectionIdx < 0x1_0000_0000_0000_0000 && s.open == {} && Destroyed(s) == s.conns.Keys
    ensures var s := Run(maxMemory, evs);
            && s.stats.active == Low64(0 - s.connectionIdx)
            && (s.stats.active == 0 <==> s.connectionIdx == 0)
  {
    hide Low64, RunFrom, Destroyed, MemoryOk, LoopsOk, ConnOk;
    InitInv(maxMemory);
    RunInv(Init(maxMemory), evs);
    var s := Run(maxMemory, evs);
    assert |Destroyed(s)| == s.connectionIdx;
    Low64Small(0 - s.connectionIdx);
  }

  // One connection that comes and goes leaves 2^64 - 1 active ones.
  lemma UnderflowReachable()
    ensures var s := Run(DEFAULT_MEMORY, [Accept, LoopCheck(1), HeaderRead(1, None, true), LoopCheck(1), Destroy(1)]);
            s.open == {} && Destroyed(s) == s.conns.Keys && s.stats.active == 0xFFFF_FFFF_FFFF_FFFF
  {
    var s0 := Init(DEFAULT_MEMORY);
    var e0, e1, e2, e3 := Accept, LoopCheck(1), HeaderRead(1, None, true), Destroy(1);
    var s1 := Step(s0, e0);
    var s2 := Step(s1, e1);
    var s3 := Step(s2, e2);
    OneConnection();
    LastConnection(s3);
    hide Step, OnlyConnection;
    var s4 := Step(s3, e1);
    assert RunFrom(s4, [e3]) == RunFrom(Step(s4, e3), []);
    assert [e1, e3][1..] == [e3] && RunFrom(s3, [e1, e3]) == RunFrom(s4, [e3]);
    assert [e2, e1, e3][1..] == [e1, e3] && RunFrom(s2, [e2, e1, e3]) == RunFrom(s3, [e1, e3]);
    assert [e1, e2, e1, e3][1..] == [e2, e1, e3] && RunFrom(s1, [e1, e2, e1, e3]) == RunFrom(s2, [e2, e1, e3]);
    assert [e0, e1, e2, e1, e3][1..] == [e1, e2, e1, e3];
  }

  // A single connection, with a failed read.
  ghost predicate OnlyConnection(s: Server) {
    && s.conns == map[1 := Conn(true, true, true, AtCheck, false)] && s.open == {1}
    && s.admissions == [] && s.stats.active == 1
  }

  lemma OneConnection()
    ensures OnlyConnection(Step(Step(Step(Init(DEFAULT_MEMORY), Accept), LoopCheck(1)), HeaderRead(1, None, true)))
  {
    hide Cleanup;
  }

  lemma LastConnection(s: Server)
    requires OnlyConnection(s)
    ensures var t := Step(Step(s, LoopCheck(1)), Destroy(1));
            t.open == {} && Destroyed(t) == t.conns.Keys && t.stats.active == 0xFFFF_FFFF_FFFF_FFFF
  {
    var u := Step(s, LoopCheck(1));
    assert u.conns == map[1 := Conn(false, true, true, Done, false)] && u.open == {} && u.stats.active == 0;
    var t := Step(u, Destroy(1));
    assert t.conns == map[1 := Conn(false, true, true, Done, true)];
    assert 1 in Destroyed(t);
  }
}
