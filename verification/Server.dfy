// The RPC server as a machine over its continuations: accepting, reading a
// request under the memory limit, dispatching it in the background and
// cleaning up after it, for any number of connections in any interleaving.

module Server {
  import opened Bytes

  // The read loop of a connection, by what it waits for next. `AtCheck` is
  // the test of do_until; `Unwinding` is between the clean-up of finally()
  // and the one of handle_exception().
  datatype Loop = AtCheck | AwaitHeader | AwaitUnits | AwaitBody(a: nat) | Unwinding | Done

  datatype Conn = Conn(enabled: bool, error: bool, eof: bool, loop: Loop, destroyed: bool) {
    predicate IsValid() { enabled && !error && !eof }
  }

  // The life of the units that a request has taken from the semaphore.
  // `Finishing` is a dispatched job whose units are about to be signalled.
  datatype Phase = Reading | Dispatched | Finishing | Signalled | Abandoned

  datatype Admission = Admission(id: nat, size: uint32, phase: Phase) {
    predicate Held() { phase.Reading? || phase.Dispatched? || phase.Finishing? }
  }

  datatype Waiter = Waiter(id: nat, size: uint32)

  datatype Stats = Stats(active: uint64, total: uint64, bad: uint64, completed: uint64, noRoute: uint64)

  // conns holds every connection object ever made, by id, and `open` the keys
  // of open_connections_. `admissions` lists every grant of units ever made.
  datatype Server = Server(
    maxMemory: nat,
    available: int,
    waiters: seq<Waiter>,
    admissions: seq<Admission>,
    connectionIdx: nat,
    conns: map<nat, Conn>,
    open: set<nat>,
    stats: Stats,
    gateClosed: bool)

  function Init(maxMemory: nat): Server {
    Server(maxMemory, maxMemory, [], [], 0, map[], {}, Stats(0, 0, 0, 0, 0), false)
  }

  // ---------- Pieces ----------

  function SetConn(s: Server, id: nat, c: Conn): Server {
    s.(conns := s.conns[id := c])
  }

  function SetPhase(s: Server, a: nat, p: Phase): Server
    requires a < |s.admissions|
  {
    s.(admissions := s.admissions[a := s.admissions[a].(phase := p)])
  }

  // resources_available.signal() as dispatch_rpc() calls it, with the size in
  // an int32_t.
  function Signal(s: Server, a: nat): Server
    requires a < |s.admissions|
  {
    SetPhase(s, a, Signalled).(available := s.available + ToInt32(s.admissions[a].size))
  }

  function Admit(s: Server, id: nat, size: uint32): Server
    requires id in s.conns
  {
    SetConn(s, id, s.conns[id].(loop := AwaitBody(|s.admissions|)))
    .(available := s.available - size,
      admissions := s.admissions + [Admission(id, size, Reading)])
  }

  // cleanup_dispatch_rpc() takes a connection in error out of the map, and
  // exactly then disables it and counts it as bad and no longer active.
  function Cleanup(s: Server, id: nat): (r: Server)
    requires id in s.conns
    ensures r == s.(conns := r.conns, open := r.open, stats := r.stats)
    ensures r.open <= s.open && r.conns.Keys == s.conns.Keys
    ensures forall x :: x in s.open && x !in r.open <==> x == id && id in s.open && s.conns[id].error
    ensures r.conns == if id in s.open && id !in r.open then s.conns[id := s.conns[id].(enabled := false)] else s.conns
    ensures var n := if id in s.open && id !in r.open then 1 else 0;
            r.stats.bad == Low64(s.stats.bad + n) && r.stats.active == Low64(s.stats.active - n)
  {
    if s.conns[id].error then
      if id in s.open then
        SetConn(s, id, s.conns[id].(enabled := false))
        .(open := s.open - {id},
          stats := s.stats.(bad := Low64(s.stats.bad + 1), active := Low64(s.stats.active - 1)))
      else s
    else s.(stats := s.stats.(completed := Low64(s.stats.completed + 1)))
  }

  function SetError(s: Server, id: nat): Server
    requires id in s.conns
  {
    SetConn(s, id, s.conns[id].(error := true))
  }

  function GoTo(s: Server, id: nat, l: Loop): Server
    requires id in s.conns
  {
    SetConn(s, id, s.conns[id].(loop := l))
  }

  // ---------- Steps ----------

  datatype Event =
    | Accept
    | LoopCheck(id: nat)
    | HeaderRead(id: nat, size: Option<uint32>, short: bool)  // short: the input ended
    | HeaderThrows(id: nat)
    | Grant
    | BodyRead(id: nat, ok: bool, short: bool, throws: bool)  // throws: at a closed gate
    | BodyThrows(id: nat)                                     // or times out
    | Unwind(id: nat)
    | JobError(a: nat, noRoute: bool)
    | JobCleanup(a: nat)
    | JobThrows(a: nat)
    | JobSignal(a: nat)
    | Destroy(id: nat)
    | Stop

  function AcceptStep(s: Server): Server {
    var id := s.connectionIdx + 1;
    s.(connectionIdx := id,
       conns := s.conns[id := Conn(true, false, false, AtCheck, false)],
       open := s.open + {id},
       stats := s.stats.(active := Low64(s.stats.active + 1), total := Low64(s.stats.total + 1)))
  }

  function LoopCheckStep(s: Server, id: nat): Server {
    if id in s.conns && s.conns[id].loop.AtCheck? then
      if s.conns[id].IsValid() then GoTo(s, id, AwaitHeader)
      else GoTo(Cleanup(s, id), id, Done)
    else s
  }

  // handle_one_client_session() up to the wait for units. A semaphore that has
  // waiters, or too few units, makes the request queue.
  function HeaderReadStep(s: Server, id: nat, size: Option<uint32>, short: bool): Server {
    if id in s.conns && s.conns[id].loop.AwaitHeader? then
      match size
      case None => SetConn(s, id, s.conns[id].(error := true, eof := s.conns[id].eof || short, loop := AtCheck))
      case Some(n) =>
        if s.waiters == [] && s.available >= n then Admit(s, id, n)
        else GoTo(s, id, AwaitUnits).(waiters := s.waiters + [Waiter(id, n)])
    else s
  }

  function GrantStep(s: Server): Server {
    if s.waiters != [] && s.available >= s.waiters[0].size && s.waiters[0].id in s.conns
    then Admit(s.(waiters := s.waiters[1..]), s.waiters[0].id, s.waiters[0].size)
    else s
  }

  // The first clean-up of the exception path.
  function ThrowOut(s: Server, id: nat): Server
    requires id in s.conns
  {
    GoTo(Cleanup(s, id), id, Unwinding)
  }

  // The continuation of parse_payload(): dispatch_rpc() in the background.
  function BodyReadStep(s: Server, id: nat, ok: bool, short: bool, throws: bool): Server {
    if id in s.conns && s.conns[id].loop.AwaitBody? && s.conns[id].loop.a < |s.admissions| then
      var a := s.conns[id].loop.a;
      if !ok then
        SetConn(Signal(s, a), id, s.conns[id].(error := true, eof := s.conns[id].eof || short, loop := AtCheck))
      else if s.gateClosed then
        if throws then ThrowOut(SetPhase(s, a, Abandoned), id)
        else GoTo(SetPhase(s, a, Abandoned), id, AtCheck)
      else GoTo(SetPhase(s, a, Dispatched), id, AtCheck)
    else s
  }

  function BodyThrowsStep(s: Server, id: nat): Server {
    if id in s.conns && s.conns[id].loop.AwaitBody? && s.conns[id].loop.a < |s.admissions|
    then ThrowOut(SetPhase(s, s.conns[id].loop.a, Abandoned), id)
    else s
  }

  predicate HasPhase(s: Server, a: nat, p: Phase) {
    a < |s.admissions| && s.admissions[a].phase == p && s.admissions[a].id in s.conns
  }

  // No continuation holds on to the connection object.
  predicate Unreferenced(s: Server, id: nat) {
    && id in s.conns && id !in s.open && s.conns[id].loop.Done? && !s.conns[id].destroyed
    && forall a :: 0 <= a < |s.admissions| && s.admissions[a].id == id ==> !s.admissions[a].Held()
  }

  function Step(s: Server, e: Event): Server {
    match e
    case Accept => if s.gateClosed then s else AcceptStep(s)
    case LoopCheck(id) => LoopCheckStep(s, id)
    case HeaderRead(id, size, short) => HeaderReadStep(s, id, size, short)
    case HeaderThrows(id) =>
      if id in s.conns && s.conns[id].loop.AwaitHeader? then ThrowOut(s, id) else s
    case Grant => GrantStep(s)
    case BodyRead(id, ok, short, throws) => BodyReadStep(s, id, ok, short, throws)
    case BodyThrows(id) => BodyThrowsStep(s, id)
    case Unwind(id) =>
      if id in s.conns && s.conns[id].loop.Unwinding?
      then GoTo(Cleanup(SetError(s, id), id), id, Done) else s
    case JobError(a, noRoute) =>
      if HasPhase(s, a, Dispatched)
      then SetError(s, s.admissions[a].id)
           .(stats := if noRoute then s.stats.(noRoute := Low64(s.stats.noRoute + 1)) else s.stats)
      else s
    case JobCleanup(a) =>
      if HasPhase(s, a, Dispatched)
      then SetPhase(Cleanup(s, s.admissions[a].id), a, Finishing) else s
    case JobThrows(a) =>
      if HasPhase(s, a, Dispatched) then SetPhase(s, a, Finishing) else s
    case JobSignal(a) =>
      if HasPhase(s, a, Finishing) then Signal(s, a) else s
    case Destroy(id) =>
      if Unreferenced(s, id)
      then SetConn(s, id, s.conns[id].(destroyed := true))
           .(stats := s.stats.(active := Low64(s.stats.active - 1)))
      else s
    case Stop => s.(gateClosed := true)
  }

  function RunFrom(s: Server, evs: seq<Event>): Server
    decreases evs
  {
    if evs == [] then s else RunFrom(Step(s, evs[0]), evs[1..])
  }
}
