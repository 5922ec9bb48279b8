// rpc_server as an object: its continuations update the fields in place and
// are proved to perform the steps of module Server.

module ServerObject {
  import opened Bytes
  import S = Server
  import opened Server
  import R = ServerRuns

  class RpcServer {
    const maxMemory: nat
    var available: int
    var waiters: seq<Waiter>
    var admissions: seq<Admission>
    var connectionIdx: nat
    var conns: map<nat, Conn>
    var open: set<nat>
    var stats: Stats
    var gateClosed: bool

    ghost function State(): S.Server
      reads this
    {
      S.Server(maxMemory, available, waiters, admissions, connectionIdx, conns, open, stats, gateClosed)
    }

    ghost predicate Valid()
      reads this
    {
      R.Inv(State())
    }

    constructor (maxMemory: nat)
      ensures Valid() && State() == Init(maxMemory)
    {
      this.maxMemory, available := maxMemory, maxMemory;
      waiters, admissions, connectionIdx, conns, open := [], [], 0, map[], {};
      stats, gateClosed := Stats(0, 0, 0, 0, 0), false;
      new;
      R.InitInv(maxMemory);
    }

    // The continuation of accept(), with the connection's constructor.
    method AcceptConnection() returns (id: nat)
      requires Valid() && !gateClosed
      modifies this
      ensures Valid() && State() == Step(old(State()), Accept)
      ensures id == connectionIdx && id in open && id !in old(conns)
    {
      hide R.Inv, Low64;
      R.StepInv(State(), Accept);
      R.FreshId(State());
      stats := stats.(active := Low64(stats.active + 1), total := Low64(stats.total + 1));
      connectionIdx := connectionIdx + 1;
      id := connectionIdx;
      conns := conns[id := Conn(true, false, false, AtCheck, false)];
      open := open + {id};
    }

    // handle_one_client_session() after parse_header(): granted tells whether
    // the wait for units was satisfied at once.
    method HeaderParsed(id: nat, size: Option<uint32>, short: bool) returns (granted: bool)
      requires Valid() && id in conns && conns[id].loop.AwaitHeader?
      modifies this
      ensures Valid() && State() == Step(old(State()), HeaderRead(id, size, short))
      ensures granted <==> size.Some? && old(waiters) == [] && size.value <= old(available)
    {
      hide R.Inv;
      R.StepInv(State(), HeaderRead(id, size, short));
      var c := conns[id];
      granted := false;
      match size {
        case None =>
          conns := conns[id := c.(error := true, eof := c.eof || short, loop := AtCheck)];
        case Some(n) =>
          granted := waiters == [] && available >= n;
          if granted {
            available := available - n;
            conns := conns[id := c.(loop := AwaitBody(|admissions|))];
            admissions := admissions + [Admission(id, n, Reading)];
          } else {
            conns := conns[id := c.(loop := AwaitUnits)];
            waiters := waiters + [Waiter(id, n)];
          }
      }
    }

    // dispatch_rpc() for the outcome of parse_payload(); the gate refuses a
    // request with an exception that the caller drops.
    method DispatchRpc(id: nat, ok: bool, short: bool)
      requires Valid() && id in conns && conns[id].loop.AwaitBody?
      modifies this
      ensures Valid() && State() == Step(old(State()), BodyRead(id, ok, short, false))
    {
      hide R.Inv, ToInt32;
      R.StepInv(State(), BodyRead(id, ok, short, false));
      R.BodyAdmission(State(), id);
      var c := conns[id];
      var a := c.loop.a;
      if !ok {
        available := available + ToInt32(admissions[a].size);
        admissions := admissions[a := admissions[a].(phase := Signalled)];
        conns := conns[id := c.(error := true, eof := c.eof || short, loop := AtCheck)];
      } else {
        var next: Phase := if gateClosed then Abandoned else Dispatched;
        admissions := admissions[a := admissions[a].(phase := next)];
        conns := conns[id := c.(loop := AtCheck)];
      }
    }

    method CleanupDispatchRpc(id: nat)
      requires id in conns
      modifies this`conns, this`open, this`stats
      ensures State() == Cleanup(old(State()), id)
    {
      if conns[id].error {
        if id in open {
          open := open - {id};
          stats := stats.(bad := Low64(stats.bad + 1), active := Low64(stats.active - 1));
          conns := conns[id := conns[id].(enabled := false)];
        }
      } else {
        stats := stats.(completed := Low64(stats.completed + 1));
      }
    }

    // The job of admission a ends: clean-up unless it threw, then the units
    // are signalled in either case.
    method JobDone(a: nat, threw: bool)
      requires Valid() && HasPhase(State(), a, Dispatched)
      modifies this
      ensures State() == Step(Step(old(State()), if threw then JobThrows(a) else JobCleanup(a)), JobSignal(a))
      ensures Valid()
    {
      hide R.Inv, ToInt32, Low64;
      ghost var e := if threw then JobThrows(a) else JobCleanup(a);
      R.StepInv(State(), e);
      R.StepInv(Step(State(), e), JobSignal(a));
      if !threw {
        CleanupDispatchRpc(admissions[a].id);
      }
      available := available + ToInt32(admissions[a].size);
      admissions := admissions[a := admissions[a].(phase := Signalled)];
      assert State() == Step(Step(old(State()), e), JobSignal(a));
    }
  }
}
