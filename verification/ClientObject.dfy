// rpc_client as an object: its methods update the fields in place and are
// proved to perform the steps of module Client.

module ClientObject {
  import opened Bytes
  import opened Wire
  import C = Client
  import opened Client

  class RpcClient {
    var conns: seq<Connection>
    var conn: Option<nat>
    var slots: map<uint16, nat>
    var items: seq<Promise>
    var sessionIdx: uint16
    var readCounter: uint64
    var gateClosed: bool

    ghost function State(): C.Client
      reads this
    {
      C.Client(conns, conn, slots, items, sessionIdx, readCounter, gateClosed)
    }

    ghost predicate Valid()
      reads this
      ensures Valid() ==> InRange()
    {
      Inv(State())
    }

    // What the fields guarantee even between set_error() and the failing of
    // the outstanding requests.
    predicate InRange()
      reads this
    {
      && (conn.Some? ==> conn.value < |conns|)
      && forall s :: s in slots ==> slots[s] < |items|
    }

    constructor ()
      ensures Valid() && State() == Init
    {
      conns, conn, slots, items := [], None, map[], [];
      sessionIdx, readCounter, gateClosed := 0, 0, false;
    }

    predicate IsConnValid()
      requires InRange()
      reads this
      ensures IsConnValid() == State().IsConnValid()
    {
      conn.Some? && conns[conn.value].IsValid()
    }

    lemma StateOf()
      requires Valid()
      ensures InRange() && sessionIdx == Low16(|items|)
    {}

    // send() and raw_send(): the work item created, or None for the two
    // exceptions (closed gate, invalid connection).
    method RawSend() returns (item: Option<nat>)
      requires Valid()
      modifies this
      ensures Valid() && State() == C.Send(old(State()))
      ensures item.Some? <==> old(State()).Accepts()
      ensures item.Some? ==> item.value == old(|items|) && sessionIdx == SessionOf(item.value)
    {
      hide Low16, Low64, SessionOf, Inv;
      StateOf();
      SendInv(State());
      NextSession(|items|);
      if gateClosed || !IsConnValid() {
        return None;
      }
      sessionIdx := Low16(sessionIdx + 1);
      readCounter := Low64(readCounter + 1);
      item := Some(|items|);
      items := items + [Unset];
      if sessionIdx !in slots {
        slots := slots[sessionIdx := item.value];
      }
    }

    // Also the handler of a read or write exception and of a timed out read.
    method FailOutstandingFutures()
      requires InRange()
      modifies this`conns, this`slots, this`items
      ensures InRange() && State() == FailOutstanding(old(State()))
      ensures old(Valid()) ==> Valid()
    {
      if Inv(State()) {
        FailInv(State(), State());
      }
      if IsConnValid() {
        conns := conns[conn.value := conns[conn.value].(enabled := false)];
      }
      Drain();
    }

    method Drain()
      requires forall s :: s in slots ==> slots[s] < |items|
      modifies this`slots, this`items
      ensures slots == map[]
      ensures items == Fail(old(items), old(slots).Values)
    {
      ghost var failed: set<nat> := {};
      FailNone(items);
      hide Fail;
      while slots != map[]
        invariant forall s :: s in slots ==> slots[s] < |items|
        invariant failed + slots.Values == old(slots).Values
        invariant items == Fail(old(items), failed)
        decreases |slots|
      {
        var session :| session in slots;
        var k := slots[session];
        WithoutSlot(slots, session);
        FailOne(old(items), failed, k);
        items := items[k := Exception];
        slots := slots - {session};
        failed := failed + {k};
      }
      assert failed == old(slots).Values;
    }

    // The continuation of process_one_request() in a reader of connection i.
    method ProcessOneRequest(i: nat, parsed: Option<RecvContext>)
      requires Valid() && i < |conns|
      modifies this
      ensures Valid() && State() == Deliver(old(State()), i, parsed)
    {
      DeliverInv(State(), i, parsed);
      if parsed.None? || parsed.value.header.session !in slots {
        ghost var c0 := State();
        conns := conns[i := conns[i].(error := true)];
        FailInv(State(), c0);
        FailOutstandingFutures();
        return;
      }
      var sess := parsed.value.header.session;
      readCounter := Low64(readCounter - 1);
      items := items[slots[sess] := Value(parsed.value)];
      slots := slots - {sess};
    }

    method Stop()
      requires Valid() && !gateClosed
      modifies this
      ensures Valid() && State() == C.Stop(old(State()))
    {
      StepInv(State(), DoStop);
      FailOutstandingFutures();
      gateClosed := true;
    }

    // The continuation of reconnect() after the gate has drained.
    method Reopen()
      requires Valid() && gateClosed
      modifies this
      ensures Valid() && State() == C.Reopen(old(State()))
    {
      StepInv(State(), DoReopen);
      gateClosed := false;
      conn := None;
    }

    // connect(); false stands for the exception on a valid connection.
    method Connect() returns (ok: bool)
      requires Valid()
      modifies this
      ensures Valid() && State() == C.Connect(old(State()))
      ensures ok == !old(State()).IsConnValid()
    {
      StepInv(State(), DoConnect);
      ok := !IsConnValid();
      if ok {
        conns := conns + [Connection(true, false, false)];
        conn := Some(|conns| - 1);
      }
    }
  }
}
