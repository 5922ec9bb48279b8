// The RPC client as a machine over its continuations: sending, delivering a
// reply, failing everything outstanding, stopping and reconnecting.

module Client {
  import opened Bytes
  import opened Wire

  const SESSIONS := 0x1_0000

  // rpc_connection: enabled_, error_ and istream.eof().
  datatype Connection = Connection(enabled: bool, error: bool, eof: bool) {
    predicate IsValid() { enabled && !error && !eof }
  }

  // The promise of a work item.
  datatype Promise = Unset | Value(ctx: RecvContext) | Exception

  // `conns` lists every connection ever made and `promises` every work item
  // ever made, so that conn and the slots can refer to them by position.
  datatype Client = Client(
    conns: seq<Connection>,
    conn: Option<nat>,
    slots: map<uint16, nat>,
    promises: seq<Promise>,
    sessionIdx: uint16,
    readCounter: uint64,
    gateClosed: bool)
  {
    predicate IsConnValid() {
      conn.Some? && conn.value < |conns| && conns[conn.value].IsValid()
    }

    // send() enters the gate and raw_send() checks the connection.
    predicate Accepts() { !gateClosed && IsConnValid() }
  }

  const Init := Client([], None, map[], [], 0, 0, false)

  // The session given to the k-th accepted send.
  function SessionOf(k: nat): uint16 { Low16(k + 1) }

  // ---------- Steps ----------

  // send() up to the insertion into rpc_slots_; insert() leaves an occupied
  // slot as it is.
  function Send(c: Client): Client {
    if !c.Accepts() then c
    else
      var s := Low16(c.sessionIdx + 1);
      c.(sessionIdx := s,
         readCounter := Low64(c.readCounter + 1),
         promises := c.promises + [Unset],
         slots := if s in c.slots then c.slots else c.slots[s := |c.promises|])
  }

  function Disable(c: Client): Client {
    if c.IsConnValid()
    then c.(conns := c.conns[c.conn.value := c.conns[c.conn.value].(enabled := false)])
    else c
  }

  function Fail(ps: seq<Promise>, ks: set<nat>): seq<Promise> {
    seq(|ps|, k requires 0 <= k < |ps| => if k in ks then Exception else ps[k])
  }

  // fail_outstanding_futures(): it acts on the current connection.
  function FailOutstanding(c: Client): Client {
    Disable(c).(slots := map[], promises := Fail(c.promises, c.slots.Values))
  }

  function SetError(c: Client, i: nat): Client {
    if i < |c.conns| then c.(conns := c.conns[i := c.conns[i].(error := true)]) else c
  }

  // The continuation of process_one_request() for a reader that captured
  // connection i, with what it parsed.
  function Deliver(c: Client, i: nat, r: Option<RecvContext>): Client {
    if r.None? || r.value.header.session !in c.slots || c.slots[r.value.header.session] >= |c.promises|
    then FailOutstanding(SetError(c, i))
    else
      var s := r.value.header.session;
      c.(readCounter := Low64(c.readCounter - 1),
         promises := c.promises[c.slots[s] := Value(r.value)],
         slots := c.slots - {s})
  }

  function EndOfStream(c: Client, i: nat): Client {
    if i < |c.conns| then c.(conns := c.conns[i := c.conns[i].(eof := true)]) else c
  }

  // stop(): the gate is closed at once, and drains later.
  function Stop(c: Client): Client {
    if c.gateClosed then c else FailOutstanding(c).(gateClosed := true)
  }

  // The continuation of reconnect() once the closed gate has drained.
  function Reopen(c: Client): Client {
    if c.gateClosed then c.(gateClosed := false, conn := None) else c
  }

  // connect() once the socket is connected.
  function Connect(c: Client): Client {
    if c.IsConnValid() then c
    else c.(conns := c.conns + [Connection(true, false, false)], conn := Some(|c.conns|))
  }

  datatype Event =
    | DoSend
    | DoDeliver(reader: nat, parsed: Option<RecvContext>)
    | DoFail                 // a read or write exception, or a timeout
    | DoEndOfStream(i: nat)
    | DoStop
    | DoReopen
    | DoConnect

  function Step(c: Client, e: Event): Client {
    match e
    case DoSend => Send(c)
    case DoDeliver(i, r) => Deliver(c, i, r)
    case DoFail => FailOutstanding(c)
    case DoEndOfStream(i) => EndOfStream(c, i)
    case DoStop => Stop(c)
    case DoReopen => Reopen(c)
    case DoConnect => Connect(c)
  }

  function RunFrom(c: Client, evs: seq<Event>): Client
    decreases evs
  {
    if evs == [] then c else RunFrom(Step(c, evs[0]), evs[1..])
  }

  function Run(evs: seq<Event>): Client { RunFrom(Init, evs) }

  // ---------- The invariant ----------

  function Values(ps: seq<Promise>): nat {
    if ps == [] then 0
    else Values(ps[..|ps| - 1]) + if ps[|ps| - 1].Value? then 1 else 0
  }

  // A work item is pending when its slot holds it.
  predicate Pending(c: Client, k: nat) {
    SessionOf(k) in c.slots && c.slots[SessionOf(k)] == k
  }

  ghost predicate SlotsOk(c: Client) {
    forall s :: s in c.slots ==>
      c.slots[s] < |c.promises| && c.promises[c.slots[s]].Unset? && SessionOf(c.slots[s]) == s
  }

  predicate Alive(c: Client) {
    c.conn.Some? && c.conn.value < |c.conns|
    && c.conns[c.conn.value].enabled && !c.conns[c.conn.value].error
  }

  ghost predicate Inv(c: Client) {
    && SlotsOk(c)
    && c.sessionIdx == Low16(|c.promises|)
    && (c.conn.Some? ==> c.conn.value < |c.conns|)
    && (c.slots != map[] ==> Alive(c) && !c.gateClosed)
    && Values(c.promises) <= |c.promises|
    && c.readCounter == Low64(|c.promises| - Values(c.promises))
  }

  // ---------- Preservation ----------

  lemma ValuesUpdate(ps: seq<Promise>, k: nat, p: Promise)
    requires k < |ps| && !ps[k].Value?
    ensures Values(ps[k := p]) == Values(ps) + if p.Value? then 1 else 0
  {
    var n := |ps| - 1;
    if k < n {
      assert ps[k := p][..n] == ps[..n][k := p];
      ValuesUpdate(ps[..n], k, p);
    } else {
      assert ps[k := p][..n] == ps[..n];
    }
  }

  lemma {:induction false} ValuesFail(ps: seq<Promise>, ks: set<nat>)
    requires forall k :: k in ks && k < |ps| ==> !ps[k].Value?
    ensures Values(Fail(ps, ks)) == Values(ps)
  {
    if ps != [] {
      var n := |ps| - 1;
      ValuesFail(ps[..n], ks);
      assert Fail(ps, ks)[..n] == Fail(ps[..n], ks);
    }
  }

  lemma {:induction false} ValuesBound(ps: seq<Promise>)
    ensures Values(ps) <= |ps|
    ensures forall k: nat :: k < |ps| && !ps[k].Value? ==> Values(ps) < |ps|
  {
    if ps != [] { ValuesBound(ps[..|ps| - 1]); }
  }

  lemma FailNone(ps: seq<Promise>)
    ensures Fail(ps, {}) == ps
  {}

  lemma FailOne(ps: seq<Promise>, ks: set<nat>, k: nat)
    requires k < |ps|
    ensures |Fail(ps, ks)| == |ps|
    ensures Fail(ps, ks)[k := Exception] == Fail(ps, ks + {k})
  {}

  lemma WithoutSlot(m: map<uint16, nat>, s: uint16)
    requires s in m
    ensures |m - {s}| < |m|
    ensures m.Values == (m - {s}).Values + {m[s]}
  {
    var rest := m - {s};
    assert m.Keys == rest.Keys + {s};
    forall v | v in m.Values ensures v in rest.Values + {m[s]} {
      var t :| t in m && m[t] == v;
      assert t != s ==> rest[t] == v;
    }
  }

  lemma NextSession(n: nat)
    ensures Low16(Low16(n) + 1) == SessionOf(n) == (n + 1) % SESSIONS
  {
    Low16Step(n);
  }

  lemma SessionNext(n: nat)
    ensures SessionOf(n) == Low16(n + 1)
  {}

  lemma SendSlots(c: Client)
    requires SlotsOk(c) && c.sessionIdx == Low16(|c.promises|) && c.Accepts()
    ensures SlotsOk(Send(c))
  {
    hide Low64, Low16, SessionOf;
    NextSession(|c.promises|);
    var c' := Send(c);
    forall s | s in c'.slots
      ensures c'.slots[s] < |c'.promises| && c'.promises[c'.slots[s]].Unset? && SessionOf(c'.slots[s]) == s
    {
      if s in c.slots { assert c'.promises[c.slots[s]] == c.promises[c.slots[s]]; }
    }
  }

  lemma SendValues(ps: seq<Promise>)
    ensures Values(ps + [Unset]) == Values(ps)
  {
    assert (ps + [Unset])[..|ps|] == ps;
  }

  lemma SendInv(c: Client)
    requires Inv(c)
    ensures Inv(Send(c))
  {
    hide Low64, Low16, SessionOf, SlotsOk, Values;
    if c.Accepts() {
      SendSlots(c);
      SendValues(c.promises);
      NextSession(|c.promises|);
      SessionNext(|c.promises|);
      Low64Step(|c.promises| - Values(c.promises));
    }
  }

  lemma FailInv(c: Client, c0: Client)
    requires SlotsOk(c) && c == c0.(conns := c.conns) && Inv(c0) && |c.conns| == |c0.conns|
    ensures Inv(FailOutstanding(c))
    ensures !FailOutstanding(c).IsConnValid()
  {
    ValuesFail(c.promises, c.slots.Values);
  }

  lemma DeliverInv(c: Client, i: nat, r: Option<RecvContext>)
    requires Inv(c)
    ensures Inv(Deliver(c, i, r))
  {
    if r.None? || r.value.header.session !in c.slots {
      FailInv(SetError(c, i), c);
    } else {
      var s := r.value.header.session;
      ValuesUpdate(c.promises, c.slots[s], Value(r.value));
      ValuesBound(c.promises);
      Low64Step(|c.promises| - Values(c.promises));
      hide Low64, SessionOf, Values;
      var c' := Deliver(c, i, r);
      assert SlotsOk(c');
    }
  }

  lemma StepInv(c: Client, e: Event)
    requires Inv(c)
    ensures Inv(Step(c, e))
  {
    match e
    case DoSend => SendInv(c);
    case DoDeliver(i, r) => DeliverInv(c, i, r);
    case DoFail => FailInv(c, c);
    case DoEndOfStream(i) =>
    case DoStop => FailInv(c, c);
    case DoReopen =>
    case DoConnect =>
  }

  lemma InitInv()
    ensures Inv(Init)
  {}

  lemma {:induction false} RunInv(c: Client, evs: seq<Event>)
    requires Inv(c)
    ensures Inv(RunFrom(c, evs))
    decreases evs
  {
    if evs != [] {
      StepInv(c, evs[0]);
      RunInv(Step(c, evs[0]), evs[1..]);
    }
  }
}
