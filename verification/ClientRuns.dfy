// What holds over every run of the client: exactly-once settlement, the
// session window, the read counter and the effect of a slot collision.

module ClientRuns {
  import opened Bytes
  import opened Wire
  import opened Client

  lemma {:induction false} RunFromAppend(c: Client, xs: seq<Event>, ys: seq<Event>)
    ensures RunFrom(c, xs + ys) == RunFrom(RunFrom(c, xs), ys)
    decreases xs
  {
    if xs == [] {
      assert xs + ys == ys;
    } else {
      assert (xs + ys)[1..] == xs[1..] + ys;
      RunFromAppend(Step(c, xs[0]), xs[1..], ys);
    }
  }

  // ---------- No promise is set twice ----------

  lemma StepSettled(c: Client, e: Event, k: nat)
    requires Inv(c) && k < |c.promises|
    ensures k < |Step(c, e).promises|
    ensures !c.promises[k].Unset? ==> Step(c, e).promises[k] == c.promises[k]
  {}

  // Once settled, a promise keeps its outcome for the rest of the run.
  lemma {:induction false} SettledOnce(c: Client, evs: seq<Event>, k: nat)
    requires Inv(c) && k < |c.promises| && !c.promises[k].Unset?
    ensures k < |RunFrom(c, evs).promises|
    ensures RunFrom(c, evs).promises[k] == c.promises[k]
    decreases evs
  {
    if evs != [] {
      StepSettled(c, evs[0], k);
      StepInv(c, evs[0]);
      SettledOnce(Step(c, evs[0]), evs[1..], k);
    }
  }

  // ---------- Lost work items are exactly the collided ones ----------

  predicate Collides(c: Client, e: Event) {
    e.DoSend? && c.Accepts() && SessionOf(|c.promises|) in c.slots
  }

  // The accepted sends that found their session's slot occupied.
  function CollidedFrom(c: Client, evs: seq<Event>): set<nat>
    decreases evs
  {
    if evs == [] then {}
    else (if Collides(c, evs[0]) then {|c.promises|} else {})
         + CollidedFrom(Step(c, evs[0]), evs[1..])
  }

  // Neither settled nor reachable by any reply or failure.
  predicate Lost(c: Client, k: nat) {
    k < |c.promises| && c.promises[k].Unset? && !Pending(c, k)
  }

  lemma SendLost(c: Client, k: nat)
    requires Inv(c)
    ensures Lost(Send(c), k) <==> Lost(c, k) || (Collides(c, DoSend) && k == |c.promises|)
  {
    NextSession(|c.promises|);
    hide SessionOf, Low64, Low16, Values;
    if c.Accepts() && k < |c.promises| && SessionOf(k) == SessionOf(|c.promises|) {
      assert Pending(c, k) ==> SessionOf(|c.promises|) in c.slots;
    }
  }

  lemma StepLost(c: Client, e: Event, k: nat)
    requires Inv(c)
    ensures Lost(Step(c, e), k) <==> Lost(c, k) || (Collides(c, e) && k == |c.promises|)
  {
    match e
    case DoSend => SendLost(c, k);
    case DoDeliver(i, r) =>
      hide SessionOf, Low64, Low16, Values;
      if r.Some? && r.value.header.session in c.slots {
        assert SessionOf(c.slots[r.value.header.session]) == r.value.header.session;
      }
    case _ => hide SessionOf, Low64, Low16, Values;
  }

  lemma {:induction false} RunLost(c: Client, evs: seq<Event>, k: nat)
    requires Inv(c)
    ensures Lost(RunFrom(c, evs), k) <==> Lost(c, k) || k in CollidedFrom(c, evs)
    decreases evs
  {
    if evs != [] {
      StepLost(c, evs[0], k);
      StepInv(c, evs[0]);
      RunLost(Step(c, evs[0]), evs[1..], k);
    }
  }

  // On every run, each accepted send is in exactly one of the states pending,
  // resolved with a value and failed, if and only if it did not collide; one
  // that did collide stays unset and out of reach for ever.
  lemma ExactlyOneState(evs: seq<Event>, k: nat)
    requires k < |Run(evs).promises|
    ensures Inv(Run(evs))
    ensures k !in CollidedFrom(Init, evs)
            <==> (Pending(Run(evs), k) <==> Run(evs).promises[k].Unset?)
    ensures k in CollidedFrom(Init, evs)
            ==> Run(evs).promises[k].Unset? && !Pending(Run(evs), k)
  {
    RunInv(Init, evs);
    RunLost(Init, evs, k);
  }

  // After stop() every send that did not collide has been settled, and no
  // further one is accepted.
  lemma StopSettles(evs: seq<Event>, k: nat)
    requires k < |Run(evs).promises|
    ensures Run(evs + [DoStop]).slots == map[]
    ensures Run(evs + [DoStop]).gateClosed && !Run(evs + [DoStop]).Accepts()
    ensures k < |Run(evs + [DoStop]).promises|
    ensures Run(evs + [DoStop]).promises[k].Unset? <==> k in CollidedFrom(Init, evs)
  {
    var c := Run(evs);
    RunFromAppend(Init, evs, [DoStop]);
    assert RunFrom(c, [DoStop]) == RunFrom(Stop(c), []) == Stop(c);
    RunInv(Init, evs);
    RunLost(Init, evs, k);
    StepLost(c, DoStop, k);
    StepInv(c, DoStop);
  }

  // ---------- Replies carry the session of what they settle ----------

  ghost predicate ValuesMatch(c: Client) {
    forall k: nat :: k < |c.promises| && c.promises[k].Value?
      ==> c.promises[k].ctx.header.session == SessionOf(k)
  }

  lemma StepValuesMatch(c: Client, e: Event)
    requires Inv(c) && ValuesMatch(c)
    ensures ValuesMatch(Step(c, e))
  {
    hide SessionOf, Low64, Low16, Values;
  }

  lemma {:induction false} RunValuesMatch(c: Client, evs: seq<Event>)
    requires Inv(c) && ValuesMatch(c)
    ensures ValuesMatch(RunFrom(c, evs))
    decreases evs
  {
    if evs != [] {
      StepInv(c, evs[0]);
      StepValuesMatch(c, evs[0]);
      RunValuesMatch(Step(c, evs[0]), evs[1..]);
    }
  }

  // ---------- The session window ----------

  // The slot of the next send is taken exactly when a pending send lies a
  // positive multiple of 65536 sends back.
  lemma SlotTaken(c: Client)
    requires Inv(c)
    ensures SessionOf(|c.promises|) in c.slots
            <==> exists k: nat :: k < |c.promises| && Pending(c, k) && (|c.promises| - k) % SESSIONS == 0
  {
    var n := |c.promises|;
    forall k: nat | k < n
      ensures SessionOf(k) == SessionOf(n) <==> (n - k) % SESSIONS == 0
    {
      SameSession(k, n);
    }
    hide SessionOf, Low64, Low16, Values;
    if SessionOf(n) in c.slots {
      var k := c.slots[SessionOf(n)];
      assert Pending(c, k) && SessionOf(k) == SessionOf(n);
    }
  }

  lemma SameSession(k: nat, n: nat)
    requires k <= n
    ensures SessionOf(k) == SessionOf(n) <==> (n - k) % SESSIONS == 0
  {}

  lemma WindowSessions(k: nat, n: nat)
    requires k < n < k + SESSIONS
    ensures SessionOf(k) != SessionOf(n)
  {
    SameSession(k, n);
  }

  // Within the window the next send really is inserted.
  lemma WindowFree(c: Client)
    requires Inv(c) && c.Accepts()
    requires forall k: nat :: k < |c.promises| && Pending(c, k) ==> |c.promises| - k < SESSIONS
    ensures !Collides(c, DoSend)
    ensures Send(c).slots == c.slots[SessionOf(|c.promises|) := |c.promises|]
    ensures Pending(Send(c), |c.promises|)
  {
    SlotTaken(c);
    NextSession(|c.promises|);
  }

  // Pending sends and occupied slots correspond one to one.
  lemma SlotsBijective(c: Client)
    requires Inv(c)
    ensures forall s :: s in c.slots ==> Pending(c, c.slots[s])
    ensures forall j: nat, k: nat :: Pending(c, j) && Pending(c, k) && SessionOf(j) == SessionOf(k) ==> j == k
    ensures |c.slots.Values| == |c.slots|
  {
    hide SessionOf, Low64, Low16, Values;
    InjectiveValues(c.slots);
  }

  lemma {:induction false} InjectiveValues(m: map<uint16, nat>)
    requires forall s, t :: s in m && t in m && m[s] == m[t] ==> s == t
    ensures |m.Values| == |m|
  {
    if m != map[] {
      var s :| s in m;
      var rest := m - {s};
      InjectiveValues(rest);
      WithoutSlot(m, s);
      assert m[s] !in rest.Values;
      assert m.Keys == rest.Keys + {s};
    }
  }

  // ---------- The read counter ----------

  function Exceptions(ps: seq<Promise>): nat {
    if ps == [] then 0
    else Exceptions(ps[..|ps| - 1]) + if ps[|ps| - 1].Exception? then 1 else 0
  }

  function UnsetItems(ps: seq<Promise>): set<nat> {
    set k: nat | k < |ps| && ps[k].Unset?
  }

  lemma {:induction false} CountPromises(ps: seq<Promise>)
    ensures |ps| == Values(ps) + Exceptions(ps) + |UnsetItems(ps)|
  {
    if ps != [] {
      var n := |ps| - 1;
      CountPromises(ps[..n]);
      assert UnsetItems(ps) == UnsetItems(ps[..n]) + if ps[n].Unset? then {n} else {};
    }
  }

  // read_counter_ counts, modulo 2^64, the pending, the failed and the lost
  // requests, on every run.
  lemma ReadCounter(evs: seq<Event>)
    ensures Run(evs).readCounter
            == Low64(|Run(evs).slots| + Exceptions(Run(evs).promises) + |CollidedFrom(Init, evs)|)
  {
    hide Inv, RunFrom, Lost, Low64, Low16, Exceptions, Values, CollidedFrom;
    var c := Run(evs);
    InitInv();
    RunInv(Init, evs);
    forall k: nat ensures Lost(c, k) <==> k in CollidedFrom(Init, evs) {
      RunLost(Init, evs, k);
      NothingLost(k);
    }
    CountUnsettled(c, CollidedFrom(Init, evs));
    CounterOf(c);
  }

  lemma NothingLost(k: nat)
    ensures !Lost(Init, k)
  {}

  lemma CounterOf(c: Client)
    requires Inv(c)
    ensures c.readCounter == Low64(|c.promises| - Values(c.promises))
  {
    hide SlotsOk, Low64, Low16, Values;
  }

  lemma CountUnsettled(c: Client, lost: set<nat>)
    requires Inv(c)
    requires forall k: nat :: Lost(c, k) <==> k in lost
    ensures |c.promises| - Values(c.promises) == |c.slots| + Exceptions(c.promises) + |lost|
  {
    hide SessionOf, Low64, Low16, Values, Exceptions, Alive;
    SlotsBijective(c);
    CountPromises(c.promises);
    forall k | k in UnsetItems(c.promises) && k !in lost ensures k in c.slots.Values {
      assert !Lost(c, k);
    }
    assert UnsetItems(c.promises) == c.slots.Values + lost;
    assert c.slots.Values !! lost;
  }

  // So the decrement for a matched reply does not underflow.
  lemma CounterNeverUnderflows(evs: seq<Event>, i: nat, ctx: RecvContext)
    requires |Run(evs).promises| < 0x1_0000_0000_0000_0000 && ctx.header.session in Run(evs).slots
    ensures Run(evs).readCounter > 0
    ensures Deliver(Run(evs), i, Some(ctx)).readCounter == Run(evs).readCounter - 1
  {
    hide SessionOf, Values, RunFrom;
    var c := Run(evs);
    InitInv();
    RunInv(Init, evs);
    ValuesBound(c.promises);
    assert !c.promises[c.slots[ctx.header.session]].Value?;
    Low64Small(|c.promises| - Values(c.promises));
    Low64Small(c.readCounter - 1);
  }

  // ---------- Lifecycle ----------

  // On every run, outstanding requests imply a current, enabled and error-free
  // connection and an open gate, and a failure leaves nothing outstanding and
  // the connection unusable.
  lemma Lifecycle(evs: seq<Event>)
    ensures Run(evs).slots != map[] ==> Alive(Run(evs)) && !Run(evs).gateClosed
    ensures Run(evs + [DoFail]).slots == map[] && !Run(evs + [DoFail]).IsConnValid()
  {
    RunInv(Init, evs);
    RunFromAppend(Init, evs, [DoFail]);
    assert RunFrom(Run(evs), [DoFail]) == RunFrom(FailOutstanding(Run(evs)), []);
    FailInv(Run(evs), Run(evs));
  }

  lemma StepInvalid(c: Client, e: Event, i: nat)
    requires i < |c.conns| && !c.conns[i].IsValid()
    ensures i < |Step(c, e).conns| && !Step(c, e).conns[i].IsValid()
  {
    hide Low64, Low16;
  }

  // A connection that has failed, ended or been disabled stays unusable.
  lemma {:induction false} InvalidForever(c: Client, evs: seq<Event>, i: nat)
    requires i < |c.conns| && !c.conns[i].IsValid()
    ensures i < |RunFrom(c, evs).conns| && !RunFrom(c, evs).conns[i].IsValid()
    decreases evs
  {
    if evs != [] {
      StepInvalid(c, evs[0], i);
      hide Step;
      InvalidForever(Step(c, evs[0]), evs[1..], i);
    }
  }

  // A send is accepted exactly when the gate is open and the current connection
  // is enabled, has no error and has not come to the end of its input; a send
  // that is not accepted changes nothing.
  lemma AcceptsExactly(c: Client)
    requires Inv(c)
    ensures Send(c) != c <==>
            && !c.gateClosed && c.conn.Some? && c.conns[c.conn.value].enabled
            && !c.conns[c.conn.value].error && !c.conns[c.conn.value].eof
    ensures Send(c) != c <==> |Send(c).promises| == |c.promises| + 1
  {
    hide Low64, Low16, SessionOf, Values;
  }

  // The current connection, if any, has been disabled, failed or ended.
  predicate Down(c: Client) {
    c.conn.Some? && c.conn.value < |c.conns| ==>
      var k := c.conns[c.conn.value];
      !k.enabled || k.error || k.eof
  }

  lemma StepDown(c: Client, e: Event)
    requires Inv(c) && Down(c) && !e.DoConnect?
    ensures Down(Step(c, e))
  {
    hide Low64, Low16, SessionOf, Values;
  }

  // However the current connection has gone down, by its end of input, an
  // error or fail_outstanding_futures(), every later send is refused without
  // effect until connect() makes another one.
  lemma {:induction false} RefusedUntilConnect(c: Client, evs: seq<Event>)
    requires Inv(c) && Down(c) && forall e :: e in evs ==> !e.DoConnect?
    ensures Down(RunFrom(c, evs)) && Send(RunFrom(c, evs)) == RunFrom(c, evs)
    decreases evs
  {
    hide Step;
    if evs == [] {
      AcceptsExactly(c);
    } else {
      StepDown(c, evs[0]);
      StepInv(c, evs[0]);
      hide Inv, Down;
      RefusedUntilConnect(Step(c, evs[0]), evs[1..]);
    }
  }

  // The three ways down, and a fresh connection that is not.
  lemma GoesDown(c: Client, r: Option<RecvContext>)
    requires Inv(c) && c.conn.Some?
    ensures Down(EndOfStream(c, c.conn.value)) && Down(FailOutstanding(c)) && (!c.gateClosed ==> Down(Stop(c)))
    ensures r.None? || r.value.header.session !in c.slots ==> Down(Deliver(c, c.conn.value, r))
    ensures !c.IsConnValid() ==> !Down(Connect(c))
  {
    hide Low64, Low16, SessionOf, Values;
  }

  // From any reachable state, reconnecting leaves nothing outstanding and
  // accepts sends again on a new connection, with the session numbering and
  // the settled promises carried over.
  lemma Reconnects(evs: seq<Event>)
    ensures var c := Run(evs);
            Stop(c).gateClosed && !Reopen(Stop(c)).gateClosed && Reopen(Stop(c)).conn.None?
    ensures var c := Run(evs);
            var c' := Connect(Reopen(Stop(c)));
            && c'.Accepts() && c'.slots == map[]
            && c'.conn == Some(|c.conns|)
            && c'.sessionIdx == c.sessionIdx && c'.readCounter == c.readCounter
            && |c'.promises| == |c.promises|
            && forall k: nat :: k < |c.promises| && !c.promises[k].Unset? ==> c'.promises[k] == c.promises[k]
  {
    var c := Run(evs);
    InitInv();
    RunInv(Init, evs);
    hide Low64, Low16, Values, SessionOf, RunFrom;
  }

  // ---------- What a collision and a late reader do ----------

  // After a collision a reply to either send settles the older one, and the
  // newer one is lost.
  lemma Misdelivery(c: Client, i: nat, ctx: RecvContext)
    requires Inv(c) && Collides(c, DoSend)
    requires ctx.header.session == SessionOf(|c.promises|)
    ensures var first := c.slots[SessionOf(|c.promises|)];
            var c' := Deliver(Send(c), i, Some(ctx));
            && first < |c.promises|
            && c'.promises[first] == Value(ctx)
            && Lost(c', |c.promises|)
  {
    NextSession(|c.promises|);
    hide SessionOf, Low64, Low16, Values;
  }

  // `rounds` further sends, each answered before the next, leave only the
  // first send outstanding.
  function Rounds(n: nat): seq<Event> {
    if n == 0 then [DoConnect, DoSend]
    else Rounds(n - 1) + [DoSend, DoDeliver(0, Some(Answer(n)))]
  }

  function Answer(k: nat): RecvContext {
    RecvContext(Header(NONE, 0, SessionOf(k), 1, 1, 1), [0])
  }

  lemma {:induction false} RoundsState(n: nat)
    requires n < SESSIONS
    ensures var c := Run(Rounds(n));
            Inv(c) && c.slots == map[1 := 0] && |c.promises| == n + 1 && c.Accepts()
  {
    if n == 0 {
      RoundsStart();
    } else {
      RoundsState(n - 1);
      hide Inv, Client.Accepts, Send, Deliver, Answer;
      var c, reply := Run(Rounds(n - 1)), DoDeliver(0, Some(Answer(n)));
      RunFromAppend(Init, Rounds(n - 1), [DoSend, reply]);
      TwoSteps(c, DoSend, reply);
      OneRound(c);
    }
  }

  lemma TwoSteps(c: Client, e: Event, f: Event)
    ensures RunFrom(c, [e, f]) == Step(Step(c, e), f)
  {
    hide Step;
    assert [e, f][1..] == [f] && [f][1..] == [];
    assert RunFrom(c, [e, f]) == RunFrom(Step(c, e), [f]) == RunFrom(Step(Step(c, e), f), []);
  }

  lemma RoundsStart()
    ensures var c := Run(Rounds(0));
            Inv(c) && c.slots == map[1 := 0] && |c.promises| == 1 && c.Accepts()
  {
    hide Inv, Low64, Values, Step;
    TwoSteps(Init, DoConnect, DoSend);
    InitInv();
    StepInv(Init, DoConnect);
    StepInv(Step(Init, DoConnect), DoSend);
    FirstSend();
  }

  lemma FirstSend()
    ensures var c := Step(Step(Init, DoConnect), DoSend);
            c.slots == map[1 := 0] && |c.promises| == 1 && c.Accepts()
  {
    hide Low64;
  }

  lemma OneRound(c: Client)
    requires Inv(c) && c.slots == map[1 := 0] && 0 < |c.promises| < SESSIONS && c.Accepts()
    ensures var c' := Deliver(Send(c), 0, Some(Answer(|c.promises|)));
            Inv(c') && c'.slots == c.slots && |c'.promises| == |c.promises| + 1 && c'.Accepts()
  {
    var n := |c.promises|;
    SendInv(c);
    DeliverInv(Send(c), 0, Some(Answer(n)));
    NextSession(n);
    assert SessionOf(n) != 1;
    hide SessionOf, Low64, Low16, Values;
    assert Send(c).slots == map[1 := 0, SessionOf(n) := n];
    assert Send(c).slots - {SessionOf(n)} == map[1 := 0];
  }

  // A collision is reachable: one request left unanswered over 65536 sends.
  lemma CollisionReachable()
    ensures 65536 in CollidedFrom(Init, Rounds(65535) + [DoSend])
  {
    RoundsState(65535);
    var c := Run(Rounds(65535));
    CollidedAppend(Init, Rounds(65535), DoSend);
    assert Collides(c, DoSend);
  }

  lemma {:induction false} CollidedAppend(c: Client, evs: seq<Event>, e: Event)
    ensures CollidedFrom(c, evs + [e]) == CollidedFrom(c, evs)
            + if Collides(RunFrom(c, evs), e) then {|RunFrom(c, evs).promises|} else {}
    decreases evs
  {
    if evs == [] {
      assert (evs + [e])[1..] == [];
    } else {
      assert (evs + [e])[1..] == evs[1..] + [e];
      CollidedAppend(Step(c, evs[0]), evs[1..], e);
    }
  }

  // Connections are not isolated from each other: what a reader of another
  // connection i comes back with costs the current connection its life and all
  // pending requests theirs, unless it is the reply of a pending request.
  lemma LateReader(c: Client, i: nat, r: Option<RecvContext>)
    requires Inv(c) && c.IsConnValid() && i != c.conn.value && i < |c.conns|
    ensures var c' := Deliver(c, i, r);
            var matched := r.Some? && r.value.header.session in c.slots;
            && (c'.IsConnValid() <==> matched) && |c'.promises| == |c.promises|
            && (!matched ==>
                  && c'.conns[i].error && c'.slots == map[]
                  && forall k: nat :: k < |c.promises| && Pending(c, k) ==> c'.promises[k] == Exception)
  {
    hide SessionOf, Low64, Low16, Values;
    if !(r.Some? && r.value.header.session in c.slots) {
      forall k: nat | k < |c.promises| && Pending(c, k) ensures Deliver(c, i, r).promises[k] == Exception {
        assert c.slots[SessionOf(k)] in c.slots.Values;
      }
    }
  }
}
