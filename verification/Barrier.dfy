// load_generator::benchmark(): a semaphore of as many units as there are
// channels, taken once per channel and finally as a whole.

module Barrier {

  // invoke() of a channel: not yet granted a unit, running in the background,
  // or finished with its unit signalled.
  datatype Channel = Waiting | Running | Finished

  datatype Final = NotYet | Queued | Granted

  datatype Benchmark = Benchmark(concurrency: nat, available: int, channels: seq<Channel>, final: Final)

  function Init(concurrency: nat): Benchmark {
    Benchmark(concurrency, concurrency, seq(concurrency, _ => Waiting), NotYet)
  }

  datatype Event = Start(c: nat) | Finish(c: nat) | WaitAll | GrantAll

  // parallel_for_each is over once every channel has been granted its unit.
  predicate AllStarted(b: Benchmark) {
    forall c :: 0 <= c < |b.channels| ==> !b.channels[c].Waiting?
  }

  predicate Enabled(b: Benchmark, e: Event) {
    match e
    case Start(c) => c < |b.channels| && b.channels[c].Waiting? && b.available >= 1
    case Finish(c) => c < |b.channels| && b.channels[c].Running?
    case WaitAll => b.final.NotYet? && AllStarted(b)
    case GrantAll => b.final.Queued? && b.available >= b.concurrency
  }

  function Step(b: Benchmark, e: Event): Benchmark
    requires Enabled(b, e)
  {
    match e
    case Start(c) => b.(channels := b.channels[c := Running], available := b.available - 1)
    case Finish(c) => b.(channels := b.channels[c := Finished], available := b.available + 1)
    case WaitAll => b.(final := Queued)
    case GrantAll => b.(final := Granted, available := b.available - b.concurrency)
  }

  // A finite run of enabled events.
  predicate IsRun(b: Benchmark, evs: seq<Event>)
    decreases evs
  {
    evs == [] || (Enabled(b, evs[0]) && IsRun(Step(b, evs[0]), evs[1..]))
  }

  function RunFrom(b: Benchmark, evs: seq<Event>): Benchmark
    requires IsRun(b, evs)
    decreases evs
  {
    if evs == [] then b else RunFrom(Step(b, evs[0]), evs[1..])
  }

  function CountRunning(cs: seq<Channel>): nat {
    if cs == [] then 0 else CountRunning(cs[..|cs| - 1]) + if cs[|cs| - 1].Running? then 1 else 0
  }

  lemma {:induction false} CountUpdate(cs: seq<Channel>, c: nat, x: Channel)
    requires c < |cs|
    ensures CountRunning(cs[c := x])
            == CountRunning(cs) - (if cs[c].Running? then 1 else 0) + (if x.Running? then 1 else 0)
  {
    var n := |cs| - 1;
    if c < n {
      assert cs[c := x][..n] == cs[..n][c := x];
      CountUpdate(cs[..n], c, x);
    } else {
      assert cs[c := x][..n] == cs[..n];
    }
  }

  lemma {:induction false} CountNone(cs: seq<Channel>)
    ensures CountRunning(cs) <= |cs|
    ensures CountRunning(cs) == 0 <==> forall c :: 0 <= c < |cs| ==> !cs[c].Running?
    ensures CountRunning(cs) == |cs| ==> forall c :: 0 <= c < |cs| ==> cs[c].Running?
  {
    if cs != [] {
      var n := |cs| - 1;
      CountNone(cs[..n]);
      assert forall c :: 0 <= c < n ==> cs[..n][c] == cs[c];
    }
  }

  ghost predicate Inv(b: Benchmark) {
    && |b.channels| == b.concurrency
    && b.available + CountRunning(b.channels) + (if b.final.Granted? then b.concurrency else 0) == b.concurrency
    && (!b.final.NotYet? ==> AllStarted(b))
    && (b.final.Granted? ==> forall c :: 0 <= c < |b.channels| ==> b.channels[c].Finished?)
  }

  lemma StepInv(b: Benchmark, e: Event)
    requires Inv(b) && Enabled(b, e)
    ensures Inv(Step(b, e)) && Step(b, e).concurrency == b.concurrency
  {
    CountNone(b.channels);
    match e
    case Start(c) => CountUpdate(b.channels, c, Running);
    case Finish(c) => CountUpdate(b.channels, c, Finished);
    case WaitAll =>
    case GrantAll =>
  }

  lemma {:induction false} RunInv(b: Benchmark, evs: seq<Event>)
    requires Inv(b) && IsRun(b, evs)
    ensures Inv(RunFrom(b, evs)) && RunFrom(b, evs).concurrency == b.concurrency
    decreases evs
  {
    if evs != [] {
      StepInv(b, evs[0]);
      RunInv(Step(b, evs[0]), evs[1..]);
    }
  }

  lemma InitInv(concurrency: nat)
    ensures Inv(Init(concurrency))
  {
    CountNone(Init(concurrency).channels);
  }

  // end() runs only after every channel's invoke() has finished.
  lemma EndAfterAll(concurrency: nat, evs: seq<Event>)
    requires IsRun(Init(concurrency), evs)
    ensures var b := RunFrom(Init(concurrency), evs);
            && |b.channels| == concurrency
            && (b.final.Granted? ==> forall c :: 0 <= c < |b.channels| ==> b.channels[c].Finished?)
  {
    InitInv(concurrency);
    RunInv(Init(concurrency), evs);
  }

  // Steps left to take.
  function Left(cs: seq<Channel>): nat {
    if cs == [] then 0
    else Left(cs[..|cs| - 1]) + match cs[|cs| - 1] case Waiting => 2 case Running => 1 case Finished => 0
  }

  function Remaining(b: Benchmark): nat {
    Left(b.channels) + match b.final case NotYet => 2 case Queued => 1 case Granted => 0
  }

  lemma {:induction false} LeftUpdate(cs: seq<Channel>, c: nat, x: Channel)
    requires c < |cs|
    requires (cs[c].Waiting? && x.Running?) || (cs[c].Running? && x.Finished?)
    ensures Left(cs[c := x]) == Left(cs) - 1
  {
    var n := |cs| - 1;
    if c < n {
      assert cs[c := x][..n] == cs[..n][c := x];
      LeftUpdate(cs[..n], c, x);
    } else {
      assert cs[c := x][..n] == cs[..n];
    }
  }

  lemma StepProgress(b: Benchmark, e: Event)
    requires Inv(b) && Enabled(b, e)
    ensures Remaining(Step(b, e)) < Remaining(b)
  {
    match e
    case Start(c) => LeftUpdate(b.channels, c, Running);
    case Finish(c) => LeftUpdate(b.channels, c, Finished);
    case WaitAll =>
    case GrantAll =>
  }

  // The barrier never blocks for good: a benchmark that has not ended can take
  // a step, and every step brings the end nearer.
  lemma NeverStuck(b: Benchmark) returns (e: Event)
    requires Inv(b) && !b.final.Granted?
    ensures Enabled(b, e) && Remaining(Step(b, e)) < Remaining(b)
  {
    CountNone(b.channels);
    if c: nat :| c < |b.channels| && b.channels[c].Running? {
      e := Finish(c);
    } else if c: nat :| c < |b.channels| && b.channels[c].Waiting? {
      assert CountRunning(b.channels) == 0;
      e := Start(c);
    } else if b.final.NotYet? {
      e := WaitAll;
    } else {
      assert CountRunning(b.channels) == 0;
      e := GrantAll;
    }
    StepProgress(b, e);
  }

  // Every run can be completed.
  lemma {:induction false} Completes(b: Benchmark) returns (evs: seq<Event>)
    requires Inv(b)
    ensures IsRun(b, evs) && RunFrom(b, evs).final.Granted?
    decreases Remaining(b)
  {
    if b.final.Granted? {
      evs := [];
    } else {
      var e := NeverStuck(b);
      StepInv(b, e);
      var more := Completes(Step(b, e));
      evs := [e] + more;
      assert evs[1..] == more;
    }
  }
}
