// reconnect_backoff and the retry of reconnect_client::connect().

module Backoff {
  import opened Bytes

  const TABLE: seq<uint16> := [0, 1, 3, 5, 10, 20, 30, 60, 300, 600, 1800]

  predicate InTable(b: uint16) { b in TABLE }

  // operator++: one more than the value, clamped up to the table.
  method Increment(b: uint16) returns (r: uint16)
    ensures InTable(r)
    ensures b < 1800 ==> b < r && forall x :: InTable(x) && b < x ==> r <= x
    ensures 1800 <= b < 0xFFFF ==> r == 1800
    ensures b == 0xFFFF ==> r == 0
  {
    var next: uint16 := if b == 0xFFFF then 0 else b + 1;
    assert TABLE[0] == 0 && TABLE[10] == 1800;
    for i := 0 to |TABLE|
      invariant forall j :: 0 <= j < i ==> TABLE[j] < next
    {
      if next <= TABLE[i] {
        r := TABLE[i];
        assert forall x :: InTable(x) && next <= x ==> r <= x by { TableSorted(); }
        return;
      }
    }
    r := 1800;
  }

  lemma TableSorted()
    ensures forall i, j :: 0 <= i < j < |TABLE| ==> TABLE[i] < TABLE[j]
  {}

  // The entry after a given one, and the last one after itself.
  function Next(i: nat): nat { if i < 10 then i + 1 else 10 }

  // What Increment gives on the table.
  lemma IncrementOnTable(i: nat, r: uint16)
    requires i < |TABLE| && InTable(r)
    requires TABLE[i] < 1800 ==> TABLE[i] < r && forall x :: InTable(x) && TABLE[i] < x ==> r <= x
    requires TABLE[i] == 1800 ==> r == 1800
    ensures r == TABLE[Next(i)]
  {
    TableSorted();
    assert InTable(TABLE[Next(i)]);
    if i < 10 {
      var k :| 0 <= k < |TABLE| && TABLE[k] == r;
      assert TABLE[10] == 1800;
      assert k > i && r <= TABLE[i + 1];
    } else {
      assert TABLE[10] == 1800;
    }
  }

  // The wait after so many failures in a row.
  function Seconds(failures: nat): uint16 {
    match failures
    case 0 => 0
    case 1 => 1
    case 2 => 3
    case 3 => 5
    case 4 => 10
    case 5 => 20
    case 6 => 30
    case 7 => 60
    case 8 => 300
    case 9 => 600
    case _ => 1800
  }

  lemma TableIs(n: nat)
    ensures TABLE[if n < 10 then n else 10] == Seconds(n)
  {}

  // reconnect_client: one field and one attempt per call of connect() that
  // gets as far as reconnecting.
  class ReconnectClient {
    var bo: uint16
    ghost var failures: nat   // since the last success

    ghost predicate Valid()
      reads this
    {
      bo == TABLE[if failures < 10 then failures else 10]
    }

    constructor ()
      ensures Valid() && failures == 0
    {
      bo, failures := 0, 0;
    }

    // The delay in seconds before the next attempt, if this one failed.
    method Connect(succeeds: bool) returns (delay: Option<uint16>)
      requires Valid()
      modifies this
      ensures Valid()
      ensures succeeds ==> bo == 0 && delay.None? && failures == 0
      ensures !succeeds ==> failures == old(failures) + 1 && old(bo) <= bo && delay == Some(bo) == Some(Seconds(failures))
    {
      if succeeds {
        bo, failures, delay := 0, 0, None;
      } else {
        ghost var i := if failures < 10 then failures else 10;
        TableSorted();
        var next := Increment(bo);
        assert TABLE[10] == 1800;
        assert i < 10 ==> TABLE[i] < TABLE[10];
        IncrementOnTable(i, next);
        bo := next;
        failures := failures + 1;
        TableIs(failures);
        delay := Some(bo);
      }
    }
  }
}
