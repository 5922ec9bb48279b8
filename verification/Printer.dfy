// smf_printer: placeholder substitution and indented printing.

module Printer {
  import opened Bytes

  type Vars = map<string, string>

  function Count(c: char, s: string): nat {
    if s == "" then 0 else (if s[0] == c then 1 else 0) + Count(c, s[1..])
  }

  lemma {:induction false} CountConcat(c: char, a: string, b: string)
    ensures Count(c, a + b) == Count(c, a) + Count(c, b)
  {
    if a == "" {
      assert a + b == b;
    } else {
      assert (a + b)[1..] == a[1..] + b;
      CountConcat(c, a[1..], b);
    }
  }

  lemma {:induction false} CountAbsent(c: char, s: string)
    ensures Count(c, s) == 0 <==> c !in s
  {
    if s != "" { CountAbsent(c, s[1..]); }
  }

  // std::string::find and strchr: the first occurrence from a position on.
  function Find(c: char, s: string, from: nat): (r: Option<nat>)
    ensures r.Some? ==> from <= r.value < |s| && s[r.value] == c && c !in s[from..r.value]
    ensures r.None? && from <= |s| ==> c !in s[from..]
    decreases |s| - from
  {
    if from >= |s| then None
    else if s[from] == c then Some(from)
    else Find(c, s, from + 1)
  }

  // ---------- Substitution ----------

  // The next placeholder that can be replaced, as the positions of its two
  // escape characters; none if it is not closed or not known.
  function Placeholder(esc: char, vars: Vars, s: string): (r: Option<(nat, nat)>)
    ensures r.Some? ==>
              && r.value.0 < r.value.1 < |s|
              && esc !in s[..r.value.0] && s[r.value.0] == esc
              && esc !in s[r.value.0 + 1..r.value.1] && s[r.value.1] == esc
              && s[r.value.0 + 1..r.value.1] in vars
  {
    match Find(esc, s, 0)
    case None => None
    case Some(p) =>
      match Find(esc, s, p + 1)
      case None => None
      case Some(q) =>
        assert s[0..p] == s[..p];
        if s[p + 1..q] in vars then Some((p, q)) else None
  }

  // One turn of the substitution loop.
  function Replace(vars: Vars, s: string, p: nat, q: nat): string
    requires p < q < |s| && s[p + 1..q] in vars
  {
    s[..p] + vars[s[p + 1..q]] + s[q + 1..]
  }

  // The intended meaning: one pass from left to right that stops at the first
  // placeholder that is unclosed or unknown.
  function Expand(esc: char, vars: Vars, s: string): string
    decreases |s|
  {
    match Placeholder(esc, vars, s)
    case None => s
    case Some((p, q)) => s[..p] + vars[s[p + 1..q]] + Expand(esc, vars, s[q + 1..])
  }

  // No value brings in an escape character.
  predicate CleanValues(esc: char, vars: Vars) {
    forall k :: k in vars ==> esc !in vars[k]
  }

  // Each turn removes two escape characters and adds those of the value.
  lemma ReplaceCount(esc: char, vars: Vars, s: string)
    requires Placeholder(esc, vars, s).Some?
    ensures var (p, q) := Placeholder(esc, vars, s).value;
            Count(esc, Replace(vars, s, p, q)) == Count(esc, s) - 2 + Count(esc, vars[s[p + 1..q]])
  {
    var (p, q) := Placeholder(esc, vars, s).value;
    var a, k, r := s[..p], s[p + 1..q], s[q + 1..];
    assert s == (((a + [esc]) + k) + [esc]) + r;
    CountConcat(esc, ((a + [esc]) + k) + [esc], r);
    CountConcat(esc, (a + [esc]) + k, [esc]);
    CountConcat(esc, a + [esc], k);
    CountConcat(esc, a, [esc]);
    CountConcat(esc, a + vars[k], r);
    CountConcat(esc, a, vars[k]);
    CountAbsent(esc, k);
    hide Count;
    assert Count(esc, [esc]) == 1 by { OneChar(esc); }
  }

  lemma OneChar(esc: char)
    ensures Count(esc, [esc]) == 1
  {}

  lemma {:induction false} FindIs(c: char, s: string, from: nat, q: nat)
    requires from <= q < |s| && s[q] == c && c !in s[from..q]
    ensures Find(c, s, from) == Some(q)
    decreases q - from
  {
    if from < q {
      assert s[from] == s[from..q][0] && s[from + 1..q] == s[from..q][1..];
      FindIs(c, s, from + 1, q);
    }
  }

  lemma PlaceholderIs(esc: char, vars: Vars, s: string, p: nat, q: nat)
    requires p < q < |s| && esc !in s[..p] && s[p] == esc && esc !in s[p + 1..q] && s[q] == esc
    requires s[p + 1..q] in vars
    ensures Placeholder(esc, vars, s) == Some((p, q))
  {
    hide Find;
    assert s[0..p] == s[..p];
    FindIs(esc, s, 0, p);
    FindIs(esc, s, p + 1, q);
  }

  lemma PlaceholderPrefix(esc: char, vars: Vars, a: string, r: string)
    requires esc !in a
    ensures Placeholder(esc, vars, a + r)
            == match Placeholder(esc, vars, r)
               case None => None
               case Some((p, q)) => Some((|a| + p, |a| + q))
  {
    hide Placeholder;
    var s, n := a + r, |a|;
    match Placeholder(esc, vars, r)
    case Some((p, q)) =>
      assert s[..n + p] == a + r[..p] && s[n + p + 1..n + q] == r[p + 1..q];
      PlaceholderIs(esc, vars, s, n + p, n + q);
    case None =>
      if Placeholder(esc, vars, s).Some? {
        var (p, q) := Placeholder(esc, vars, s).value;
        assert p >= n;
        assert s[..p] == a + r[..p - n];
        assert forall i :: p < i < q ==> s[i] == r[i - n];
        assert s[p + 1..q] == r[p - n + 1..q - n];
        PlaceholderIs(esc, vars, r, p - n, q - n);
      }
  }

  lemma ExpandOnce(esc: char, vars: Vars, s: string)
    ensures Expand(esc, vars, s) == match Placeholder(esc, vars, s)
            case None => s
            case Some((p, q)) => s[..p] + vars[s[p + 1..q]] + Expand(esc, vars, s[q + 1..])
  {
    hide Placeholder;
  }

  // Text without escape characters is passed over.
  lemma {:induction false} ExpandPrefix(esc: char, vars: Vars, a: string, r: string)
    requires esc !in a
    ensures Expand(esc, vars, a + r) == a + Expand(esc, vars, r)
  {
    hide Placeholder, Expand;
    PlaceholderPrefix(esc, vars, a, r);
    ExpandOnce(esc, vars, a + r);
    ExpandOnce(esc, vars, r);
    match Placeholder(esc, vars, r)
    case None =>
    case Some((p, q)) =>
      var s := a + r;
      assert s[|a| + p + 1..|a| + q] == r[p + 1..q];
      assert s[..|a| + p] == a + r[..p];
      assert s[|a| + q + 1..] == r[q + 1..];
  }

  // A turn of the loop does not change what remains to be expanded to.
  lemma ReplaceExpand(esc: char, vars: Vars, s: string)
    requires CleanValues(esc, vars) && Placeholder(esc, vars, s).Some?
    ensures var (p, q) := Placeholder(esc, vars, s).value;
            Expand(esc, vars, Replace(vars, s, p, q)) == Expand(esc, vars, s)
  {
    hide Placeholder, Expand, Count;
    var (p, q) := Placeholder(esc, vars, s).value;
    var a, v, r := s[..p], vars[s[p + 1..q]], s[q + 1..];
    ExpandOnce(esc, vars, s);
    assert esc !in a + v;
    ExpandPrefix(esc, vars, a + v, r);
  }

  // ---------- When the loop ends ----------

  // The loop stops after at most n turns.
  ghost predicate EndsIn(esc: char, vars: Vars, s: string, n: nat)
    decreases n
  {
    match Placeholder(esc, vars, s)
    case None => true
    case Some((p, q)) => n > 0 && EndsIn(esc, vars, Replace(vars, s, p, q), n - 1)
  }

  ghost predicate Ends(esc: char, vars: Vars, s: string) {
    exists n: nat :: EndsIn(esc, vars, s, n)
  }

  // Replacing from the start of the string as long as there is something to
  // replace.
  ghost function Iterate(esc: char, vars: Vars, s: string, n: nat): (r: string)
    requires EndsIn(esc, vars, s, n)
    ensures Placeholder(esc, vars, r).None?
    decreases n
  {
    match Placeholder(esc, vars, s)
    case None => s
    case Some((p, q)) => Iterate(esc, vars, Replace(vars, s, p, q), n - 1)
  }

  lemma {:induction false} IterateUnique(esc: char, vars: Vars, s: string, m: nat, n: nat)
    requires EndsIn(esc, vars, s, m) && EndsIn(esc, vars, s, n)
    ensures Iterate(esc, vars, s, m) == Iterate(esc, vars, s, n)
    decreases m
  {
    hide Placeholder, Replace;
    match Placeholder(esc, vars, s)
    case None =>
    case Some((p, q)) => IterateUnique(esc, vars, Replace(vars, s, p, q), m - 1, n - 1);
  }

  // What the loop leaves, for every template on which it comes to an end.
  ghost function Result(esc: char, vars: Vars, s: string): (r: string)
    requires Ends(esc, vars, s)
    ensures Placeholder(esc, vars, r).None?
  {
    var n: nat :| EndsIn(esc, vars, s, n);
    Iterate(esc, vars, s, n)
  }

  lemma ResultIs(esc: char, vars: Vars, s: string, n: nat)
    requires EndsIn(esc, vars, s, n)
    ensures Ends(esc, vars, s) && Result(esc, vars, s) == Iterate(esc, vars, s, n)
  {
    hide Placeholder, EndsIn, Iterate;
    assert Ends(esc, vars, s);
    var m: nat :| EndsIn(esc, vars, s, m) && Result(esc, vars, s) == Iterate(esc, vars, s, m);
    IterateUnique(esc, vars, s, m, n);
  }

  lemma {:induction false} EndsLater(esc: char, vars: Vars, s: string, m: nat, n: nat)
    requires EndsIn(esc, vars, s, m) && m <= n
    ensures EndsIn(esc, vars, s, n)
    decreases m
  {
    hide Placeholder, Replace;
    match Placeholder(esc, vars, s)
    case None =>
    case Some((p, q)) => EndsLater(esc, vars, Replace(vars, s, p, q), m - 1, n - 1);
  }

  // No value brings in more than one escape character: the loop ends on every
  // template, since each turn removes more of them than it brings in.
  ghost predicate BoundedValues(esc: char, vars: Vars) {
    forall k :: k in vars ==> Count(esc, vars[k]) <= 1
  }

  lemma {:induction false} BoundedEnds(esc: char, vars: Vars, s: string)
    requires BoundedValues(esc, vars)
    ensures EndsIn(esc, vars, s, Count(esc, s))
    decreases Count(esc, s)
  {
    hide Placeholder, Count, Replace;
    match Placeholder(esc, vars, s)
    case None =>
    case Some((p, q)) =>
      ReplaceCount(esc, vars, s);
      var t := Replace(vars, s, p, q);
      BoundedEnds(esc, vars, t);
      EndsLater(esc, vars, t, Count(esc, t), Count(esc, s) - 1);
  }

  lemma CleanIsBounded(esc: char, vars: Vars)
    requires CleanValues(esc, vars)
    ensures BoundedValues(esc, vars)
  {
    forall k | k in vars ensures Count(esc, vars[k]) <= 1 { CountAbsent(esc, vars[k]); }
  }

  // For values without escape characters the loop, which starts over after
  // every replacement, is the one pass from left to right.
  lemma {:induction false} IterateIsExpand(esc: char, vars: Vars, s: string, n: nat)
    requires CleanValues(esc, vars) && EndsIn(esc, vars, s, n)
    ensures Iterate(esc, vars, s, n) == Expand(esc, vars, s)
    decreases n
  {
    hide Placeholder, Replace;
    match Placeholder(esc, vars, s)
    case None =>
    case Some((p, q)) =>
      ReplaceExpand(esc, vars, s);
      IterateIsExpand(esc, vars, Replace(vars, s, p, q), n - 1);
  }

  lemma CleanResult(esc: char, vars: Vars, s: string)
    requires CleanValues(esc, vars)
    ensures Ends(esc, vars, s) && Result(esc, vars, s) == Expand(esc, vars, s)
  {
    hide Placeholder, EndsIn, Iterate, Expand, Count;
    CleanIsBounded(esc, vars);
    BoundedEnds(esc, vars, s);
    ResultIs(esc, vars, s, Count(esc, s));
    IterateIsExpand(esc, vars, s, Count(esc, s));
  }

  // ---------- Values that mention other placeholders ----------

  // Nothing but text and placeholders that can be replaced.
  ghost predicate Whole(esc: char, vars: Vars, v: string)
    decreases |v|
  {
    match Placeholder(esc, vars, v)
    case None => esc !in v
    case Some((_, q)) => Whole(esc, vars, v[q + 1..])
  }

  ghost predicate Mentions(esc: char, vars: Vars, v: string, k: string)
    decreases |v|
  {
    match Placeholder(esc, vars, v)
    case None => false
    case Some((p, q)) => v[p + 1..q] == k || Mentions(esc, vars, v[q + 1..], k)
  }

  ghost predicate WholeValues(esc: char, vars: Vars) {
    forall k :: k in vars ==> Whole(esc, vars, vars[k])
  }

  // Every value mentions only keys of lower rank than its own.
  ghost predicate Ranked(esc: char, vars: Vars, rank: map<string, nat>) {
    && rank.Keys == vars.Keys
    && forall k, m :: k in vars && m in vars && Mentions(esc, vars, vars[k], m) ==> rank[m] < rank[k]
  }

  lemma {:induction false} EndsPrefix(esc: char, vars: Vars, a: string, r: string, n: nat)
    requires esc !in a
    ensures EndsIn(esc, vars, a + r, n) <==> EndsIn(esc, vars, r, n)
    decreases n
  {
    hide Placeholder;
    PlaceholderPrefix(esc, vars, a, r);
    match Placeholder(esc, vars, r)
    case None =>
    case Some((p, q)) =>
      if n > 0 {
        var s := a + r;
        assert s[|a| + p + 1..|a| + q] == r[p + 1..q];
        assert Replace(vars, s, |a| + p, |a| + q) == a + Replace(vars, r, p, q);
        EndsPrefix(esc, vars, a, Replace(vars, r, p, q), n - 1);
      }
  }

  lemma PlaceholderAppend(esc: char, vars: Vars, a: string, r: string)
    requires Placeholder(esc, vars, a).Some?
    ensures Placeholder(esc, vars, a + r) == Placeholder(esc, vars, a)
    ensures var (p, q) := Placeholder(esc, vars, a).value;
            && (a + r)[p + 1..q] == a[p + 1..q]
            && (a + r)[q + 1..] == a[q + 1..] + r
            && Replace(vars, a + r, p, q) == Replace(vars, a, p, q) + r
  {
    hide Placeholder;
    var (p, q) := Placeholder(esc, vars, a).value;
    var s := a + r;
    assert s[..p] == a[..p] && s[p + 1..q] == a[p + 1..q] && s[q + 1..] == a[q + 1..] + r;
    PlaceholderIs(esc, vars, s, p, q);
  }

  lemma WholeOnce(esc: char, vars: Vars, v: string)
    ensures Whole(esc, vars, v) <==>
            match Placeholder(esc, vars, v)
            case None => esc !in v
            case Some((_, q)) => Whole(esc, vars, v[q + 1..])
  {
    hide Placeholder;
  }

  lemma {:induction false} WholeConcat(esc: char, vars: Vars, a: string, b: string)
    requires Whole(esc, vars, a) && Whole(esc, vars, b)
    ensures Whole(esc, vars, a + b)
    decreases |a|
  {
    hide Placeholder, Whole;
    WholeOnce(esc, vars, a);
    WholeOnce(esc, vars, b);
    WholeOnce(esc, vars, a + b);
    match Placeholder(esc, vars, a)
    case Some((p, q)) =>
      PlaceholderAppend(esc, vars, a, b);
      WholeConcat(esc, vars, a[q + 1..], b);
    case None =>
      PlaceholderPrefix(esc, vars, a, b);
      if Placeholder(esc, vars, b).Some? {
        var (p, q) := Placeholder(esc, vars, b).value;
        assert (a + b)[|a| + q + 1..] == b[q + 1..];
      }
  }

  lemma WholeReplace(esc: char, vars: Vars, a: string)
    requires WholeValues(esc, vars) && Whole(esc, vars, a) && Placeholder(esc, vars, a).Some?
    ensures var (p, q) := Placeholder(esc, vars, a).value; Whole(esc, vars, Replace(vars, a, p, q))
  {
    hide Placeholder;
    var (p, q) := Placeholder(esc, vars, a).value;
    var v := vars[a[p + 1..q]];
    PlainWhole(esc, vars, a[..p]);
    WholeConcat(esc, vars, a[..p], v);
    WholeConcat(esc, vars, a[..p] + v, a[q + 1..]);
  }

  lemma PlainWhole(esc: char, vars: Vars, a: string)
    requires esc !in a
    ensures Whole(esc, vars, a) && Placeholder(esc, vars, a).None?
  {
    hide Find;
  }

  // A whole text and what follows it are expanded one after the other.
  lemma {:induction false} EndsConcat(esc: char, vars: Vars, a: string, r: string, m: nat, n: nat)
    requires WholeValues(esc, vars) && Whole(esc, vars, a)
    requires EndsIn(esc, vars, a, m) && EndsIn(esc, vars, r, n)
    ensures EndsIn(esc, vars, a + r, m + n)
    decreases m
  {
    hide Placeholder, Replace;
    match Placeholder(esc, vars, a)
    case None =>
      EndsPrefix(esc, vars, a, r, n);
      EndsLater(esc, vars, a + r, n, m + n);
    case Some((p, q)) =>
      PlaceholderAppend(esc, vars, a, r);
      WholeReplace(esc, vars, a);
      EndsConcat(esc, vars, Replace(vars, a, p, q), r, m - 1, n);
  }

  lemma {:induction false} EndsParts(esc: char, vars: Vars, a: string, r: string, n: nat)
    requires WholeValues(esc, vars) && Whole(esc, vars, a) && EndsIn(esc, vars, a + r, n)
    ensures EndsIn(esc, vars, a, n) && EndsIn(esc, vars, r, n)
    decreases n
  {
    hide Placeholder, Replace;
    match Placeholder(esc, vars, a)
    case None => EndsPrefix(esc, vars, a, r, n);
    case Some((p, q)) =>
      PlaceholderAppend(esc, vars, a, r);
      WholeReplace(esc, vars, a);
      EndsParts(esc, vars, Replace(vars, a, p, q), r, n - 1);
      EndsLater(esc, vars, r, n - 1, n);
  }

  ghost predicate MentionsBelow(esc: char, vars: Vars, rank: map<string, nat>, v: string, bound: nat) {
    forall m :: m in vars && m in rank && Mentions(esc, vars, v, m) ==> rank[m] < bound
  }

  lemma {:induction false} WholeEnds(esc: char, vars: Vars, rank: map<string, nat>, v: string, bound: nat) returns (n: nat)
    requires WholeValues(esc, vars) && Ranked(esc, vars, rank)
    requires Whole(esc, vars, v) && MentionsBelow(esc, vars, rank, v, bound)
    ensures EndsIn(esc, vars, v, n)
    decreases bound, |v|
  {
    hide Placeholder;
    match Placeholder(esc, vars, v)
    case None => n := 0;
    case Some((p, q)) =>
      var x, k, y := v[..p], v[p + 1..q], v[q + 1..];
      assert Mentions(esc, vars, v, k);
      assert MentionsBelow(esc, vars, rank, y, bound);
      var i := WholeEnds(esc, vars, rank, vars[k], rank[k]);
      var j := WholeEnds(esc, vars, rank, y, bound);
      EndsConcat(esc, vars, vars[k], y, i, j);
      EndsPrefix(esc, vars, x, vars[k] + y, i + j);
      assert Replace(vars, v, p, q) == x + (vars[k] + y);
      n := i + j + 1;
  }

  lemma {:induction false} RankedEnds(esc: char, vars: Vars, rank: map<string, nat>, s: string) returns (n: nat)
    requires WholeValues(esc, vars) && Ranked(esc, vars, rank)
    ensures EndsIn(esc, vars, s, n)
    decreases |s|
  {
    hide Placeholder;
    match Placeholder(esc, vars, s)
    case None => n := 0;
    case Some((p, q)) =>
      var x, k, y := s[..p], s[p + 1..q], s[q + 1..];
      var i := WholeEnds(esc, vars, rank, vars[k], rank[k]);
      var j := RankedEnds(esc, vars, rank, y);
      EndsConcat(esc, vars, vars[k], y, i, j);
      EndsPrefix(esc, vars, x, vars[k] + y, i + j);
      assert Replace(vars, s, p, q) == x + (vars[k] + y);
      n := i + j + 1;
  }

  // The number of turns that a string needs.
  ghost function Turns(esc: char, vars: Vars, s: string): (n: nat)
    requires Ends(esc, vars, s)
    ensures EndsIn(esc, vars, s, n)
    ensures forall m: nat :: EndsIn(esc, vars, s, m) ==> n <= m
  {
    var m: nat :| EndsIn(esc, vars, s, m);
    Least(esc, vars, s, m)
  }

  ghost function Least(esc: char, vars: Vars, s: string, m: nat): (n: nat)
    requires EndsIn(esc, vars, s, m)
    ensures EndsIn(esc, vars, s, n)
    ensures forall k: nat :: EndsIn(esc, vars, s, k) ==> n <= k
    decreases m
  {
    if exists k: nat :: k < m && EndsIn(esc, vars, s, k)
    then var k: nat :| k < m && EndsIn(esc, vars, s, k); Least(esc, vars, s, k)
    else m
  }

  // A value takes more turns than the values of the placeholders in it.
  lemma {:induction false} MentionedEarlier(esc: char, vars: Vars, v: string, m: string, n: nat)
    requires WholeValues(esc, vars) && Whole(esc, vars, v) && EndsIn(esc, vars, v, n)
    requires m in vars && Mentions(esc, vars, v, m)
    ensures n > 0 && EndsIn(esc, vars, vars[m], n - 1)
    decreases |v|
  {
    hide Placeholder;
    var (p, q) := Placeholder(esc, vars, v).value;
    var x, k, y := v[..p], v[p + 1..q], v[q + 1..];
    assert Replace(vars, v, p, q) == x + (vars[k] + y);
    EndsPrefix(esc, vars, x, vars[k] + y, n - 1);
    EndsParts(esc, vars, vars[k], y, n - 1);
    if k != m {
      MentionedEarlier(esc, vars, y, m, n - 1);
      EndsLater(esc, vars, vars[m], n - 2, n - 1);
    }
  }

  // For values made of text and known placeholders the loop ends on every
  // template exactly when the keys can be ranked so that every value mentions
  // lower ones only.
  lemma EndsIffRanked(esc: char, vars: Vars)
    requires WholeValues(esc, vars)
    ensures (forall s :: Ends(esc, vars, s)) <==> exists rank :: Ranked(esc, vars, rank)
  {
    hide Placeholder, EndsIn, Whole, Mentions;
    if forall s :: Ends(esc, vars, s) {
      var rank := map k | k in vars :: Turns(esc, vars, vars[k]);
      forall k, m | k in vars && m in vars && Mentions(esc, vars, vars[k], m) ensures rank[m] < rank[k] {
        MentionedEarlier(esc, vars, vars[k], m, rank[k]);
      }
      assert Ranked(esc, vars, rank);
    }
    if rank :| Ranked(esc, vars, rank) {
      forall s ensures Ends(esc, vars, s) {
        var n := RankedEnds(esc, vars, rank, s);
      }
    }
  }

  // A value that contains its own placeholder makes the loop turn for ever
  // without changing the string.
  lemma SelfReferenceLoops(esc: char, key: string)
    requires esc !in key
    ensures var s := [esc] + key + [esc];
            var vars := map[key := s];
            Placeholder(esc, vars, s) == Some((0, |s| - 1)) && Replace(vars, s, 0, |s| - 1) == s
  {
    var s := [esc] + key + [esc];
    assert s[1..|s| - 1] == key;
    FindIs(esc, s, 1, |s| - 1);
  }

  // ---------- Indentation ----------

  // The lines of a string, each with its newline; a final newline does not
  // start another line, and the empty string is one empty line.
  function Lines(s: string): (r: seq<string>)
    ensures r != []
    decreases |s|
  {
    match Find('\n', s, 0)
    case None => [s]
    case Some(lf) =>
      if lf + 1 == |s| then [s] else [s[..lf + 1]] + Lines(s[lf + 1..])
  }

  function Concat(ls: seq<string>): string {
    if ls == [] then "" else ls[0] + Concat(ls[1..])
  }

  function Pad(pad: string, ls: seq<string>): seq<string> {
    if ls == [] then [] else [pad + ls[0]] + Pad(pad, ls[1..])
  }

  function Indented(pad: string, s: string): string { Concat(Pad(pad, Lines(s))) }

  // Drop n characters at the start of every line.
  function Unindent(n: nat, t: string): string
    decreases |t|
  {
    if n > |t| then t
    else
      var u := t[n..];
      match Find('\n', u, 0)
      case None => u
      case Some(lf) => u[..lf + 1] + if lf + 1 == |u| then "" else Unindent(n, u[lf + 1..])
  }

  lemma ConcatOne(l: string)
    ensures Concat([l]) == l
  {
    assert Concat([l]) == l + Concat([]);
  }

  lemma ConcatFirst(l: string, ls: seq<string>)
    ensures Concat([l] + ls) == l + Concat(ls)
  {
    assert ([l] + ls)[1..] == ls;
  }

  lemma {:induction false} LinesConcat(s: string)
    ensures Concat(Lines(s)) == s
    decreases |s|
  {
    hide Find, Concat;
    var lf := Find('\n', s, 0);
    if lf.None? || lf.value + 1 == |s| {
      ConcatOne(s);
    } else {
      var first, rest := s[..lf.value + 1], s[lf.value + 1..];
      LinesConcat(rest);
      ConcatFirst(first, Lines(rest));
      assert s == first + rest;
    }
  }

  // Every line but the last holds its newline at the end and nowhere else, the
  // last one at most there.
  lemma {:induction false} LinesShape(s: string, i: nat)
    requires i < |Lines(s)|
    ensures var l := Lines(s)[i];
            && '\n' !in l[..if l == "" then 0 else |l| - 1]
            && (i + 1 < |Lines(s)| ==> l != "" && l[|l| - 1] == '\n')
    decreases |s|
  {
    hide Find;
    var lf := Find('\n', s, 0);
    if lf.None? {
      assert s[0..] == s;
    } else if lf.value + 1 == |s| {
      assert s[0..lf.value] == s[..|s| - 1];
    } else if i == 0 {
      assert s[..lf.value + 1][..lf.value] == s[0..lf.value];
    } else {
      var rest := s[lf.value + 1..];
      assert Lines(s) == [s[..lf.value + 1]] + Lines(rest);
      LinesShape(rest, i - 1);
    }
  }

  lemma UnindentLast(n: nat, t: string)
    requires n <= |t|
    requires Find('\n', t[n..], 0).None? || Find('\n', t[n..], 0).value + 1 == |t| - n
    ensures Unindent(n, t) == t[n..]
  {
    hide Find;
    if Find('\n', t[n..], 0).Some? {
      assert t[n..][..|t| - n] == t[n..];
    }
  }

  lemma UnindentMore(pad: string, first: string, more: string)
    requires first != "" && first[|first| - 1] == '\n' && '\n' !in first[..|first| - 1] && more != ""
    ensures Unindent(|pad|, (pad + first) + more) == first + Unindent(|pad|, more)
  {
    hide Find;
    var t, u, lf := (pad + first) + more, first + more, |first| - 1;
    assert t[|pad|..] == u;
    assert u[0..lf] == first[..lf];
    FindIs('\n', u, 0, lf);
    assert u[..lf + 1] == first && u[lf + 1..] == more;
  }

  // Stripping the indentation gives the text back.
  lemma {:induction false} UnindentIndented(pad: string, s: string)
    ensures Unindent(|pad|, Indented(pad, s)) == s
    decreases |s|
  {
    hide Find, Indented, Unindent;
    var lf := Find('\n', s, 0);
    if lf.None? || lf.value + 1 == |s| {
      IndentLast(pad, s);
      assert (pad + s)[|pad|..] == s;
      UnindentLast(|pad|, pad + s);
    } else {
      var first, rest := s[..lf.value + 1], s[lf.value + 1..];
      UnindentIndented(pad, rest);
      IndentMore(pad, s, lf.value);
      IndentedNonEmpty(pad, rest);
      assert first[..|first| - 1] == s[0..lf.value];
      UnindentMore(pad, first, Indented(pad, rest));
      assert s == first + rest;
    }
  }

  lemma IndentLast(pad: string, s: string)
    requires Find('\n', s, 0).None? || Find('\n', s, 0).value + 1 == |s|
    ensures Indented(pad, s) == pad + s
  {
    hide Find;
    assert Lines(s) == [s];
    assert Pad(pad, [s]) == [pad + s] + Pad(pad, []);
    assert Concat([pad + s]) == (pad + s) + Concat([]);
  }

  lemma IndentMore(pad: string, s: string, lf: nat)
    requires Find('\n', s, 0) == Some(lf) && lf + 1 < |s|
    ensures Indented(pad, s) == (pad + s[..lf + 1]) + Indented(pad, s[lf + 1..])
  {
    hide Find;
    var more := Lines(s[lf + 1..]);
    assert Lines(s) == [s[..lf + 1]] + more;
    assert Lines(s)[1..] == more;
  }

  lemma IndentedNonEmpty(pad: string, s: string)
    requires s != ""
    ensures Indented(pad, s) != ""
  {
    IndentedLength(pad, s);
  }

  // One more than the newlines that are followed by something.
  function LineCount(s: string): nat {
    1 + if s == "" then 0 else Count('\n', s[..|s| - 1])
  }

  lemma {:induction false} LinesCount(s: string)
    ensures |Lines(s)| == LineCount(s)
    decreases |s|
  {
    match Find('\n', s, 0)
    case None =>
      if s != "" {
        assert '\n' !in s[..|s| - 1];
        CountAbsent('\n', s[..|s| - 1]);
      }
    case Some(lf) =>
      assert s[0..lf] == s[..lf];
      CountAbsent('\n', s[..lf]);
      if lf + 1 == |s| {
      } else {
        var rest := s[lf + 1..];
        LinesCount(rest);
        assert s[..|s| - 1] == (s[..lf] + ['\n']) + rest[..|rest| - 1];
        CountConcat('\n', s[..lf] + ['\n'], rest[..|rest| - 1]);
        CountConcat('\n', s[..lf], ['\n']);
        OneChar('\n');
      }
  }

  lemma {:induction false} PadLength(pad: string, ls: seq<string>)
    ensures |Concat(Pad(pad, ls))| == |Concat(ls)| + |pad| * |ls|
  {
    if ls != [] {
      PadLength(pad, ls[1..]);
      assert |pad| * |ls| == |pad| + |pad| * |ls[1..]|;
    }
  }

  // The output grows by the text and the indentation of each of its lines.
  lemma IndentedLength(pad: string, s: string)
    ensures |Indented(pad, s)| == |s| + |pad| * LineCount(s)
  {
    LinesConcat(s);
    LinesCount(s);
    PadLength(pad, Lines(s));
  }

  lemma {:induction false} PadAbsent(c: char, pad: string, ls: seq<string>)
    requires c !in pad && c !in Concat(ls)
    ensures c !in Concat(Pad(pad, ls))
  {
    if ls != [] { PadAbsent(c, pad, ls[1..]); }
  }

  // Indentation brings in nothing but itself.
  lemma IndentedAbsent(c: char, pad: string, s: string)
    requires c !in pad && c !in s
    ensures c !in Indented(pad, s)
  {
    hide Lines, Concat, Pad;
    LinesConcat(s);
    PadAbsent(c, pad, Lines(s));
  }

  // ---------- The printer object ----------

  function Fillers(c: char, n: int): (r: string)
    ensures |r| == if n < 0 then 0 else n
    ensures forall i :: 0 <= i < |r| ==> r[i] == c
  {
    seq(if n < 0 then 0 else n, _ => c)
  }

  class SmfPrinter {
    const escape: char
    var out: string
    var indent: int
    var indentChar: char
    var indentStep: uint16

    ghost var low: int   // the lowest level since the printer was made or marked

    ghost predicate Valid()
      reads this
    {
      0 <= low <= indent
    }

    // indent_ * indent_step_ fill characters.
    function Padding(): (r: string)
      reads this
      ensures r == Fillers(indentChar, indent * indentStep)
      ensures indent >= 0 ==> |r| == indent * indentStep
      ensures forall i :: 0 <= i < |r| ==> r[i] == indentChar
    {
      Fillers(indentChar, indent * indentStep)
    }

    constructor (escape: char)
      ensures Valid() && out == "" && indent == low == 0 && indentChar == ' ' && indentStep == 2 && this.escape == escape
    {
      this.escape := escape;
      out, indent, indentChar, indentStep, low := "", 0, ' ', 2, 0;
    }

    method Indent()
      requires Valid()
      modifies this`indent
      ensures Valid() && indent == old(indent) + 1
    {
      indent := indent + 1;
    }

    // The assertion in the body of outdent() is the precondition.
    method Outdent()
      requires Valid() && indent > 0
      modifies this`indent, this`low
      ensures Valid() && indent == old(indent) - 1
      ensures low == if indent < old(low) then indent else old(low)
    {
      indent := indent - 1;
      assert indent >= 0;
      low := if indent < low then indent else low;
    }

    // print(s): indentation before every line of the text.
    method PrintText(text: string)
      requires Valid()
      modifies this`out
      ensures out == old(out) + Indented(Padding(), text)
    {
      hide Indented, Find;
      var s := text;
      var pad := Padding();
      while true
        invariant pad == Padding()
        invariant out + Indented(pad, s) == old(out) + Indented(pad, text)
        decreases |s|
      {
        out := out + pad;
        match Find('\n', s, 0) {
          case None =>
            IndentLast(pad, s);
            out := out + s;
            break;
          case Some(lf) =>
            if lf + 1 == |s| {
              IndentLast(pad, s);
              assert s[..lf + 1] == s;
              out := out + s;
              break;
            }
            IndentMore(pad, s, lf);
            out := out + s[..lf + 1];
            s := s[lf + 1..];
        }
      }
    }

    // The substitution loop of print(vars, string_template), for every input
    // on which it comes to an end.
    method Substitute(vars: Vars, template: string) returns (s: string)
      requires Ends(escape, vars, template)
      ensures s == Result(escape, vars, template)
    {
      hide Placeholder, Count, Result, Replace;
      s := template;
      ghost var n: nat :| EndsIn(escape, vars, template, n);
      ResultIs(escape, vars, template, n);
      ghost var left := n;
      while true
        invariant EndsIn(escape, vars, s, left)
        invariant Iterate(escape, vars, s, left) == Iterate(escape, vars, template, n)
        decreases left
      {
        var found := Placeholder(escape, vars, s);
        if found.None? {
          break;
        }
        var (p, q) := found.value;
        s := Replace(vars, s, p, q);
        left := left - 1;
      }
    }

    method Print(vars: Vars, template: string)
      requires Valid() && Ends(escape, vars, template)
      modifies this`out
      ensures out == old(out) + Indented(Padding(), Result(escape, vars, template))
      ensures CleanValues(escape, vars) ==> out == old(out) + Indented(Padding(), Expand(escape, vars, template))
    {
      hide Placeholder, Indented, Expand, Result;
      var s := Substitute(vars, template);
      PrintText(s);
      if CleanValues(escape, vars) {
        CleanResult(escape, vars, template);
      }
    }
  }
}
