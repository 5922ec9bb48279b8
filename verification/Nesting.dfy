// The nesting of braces in generated code is that of the templates.

module Nesting {
  import opened Bytes
  import opened Printer

  predicate Plain(s: string) { forall i :: 0 <= i < |s| ==> s[i] != '{' && s[i] != '}' }

  // The depth of braces after s, starting at depth d; -1 once a closing brace
  // had no partner.
  function Nest(d: int, s: string): int
    decreases |s|
  {
    if d < 0 then -1
    else if s == "" then d
    else Nest(if s[0] == '{' then d + 1 else if s[0] == '}' then d - 1 else d, s[1..])
  }

  lemma {:induction false} NestConcat(d: int, a: string, b: string)
    ensures Nest(d, a + b) == Nest(Nest(d, a), b)
    decreases |a|
  {
    if a == "" {
      assert a + b == b;
    } else if d >= 0 {
      assert (a + b)[1..] == a[1..] + b;
      NestConcat(if a[0] == '{' then d + 1 else if a[0] == '}' then d - 1 else d, a[1..], b);
    }
  }

  lemma {:induction false} NestPlain(d: int, s: string)
    requires Plain(s) && d >= 0
    ensures Nest(d, s) == d
    decreases |s|
  {
    if s != "" { NestPlain(d, s[1..]); }
  }

  lemma NestPlainFirst(d: int, a: string, b: string)
    requires Plain(a)
    ensures Nest(d, a + b) == Nest(d, b)
  {
    NestConcat(d, a, b);
    if d >= 0 { NestPlain(d, a); }
  }

  // Indentation does not affect the nesting.
  lemma {:induction false} NestPad(d: int, pad: string, ls: seq<string>)
    requires Plain(pad)
    ensures Nest(d, Concat(Pad(pad, ls))) == Nest(d, Concat(ls))
    decreases |ls|
  {
    if ls != [] {
      var rest := Concat(Pad(pad, ls[1..]));
      assert Concat(Pad(pad, ls)) == pad + (ls[0] + rest);
      NestPlainFirst(d, pad, ls[0] + rest);
      NestConcat(d, ls[0], rest);
      NestConcat(d, ls[0], Concat(ls[1..]));
      NestPad(Nest(d, ls[0]), pad, ls[1..]);
    }
  }

  lemma NestIndented(d: int, pad: string, s: string)
    requires Plain(pad)
    ensures Nest(d, Indented(pad, s)) == Nest(d, s)
  {
    NestPad(d, pad, Lines(s));
    LinesConcat(s);
  }

  // Neither does the substitution of names without braces.
  ghost predicate PlainVars(vars: Vars) {
    forall k :: k in vars ==> Plain(k) && Plain(vars[k])
  }

  lemma PlainWrapped(esc: char, k: string)
    requires Plain([esc]) && Plain(k)
    ensures Plain([esc] + k + [esc])
  {
    assert [esc][0] == esc;
  }

  lemma NestReplace(d: int, a: string, w: string, v: string, r: string, x: string)
    requires Plain(w) && Plain(v) && Nest(Nest(d, a), x) == Nest(Nest(d, a), r)
    ensures Nest(d, a + v + x) == Nest(d, a + (w + r))
  {
    hide Nest;
    assert a + v + x == a + (v + x);
    NestConcat(d, a, w + r);
    NestConcat(d, a, v + x);
    NestPlainFirst(Nest(d, a), w, r);
    NestPlainFirst(Nest(d, a), v, x);
  }

  lemma {:induction false} NestIterate(d: int, esc: char, vars: Vars, s: string, n: nat)
    requires PlainVars(vars) && Plain([esc]) && EndsIn(esc, vars, s, n)
    ensures Nest(d, Iterate(esc, vars, s, n)) == Nest(d, s)
    decreases n
  {
    hide Placeholder, Nest, PlainVars;
    match Placeholder(esc, vars, s)
    case None =>
    case Some((p, q)) =>
      NestTurn(d, esc, vars, s);
      NestIterate(d, esc, vars, Replace(vars, s, p, q), n - 1);
  }

  lemma NestTurn(d: int, esc: char, vars: Vars, s: string)
    requires PlainVars(vars) && Plain([esc]) && Placeholder(esc, vars, s).Some?
    ensures var (p, q) := Placeholder(esc, vars, s).value; Nest(d, Replace(vars, s, p, q)) == Nest(d, s)
  {
    hide Placeholder, Nest;
    var (p, q) := Placeholder(esc, vars, s).value;
    var a, k, r := s[..p], s[p + 1..q], s[q + 1..];
    var w := [esc] + k + [esc];
    assert s == a + (w + r);
    PlainWrapped(esc, k);
    NestReplace(d, a, w, vars[k], r, r);
  }

  // Whatever is printed, with its placeholders replaced and its lines
  // indented, nests braces exactly as the template does.
  lemma PrintNests(d: int, esc: char, vars: Vars, pad: string, template: string)
    requires PlainVars(vars) && Plain([esc]) && Plain(pad) && Ends(esc, vars, template)
    ensures Nest(d, Indented(pad, Result(esc, vars, template))) == Nest(d, template)
  {
    hide Nest, Indented, Iterate, EndsIn, Result, PlainVars;
    NestIndented(d, pad, Result(esc, vars, template));
    var n: nat :| EndsIn(esc, vars, template, n);
    ResultIs(esc, vars, template, n);
    NestIterate(d, esc, vars, template, n);
  }
}
