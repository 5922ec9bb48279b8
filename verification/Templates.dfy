// Templates split at their placeholders, braces and newlines: what printing one
// puts out, and what it does to the nesting of the braces printed so far.

module Templates {
  import opened Bytes
  import opened Printer
  import opened Nesting
  import opened Schema

  datatype Template =
    | End
    | Text(text: string, rest: Template)
    | Var(key: Key, rest: Template)
    | Open(rest: Template)
    | Close(rest: Template)
    | Break(rest: Template)

  // The template as the printer is given it.
  function Str(t: Template): string {
    match t
    case End => ""
    case Text(s, rest) => s + Str(rest)
    case Var(k, rest) => "$" + Spelled(k) + "$" + Str(rest)
    case Open(rest) => "{" + Str(rest)
    case Close(rest) => "}" + Str(rest)
    case Break(rest) => "\n" + Str(rest)
  }

  // The text in between holds none of the special characters.
  predicate Proper(t: Template) {
    match t
    case End => true
    case Text(s, rest) => Bare(s) && Proper(rest)
    case Var(_, rest) => Proper(rest)
    case Open(rest) => Proper(rest)
    case Close(rest) => Proper(rest)
    case Break(rest) => Proper(rest)
  }

  // ---------- What is put out ----------

  // The template with each placeholder's value in its place, up to the first
  // one that has none: from there on it is left as it stands.
  function Fill(b: Bindings, t: Template): string {
    match t
    case End => ""
    case Text(s, rest) => s + Fill(b, rest)
    case Var(k, rest) => if k in b then b[k] + Fill(b, rest) else Str(t)
    case Open(rest) => "{" + Fill(b, rest)
    case Close(rest) => "}" + Fill(b, rest)
    case Break(rest) => "\n" + Fill(b, rest)
  }

  lemma FillBreak(b: Bindings)
    ensures Fill(b, Break(End)) == "\n"
  {
    assert Fill(b, Break(End)) == "\n" + Fill(b, End);
  }

  lemma FillVar(b: Bindings, s: string, k: Key, rest: Template)
    requires k in b
    ensures Fill(b, Text(s, Var(k, rest))) == s + (b[k] + Fill(b, rest))
  {}

  lemma FillLine(b: Bindings, s: string, rest: Template)
    ensures Fill(b, Text(s, Break(rest))) == s + ("\n" + Fill(b, rest))
    ensures Fill(b, Text(s, Break(End))) == s + "\n"
  {
    FillBreak(b);
  }

  lemma FillNext(b: Bindings, rest: Template)
    ensures Fill(b, Break(rest)) == "\n" + Fill(b, rest)
  {}

  function Keys(t: Template): set<Key> {
    match t
    case End => {}
    case Text(_, rest) => Keys(rest)
    case Var(k, rest) => {k} + Keys(rest)
    case Open(rest) => Keys(rest)
    case Close(rest) => Keys(rest)
    case Break(rest) => Keys(rest)
  }

  // Every placeholder has a value.
  predicate Bound(b: Bindings, t: Template) { Keys(t) <= b.Keys }

  // Then no escape character is left.
  lemma {:induction false} FillClean(b: Bindings, t: Template)
    requires Proper(t) && Bound(b, t)
    ensures '$' !in Fill(b, t)
    decreases t
  {
    match t
    case End =>
    case Text(_, rest) => FillClean(b, rest);
    case Var(k, rest) =>
      FillClean(b, rest);
      assert k in Keys(t) && Bare(b[k]);
    case Open(rest) => FillClean(b, rest);
    case Close(rest) => FillClean(b, rest);
    case Break(rest) => FillClean(b, rest);
  }

  lemma ExpandVar(vars: Vars, k: string, r: string)
    requires '$' !in k
    ensures Expand('$', vars, "$" + k + "$" + r)
            == if k in vars then vars[k] + Expand('$', vars, r) else "$" + k + "$" + r
  {
    hide Placeholder, Expand;
    var s, q := "$" + k + "$" + r, |k| + 1;
    assert s[1..q] == k && s[q + 1..] == r && s[..0] == "";
    ExpandOnce('$', vars, s);
    if k in vars {
      PlaceholderIs('$', vars, s, 0, q);
    } else {
      PlaceholderUnknown(vars, s, q);
    }
  }

  lemma PlaceholderUnknown(vars: Vars, s: string, q: nat)
    requires 0 < q < |s| && s[0] == '$' && s[q] == '$' && '$' !in s[1..q] && s[1..q] !in vars
    ensures Placeholder('$', vars, s).None?
  {
    hide Find;
    assert s[0..0] == "";
    FindIs('$', s, 0, 0);
    FindIs('$', s, 1, q);
  }

  lemma BareClean(s: string)
    requires Bare(s)
    ensures '$' !in s
  {}

  // The printer's substitution fills a template in, piece by piece.
  lemma {:induction false} ExpandIsFill(b: Bindings, t: Template)
    requires Proper(t)
    ensures Expand('$', VarsOf(b), Str(t)) == Fill(b, t)
    decreases t
  {
    hide Placeholder, Expand, Spelled, Bare, VarsOf;
    var vars := VarsOf(b);
    match t
    case End => ExpandEmpty(vars);
    case Text(s, rest) =>
      ExpandIsFill(b, rest);
      BareClean(s);
      ExpandPrefix('$', vars, s, Str(rest));
    case Var(k, rest) =>
      ExpandIsFill(b, rest);
      SpelledBare(k);
      BareClean(Spelled(k));
      VarsAre(b, k);
      ExpandVar(vars, Spelled(k), Str(rest));
    case Open(rest) =>
      ExpandIsFill(b, rest);
      ExpandPrefix('$', vars, "{", Str(rest));
    case Close(rest) =>
      ExpandIsFill(b, rest);
      ExpandPrefix('$', vars, "}", Str(rest));
    case Break(rest) =>
      ExpandIsFill(b, rest);
      ExpandPrefix('$', vars, "\n", Str(rest));
  }

  lemma ExpandEmpty(vars: Vars)
    ensures Expand('$', vars, "") == ""
  {
    PlainWhole('$', vars, "");
  }

  // ---------- Braces ----------

  // How many open braces a template must find so that it closes none that is
  // not there, and by how many it changes their number.
  function Need(t: Template): nat {
    match t
    case End => 0
    case Text(_, rest) => Need(rest)
    case Var(_, rest) => Need(rest)
    case Open(rest) => if Need(rest) == 0 then 0 else Need(rest) - 1
    case Close(rest) => Need(rest) + 1
    case Break(rest) => Need(rest)
  }

  function Delta(t: Template): int {
    match t
    case End => 0
    case Text(_, rest) => Delta(rest)
    case Var(_, rest) => Delta(rest)
    case Open(rest) => Delta(rest) + 1
    case Close(rest) => Delta(rest) - 1
    case Break(rest) => Delta(rest)
  }

  predicate Moves(t: Template, need: nat, delta: int) {
    Proper(t) && Need(t) == need && Delta(t) == delta
  }

  // The templates in use, by what they need and change.
  type Flat = t: Template | Moves(t, 0, 0) witness End
  type Opens = t: Template | Moves(t, 0, 1) witness Open(End)
  type OpensTwo = t: Template | Moves(t, 0, 2) witness Open(Open(End))
  type Closes = t: Template | Moves(t, 1, -1) witness Close(End)
  type ClosesTwo = t: Template | Moves(t, 2, -2) witness Close(Close(End))

  // The pieces that the templates are put together from.
  function T(s: string, rest: Template): (r: Template)
    requires Bare(s) && Proper(rest)
    ensures Moves(r, Need(rest), Delta(rest)) && Keys(r) == Keys(rest)
  {
    Text(s, rest)
  }

  function V(k: Key, rest: Template): (r: Template)
    requires Proper(rest)
    ensures Moves(r, Need(rest), Delta(rest)) && Keys(r) == {k} + Keys(rest)
  {
    Var(k, rest)
  }

  function O(rest: Template): (r: Template)
    requires Proper(rest)
    ensures Moves(r, if Need(rest) == 0 then 0 else Need(rest) - 1, Delta(rest) + 1) && Keys(r) == Keys(rest)
  {
    Open(rest)
  }

  function C(rest: Template): (r: Template)
    requires Proper(rest)
    ensures Moves(r, Need(rest) + 1, Delta(rest) - 1) && Keys(r) == Keys(rest)
  {
    Close(rest)
  }

  function B(rest: Template): (r: Template)
    requires Proper(rest)
    ensures Moves(r, Need(rest), Delta(rest)) && Keys(r) == Keys(rest)
  {
    Break(rest)
  }

  // On the text itself: from any depth at which it closes nothing that is not
  // open, the template changes the depth by its delta, and from a lower one it
  // does close too much.
  lemma {:induction false} TemplateNests(d: nat, t: Template)
    requires Proper(t)
    ensures Nest(d, Str(t)) == if d >= Need(t) then d + Delta(t) else -1
    decreases t
  {
    hide Spelled;
    match t
    case End =>
    case Text(s, rest) =>
      NestPlainFirst(d, s, Str(rest));
      TemplateNests(d, rest);
    case Var(k, rest) =>
      SpelledBare(k);
      NestPlainFirst(d, "$" + Spelled(k) + "$", Str(rest));
      TemplateNests(d, rest);
    case Open(rest) =>
      NestConcat(d, "{", Str(rest));
      TemplateNests(d + 1, rest);
    case Close(rest) =>
      NestConcat(d, "}", Str(rest));
      if d > 0 { TemplateNests(d - 1, rest); }
    case Break(rest) =>
      NestPlainFirst(d, "\n", Str(rest));
      TemplateNests(d, rest);
  }
}
