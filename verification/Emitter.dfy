// Printing with an account of the braces that are open.

module Emitter {
  import opened Bytes
  import opened Printer
  import opened Nesting
  import opened Templates
  import opened Schema

  ghost predicate Ready(p: SmfPrinter)
    reads p
  {
    p.Valid() && p.escape == '$' && Plain([p.indentChar]) && p.indentChar != '$' && Depth(p) >= 0 && '$' !in p.out
  }

  lemma ReadyFacts(p: SmfPrinter)
    requires Ready(p)
    ensures 0 <= p.low <= p.indent && Depth(p) >= 0
  {}

  // The braces open in what has been printed, or -1 if too many were closed.
  ghost function Depth(p: SmfPrinter): int
    reads p
  {
    Nest(0, p.out)
  }

  // b starts with a.
  ghost predicate Extends(a: string, b: string) { a <= b }

  lemma ExtendsSelf(a: string)
    ensures Extends(a, a)
  {}

  lemma ExtendsTrans(a: string, b: string, c: string)
    requires Extends(a, b) && Extends(b, c)
    ensures Extends(a, c)
  {}

  lemma ExtendsMore(o: string, a: string, x: string)
    requires Extends(o, a)
    ensures Extends(o, a + x)
  {}

  // The indentation of a line at a level.
  function Margin(c: char, step: nat, level: int): string { Fillers(c, level * step) }

  lemma PaddingPlain(p: SmfPrinter)
    requires Plain([p.indentChar])
    ensures Plain(p.Padding())
  {
    assert [p.indentChar][0] == p.indentChar;
    assert forall i :: 0 <= i < |p.Padding()| ==> p.Padding()[i] == p.indentChar;
  }

  // print(vars, string_template)
  method Emit(p: SmfPrinter, b: Bindings, t: Template, ghost need: nat, ghost delta: int)
    requires Ready(p) && Keys(t) <= b.Keys && Moves(t, need, delta) && need <= Depth(p)
    modifies p`out
    ensures Ready(p) && Depth(p) == old(Depth(p)) + delta
    ensures p.out == old(p.out) + Indented(Margin(p.indentChar, p.indentStep, p.indent), Fill(b, t))
    ensures forall o :: Extends(o, old(p.out)) ==> Extends(o, p.out)
  {
    hide Nest, Indented, Expand, Str, Plain, Proper, Need, Delta, PlainVars, CleanValues, Result, VarsOf, Fillers, Fill, Keys, Extends;
    var vars := VarsOf(b);
    VarsPlain(b);
    PaddingPlain(p);
    DollarPlain();
    CleanResult('$', vars, Str(t));
    ghost var before, pad := p.out, p.Padding();
    p.Print(vars, Str(t));
    assert p.Padding() == pad;
    NestConcat(0, before, Indented(pad, Result('$', vars, Str(t))));
    PrintNests(Nest(0, before), '$', vars, pad, Str(t));
    TemplateNests(Nest(0, before), t);
    NeedEnough(t);
    ExpandIsFill(b, t);
    FillClean(b, t);
    IndentedAbsent('$', pad, Fill(b, t));
    forall o | Extends(o, before) ensures Extends(o, p.out) { ExtendsMore(o, before, Indented(pad, Fill(b, t))); }
  }

  lemma DollarPlain()
    ensures Plain(['$'])
  {}

  lemma {:induction false} NeedEnough(t: Template)
    ensures Need(t) + Delta(t) >= 0
  {
    match t
    case End =>
    case Text(_, rest) => NeedEnough(rest);
    case Var(_, rest) => NeedEnough(rest);
    case Open(rest) => NeedEnough(rest);
    case Close(rest) => NeedEnough(rest);
    case Break(rest) => NeedEnough(rest);
  }

  // print(s)
  method EmitText(p: SmfPrinter, t: Template, ghost need: nat, ghost delta: int)
    requires Ready(p) && Keys(t) == {} && Moves(t, need, delta) && need <= Depth(p)
    modifies p`out
    ensures Ready(p) && Depth(p) == old(Depth(p)) + delta
    ensures p.out == old(p.out) + Indented(Margin(p.indentChar, p.indentStep, p.indent), Str(t))
    ensures forall o :: Extends(o, old(p.out)) ==> Extends(o, p.out)
  {
    hide Nest, Indented, Str, Plain, Proper, Need, Delta, Fillers, Keys, Extends;
    PaddingPlain(p);
    ghost var before, pad := p.out, p.Padding();
    p.PrintText(Str(t));
    assert p.Padding() == pad;
    NestConcat(0, before, Indented(pad, Str(t)));
    NestIndented(Nest(0, before), pad, Str(t));
    TemplateNests(Nest(0, before), t);
    NeedEnough(t);
    StrClean(t);
    IndentedAbsent('$', pad, Str(t));
    forall o | Extends(o, before) ensures Extends(o, p.out) { ExtendsMore(o, before, Indented(pad, Str(t))); }
  }

  lemma {:induction false} StrClean(t: Template)
    requires Proper(t)
    ensures '$' in Str(t) ==> Keys(t) != {}
    decreases t
  {
    match t
    case End =>
    case Text(_, rest) => StrClean(rest);
    case Var(k, rest) => assert k in Keys(t);
    case Open(rest) => StrClean(rest);
    case Close(rest) => StrClean(rest);
    case Break(rest) => StrClean(rest);
  }

  // ---------- Lines ----------

  lemma OneLine(margin: string, line: string)
    requires '\n' !in line
    ensures Indented(margin, line + "\n") == margin + (line + "\n")
  {
    hide Find;
    var s := line + "\n";
    assert s[0..|line|] == line;
    FindIs('\n', s, 0, |line|);
    IndentLast(margin, s);
  }

  lemma FirstLine(margin: string, line: string, rest: string)
    requires '\n' !in line && rest != ""
    ensures Indented(margin, line + ("\n" + rest)) == margin + (line + "\n") + Indented(margin, rest)
  {
    hide Find;
    var s := line + ("\n" + rest);
    assert s[0..|line|] == line;
    FindIs('\n', s, 0, |line|);
    IndentMore(margin, s, |line|);
    assert s[..|line| + 1] == line + "\n" && s[|line| + 1..] == rest;
  }

  lemma NameLine(s: Name)
    ensures '\n' !in s
  {}

  // ---------- Levels ----------

  method Indent(p: SmfPrinter)
    requires Ready(p)
    modifies p`indent
    ensures Ready(p) && p.indent == old(p.indent) + 1 && Depth(p) == old(Depth(p))
  {
    hide Nest, Plain;
    p.Indent();
  }

  method Outdent(p: SmfPrinter)
    requires Ready(p) && p.indent > 0
    modifies p`indent, p`low
    ensures Ready(p) && p.indent == old(p.indent) - 1 && Depth(p) == old(Depth(p))
    ensures p.low == if p.indent < old(p.low) then p.indent else old(p.low)
  {
    hide Nest, Plain;
    p.Outdent();
  }
}
