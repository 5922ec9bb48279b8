// python_generator: the print functions restore the printer's level and never
// go below it; every placeholder is replaced, and a client's method calls with
// its own request id.

module PythonGenerator {
  import opened Bytes
  import opened Printer
  import opened Nesting
  import opened Schema
  import opened Templates
  import opened Emitter
  import opened PythonTemplates
  import Ids

  const CLIENT_SUFFIX: Name := "Client"

  function ClientVars(s: Service): (r: Bindings)
    ensures r.Keys == {KClientName}
  {
    map[KClientName := Cat(Capitalized(s.name), CLIENT_SUFFIX)]
  }

  // The only generator that combines the two ids itself.
  function RequestId(service: uint32, method_: uint32): uint32 {
    Ids.Xor(service as bv32, method_ as bv32) as int
  }

  const METHOD_KEYS: set<Key> := {KMethodName, KOutType, KMethodID, KServiceID, KRequestID}

  function MethodVars(s: Service, i: nat): (r: Bindings)
    requires i < |s.methods|
    ensures r.Keys == METHOD_KEYS
  {
    var m := s.methods[i];
    map[KMethodName := Capitalized(m.name), KOutType := m.output, KMethodID := Decimal(m.id),
        KServiceID := Decimal(s.id), KRequestID := Decimal(RequestId(s.id, m.id))]
  }

  lemma MethodVarsAre(s: Service, i: nat)
    requires i < |s.methods|
    ensures var b, m := MethodVars(s, i), s.methods[i];
            && b[KMethodName] == Capitalized(m.name) && b[KOutType] == m.output
            && b[KMethodID] == Decimal(m.id) && b[KServiceID] == Decimal(s.id)
            && b[KRequestID] == Decimal(RequestId(s.id, m.id))
  {
    hide Bare, Decimal, Capitalized, RequestId;
  }

  lemma PrintClientMethodKeys()
    ensures Keys(CallDef()) <= METHOD_KEYS
    ensures Keys(RequestNote()) <= METHOD_KEYS
    ensures Keys(CallSend()) <= METHOD_KEYS
    ensures Keys(CallReturn()) <= METHOD_KEYS
  {
    hide T, V, O, C, B, Bare;
  }

  function SendLine(request: nat): string {
    "buf, status = await " + ("self._conn.call(x, " + (Decimal(request) + (")" + "\n")))
  }

  lemma SendShape()
    ensures CallSend() == Text("buf, status = await ", Text("self._conn.call(x, ", Var(KRequestID, Text(")", Break(End)))))
  {
    hide Bare;
  }

  lemma SendText(margin: string, s: Service, i: nat)
    requires i < |s.methods|
    ensures Indented(margin, Fill(MethodVars(s, i), CallSend()))
            == margin + SendLine(RequestId(s.id, s.methods[i].id))
  {
    hide Bare, Indented, Decimal, RequestId;
    var b, x := MethodVars(s, i), Decimal(RequestId(s.id, s.methods[i].id));
    SendShape();
    MethodVarsAre(s, i);
    var t := Text("self._conn.call(x, ", Var(KRequestID, Text(")", Break(End))));
    assert Fill(b, Text("buf, status = await ", t)) == "buf, status = await " + Fill(b, t);
    hide CallSend, MethodVars, Fill;
    FillLine(b, ")", End);
    FillVar(b, "self._conn.call(x, ", KRequestID, Text(")", Break(End)));
    var line := "buf, status = await " + ("self._conn.call(x, " + (x + ")"));
    SendNewline(x);
    assert SendLine(RequestId(s.id, s.methods[i].id)) == line + "\n";
    OneLine(margin, line);
  }

  lemma SendNewline(x: Name)
    ensures '\n' !in "buf, status = await " + ("self._conn.call(x, " + (x + ")"))
  {
    NameLine(x);
    hide Bare;
  }

  ghost function MethodAfter(o: string, c: char, step: nat, level: int, s: Service, i: nat): string
    requires i < |s.methods|
  {
    o + Indented(Margin(c, step, level), Fill(MethodVars(s, i), CallDef()))
    + Indented(Margin(c, step, level + 1), Fill(MethodVars(s, i), RequestNote()))
    + (Margin(c, step, level + 1) + SendLine(RequestId(s.id, s.methods[i].id)))
    + Indented(Margin(c, step, level + 1), Fill(MethodVars(s, i), CallReturn()))
  }

  lemma MethodIs(o: string, c: char, step: nat, level: int, s: Service, i: nat)
    requires i < |s.methods|
    ensures MethodAfter(o, c, step, level, s, i)
            == o + Indented(Margin(c, step, level), Fill(MethodVars(s, i), CallDef()))
               + Indented(Margin(c, step, level + 1), Fill(MethodVars(s, i), RequestNote()))
               + Indented(Margin(c, step, level + 1), Fill(MethodVars(s, i), CallSend()))
               + Indented(Margin(c, step, level + 1), Fill(MethodVars(s, i), CallReturn()))
  {
    hide Indented, Fill, Margin, MethodVars, SendLine, CallDef, RequestNote, CallSend, CallReturn, RequestId;
    SendText(Margin(c, step, level + 1), s, i);
  }

  method PrintClientMethod(p: SmfPrinter, s: Service, i: nat)
    requires Ready(p) && i < |s.methods|
    modifies p`out, p`indent, p`low
    ensures Ready(p) && p.indent == old(p.indent) && p.low == old(p.low)
    ensures Depth(p) == old(Depth(p))
    ensures forall o :: Extends(o, old(p.out)) ==> Extends(o, p.out)
    ensures p.out == MethodAfter(old(p.out), p.indentChar, p.indentStep, p.indent, s, i)
  {
    hide *;
    ReadyFacts(p);
    PrintClientMethodKeys();
    MethodIs(p.out, p.indentChar, p.indentStep, p.indent, s, i);
    var vars := MethodVars(s, i);
    Emit(p, vars, CallDef(), 0, 0);
    Indent(p);
    Emit(p, vars, RequestNote(), 0, 0);
    Emit(p, vars, CallSend(), 0, 0);
    Emit(p, vars, CallReturn(), 0, 0);
    Outdent(p);
  }

  // The number in the call is the request id of the method.
  lemma CallsItsRequestId(crc: Ids.Crc, parsed: Ids.Service, s: Service, j: nat)
    requires parsed.Ok() && j < |parsed.calls| && j < |s.methods| && s.id == crc(parsed.name) as int
    requires s.methods[j].id == Ids.MethodId(crc, parsed.calls[j]) as int
    ensures RequestId(s.id, s.methods[j].id) == Ids.RequestId(crc, parsed, j) as int
  {
    hide Ids.MethodId, Ids.Xor;
    Ids.SameBits(crc(parsed.name), s.id);
    Ids.SameBits(Ids.MethodId(crc, parsed.calls[j]), s.methods[j].id);
  }

  // The service's i-th method is in the text.
  ghost predicate HasMethod(out: string, c: char, step: nat, s: Service, i: nat)
    requires i < |s.methods|
  {
    exists o: string, level: int :: Extends(MethodAfter(o, c, step, level, s, i), out)
  }

  lemma HasMethodAt(o: string, out: string, c: char, step: nat, level: int, s: Service, i: nat)
    requires i < |s.methods| && Extends(MethodAfter(o, c, step, level, s, i), out)
    ensures HasMethod(out, c, step, s, i)
  {}

  lemma HasMethodStays(a: string, b: string, c: char, step: nat, s: Service, i: nat)
    requires i < |s.methods| && HasMethod(a, c, step, s, i) && Extends(a, b)
    ensures HasMethod(b, c, step, s, i)
  {
    hide MethodAfter;
    var o: string, level: int :| Extends(MethodAfter(o, c, step, level, s, i), a);
    ExtendsTrans(MethodAfter(o, c, step, level, s, i), a, b);
  }

  lemma PrintClientKeys()
    ensures Keys(ClassDef()) <= {KClientName}
    ensures Keys(InitDef()) == {}
    ensures Keys(InitBody()) == {}
    ensures Keys(BlankLine()) == {}
  {
    hide T, V, O, C, B, Bare;
  }

  method PrintClient(p: SmfPrinter, s: Service)
    requires Ready(p)
    modifies p`out, p`indent, p`low
    ensures Ready(p) && p.indent == old(p.indent) && p.low == old(p.low)
    ensures Depth(p) == old(Depth(p))
    ensures forall o :: Extends(o, old(p.out)) ==> Extends(o, p.out)
    ensures forall j :: 0 <= j < |s.methods| ==> HasMethod(p.out, p.indentChar, p.indentStep, s, j)
  {
    hide *;
    ReadyFacts(p);
    PrintClientKeys();
    Emit(p, ClientVars(s), ClassDef(), 0, 0);
    Indent(p);
    EmitText(p, InitDef(), 0, 0);
    Indent(p);
    EmitText(p, InitBody(), 0, 0);
    Outdent(p);
    Outdent(p);
    for i := 0 to |s.methods|
      invariant Ready(p) && p.indent == old(p.indent) && p.low == old(p.low)
      invariant Depth(p) == old(Depth(p))
      invariant forall o :: Extends(o, old(p.out)) ==> Extends(o, p.out)
      invariant forall j :: 0 <= j < i ==> HasMethod(p.out, p.indentChar, p.indentStep, s, j)
    {
      ghost var before := p.out;
      ExtendsSelf(p.out);
      Indent(p);
      ghost var level := p.indent;
      PrintClientMethod(p, s, i);
      ExtendsSelf(p.out);
      ghost var text := p.out;
      Outdent(p);
      if i + 1 < |s.methods| {
        EmitText(p, BlankLine(), 0, 0);
      }
      HasMethodAt(before, p.out, p.indentChar, p.indentStep, level, s, i);
      forall j | 0 <= j < i ensures HasMethod(p.out, p.indentChar, p.indentStep, s, j) {
        HasMethodStays(before, p.out, p.indentChar, p.indentStep, s, j);
      }
    }
  }
}
