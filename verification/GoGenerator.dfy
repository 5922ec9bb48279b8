// go_generator: the print functions, as operations on the printer. Each of
// them restores the printer's level, never goes below it, and leaves as many
// braces open as it found.

module GoGenerator {
  import opened Bytes
  import opened Printer
  import opened Nesting
  import opened Schema
  import opened Templates
  import opened Emitter
  import opened GoTemplates

  const SERVICE_SUFFIX: Name := "Service"

  const CLIENT_SUFFIX: Name := "Client"

  const RAW_PREFIX: Name := "Raw"

  const SERVICE_KEYS: set<Key> := {KInterfaceName, KServiceName, KClientName, KServiceID}
  const METHOD_KEYS: set<Key> := SERVICE_KEYS + {KMethodName, KRawMethodName, KInType, KOutputType, KMethodID}

  function ServiceVars(s: Service): (r: Bindings)
    ensures r.Keys == SERVICE_KEYS
  {
    var name := Capitalized(s.name);
    map[KInterfaceName := name, KServiceName := Cat(name, SERVICE_SUFFIX), KClientName := Cat(name, CLIENT_SUFFIX),
        KServiceID := Decimal(s.id)]
  }

  function MethodVars(s: Service, i: nat): (r: Bindings)
    requires i < |s.methods|
    ensures r.Keys == METHOD_KEYS
  {
    var m := s.methods[i];
    var name := Capitalized(m.name);
    ServiceVars(s)
    + map[KMethodName := name, KRawMethodName := Cat(RAW_PREFIX, name), KInType := m.input, KOutputType := m.output,
          KMethodID := Decimal(m.id)]
  }

  lemma PrintServerMethodKeys()
    ensures Keys(RawMethodOpen()) <= METHOD_KEYS
    ensures Keys(RawMethodBody()) <= METHOD_KEYS
    ensures Keys(CloseLines()) == {}
  {
    hide T, V, O, C, B, Bare;
  }

  method PrintServerMethod(p: SmfPrinter, s: Service, i: nat)
    requires Ready(p) && i < |s.methods|
    modifies p`out, p`indent, p`low
    ensures Ready(p) && p.indent == old(p.indent) && p.low == old(p.low)
    ensures Depth(p) == old(Depth(p))
    ensures forall o :: Extends(o, old(p.out)) ==> Extends(o, p.out)
  {
    hide *;
    ReadyFacts(p);
    PrintServerMethodKeys();
    var vars := MethodVars(s, i);
    Emit(p, vars, RawMethodOpen(), 0, 1);
    Indent(p);
    Emit(p, vars, RawMethodBody(), 0, 0);
    Outdent(p);
    EmitText(p, CloseLines(), 1, -1);
  }

  lemma PrintServerJumpTableKeys()
    ensures Keys(MethodHandleOpen()) <= SERVICE_KEYS
    ensures Keys(SwitchOpen()) == {}
    ensures Keys(SwitchCase()) <= METHOD_KEYS
    ensures Keys(SwitchReturn()) <= METHOD_KEYS
    ensures Keys(SwitchDefault()) == {}
    ensures Keys(ReturnNil()) == {}
    ensures Keys(CloseLine()) == {}
    ensures Keys(CloseLines()) == {}
  {
    hide T, V, O, C, B, Bare;
  }

  lemma MethodVarsAre(s: Service, i: nat)
    requires i < |s.methods|
    ensures var b, m := MethodVars(s, i), s.methods[i];
            && b[KInterfaceName] == Capitalized(s.name) && b[KServiceID] == Decimal(s.id)
            && b[KMethodName] == Capitalized(m.name) && b[KRawMethodName] == Cat(RAW_PREFIX, Capitalized(m.name))
            && b[KInType] == m.input && b[KOutputType] == m.output && b[KMethodID] == Decimal(m.id)
  {
    hide Bare, Decimal, Capitalized, Cat;
  }

  // A case of the jump table: the two ids, and the raw method that it returns.
  function CaseLine(service: nat, method_: nat): string {
    "case " + (Decimal(service) + (" ^ " + (Decimal(method_) + (":" + "\n"))))
  }

  function ReturnLine(m: Method): string { "return s." + (Cat(RAW_PREFIX, Capitalized(m.name)) + "\n") }

  lemma CaseText(margin: string, s: Service, i: nat)
    requires i < |s.methods|
    ensures Indented(margin, Fill(MethodVars(s, i), SwitchCase())) == margin + CaseLine(s.id, s.methods[i].id)
  {
    hide Bare, Indented, Decimal;
    var b, x, y := MethodVars(s, i), Decimal(s.id), Decimal(s.methods[i].id);
    CaseShape();
    MethodVarsAre(s, i);
    hide SwitchCase, MethodVars, Fill;
    FillLine(b, ":", End);
    FillVar(b, " ^ ", KMethodID, Text(":", Break(End)));
    FillVar(b, "case ", KServiceID, Text(" ^ ", Var(KMethodID, Text(":", Break(End)))));
    var line := "case " + (x + (" ^ " + (y + ":")));
    CaseNewline(x, y);
    assert CaseLine(s.id, s.methods[i].id) == line + "\n";
    OneLine(margin, line);
  }

  lemma CaseNewline(x: Name, y: Name)
    ensures '\n' !in "case " + (x + (" ^ " + (y + ":")))
  {
    NameLine(x);
    NameLine(y);
    hide Bare;
  }

  lemma CaseShape()
    ensures SwitchCase() == Text("case ", Var(KServiceID, Text(" ^ ", Var(KMethodID, Text(":", Break(End))))))
    ensures SwitchReturn() == Text("return s.", Var(KRawMethodName, Break(End)))
  {
    hide Bare;
  }

  lemma ReturnText(margin: string, s: Service, i: nat)
    requires i < |s.methods|
    ensures Indented(margin, Fill(MethodVars(s, i), SwitchReturn())) == margin + ReturnLine(s.methods[i])
  {
    hide Bare, Indented, Decimal, Cat, Capitalized;
    var b, raw := MethodVars(s, i), Cat(RAW_PREFIX, Capitalized(s.methods[i].name));
    CaseShape();
    MethodVarsAre(s, i);
    hide SwitchReturn, MethodVars, Fill;
    FillBreak(b);
    FillVar(b, "return s.", KRawMethodName, Break(End));
    NameLine(raw);
    assert ReturnLine(s.methods[i]) == ("return s." + raw) + "\n";
    OneLine(margin, "return s." + raw);
  }

  // Two lines per method, in order, after o.
  ghost function CasesAfter(o: string, outer: string, inner: string, s: Service, n: nat): string
    requires n <= |s.methods|
  {
    if n == 0 then o
    else CasesAfter(o, outer, inner, s, n - 1) + (outer + CaseLine(s.id, s.methods[n - 1].id))
         + (inner + ReturnLine(s.methods[n - 1]))
  }

  lemma CasesNext(o: string, outer: string, inner: string, s: Service, i: nat)
    requires i < |s.methods|
    ensures CasesAfter(o, outer, inner, s, i + 1)
            == CasesAfter(o, outer, inner, s, i) + Indented(outer, Fill(MethodVars(s, i), SwitchCase()))
               + Indented(inner, Fill(MethodVars(s, i), SwitchReturn()))
  {
    hide Indented, Fill, MethodVars, SwitchCase, SwitchReturn, CaseLine, ReturnLine;
    CaseText(outer, s, i);
    ReturnText(inner, s, i);
  }

  ghost function JumpTableAfter(o: string, c: char, step: nat, level: int, s: Service): string {
    var head := o + Indented(Margin(c, step, level), Fill(ServiceVars(s), MethodHandleOpen()))
                + Indented(Margin(c, step, level + 1), Str(SwitchOpen()));
    CasesAfter(head, Margin(c, step, level + 1), Margin(c, step, level + 2), s, |s.methods|)
    + Indented(Margin(c, step, level + 1), Str(SwitchDefault()))
    + Indented(Margin(c, step, level + 2), Str(ReturnNil()))
    + Indented(Margin(c, step, level + 1), Str(CloseLine()))
    + Indented(Margin(c, step, level), Str(CloseLines()))
  }

  lemma JumpTableIs(o: string, c: char, step: nat, level: int, s: Service)
    ensures var head := o + Indented(Margin(c, step, level), Fill(ServiceVars(s), MethodHandleOpen()))
                        + Indented(Margin(c, step, level + 1), Str(SwitchOpen()));
            && CasesAfter(head, Margin(c, step, level + 1), Margin(c, step, level + 2), s, 0) == head
            && JumpTableAfter(o, c, step, level, s)
               == CasesAfter(head, Margin(c, step, level + 1), Margin(c, step, level + 2), s, |s.methods|)
                  + Indented(Margin(c, step, level + 1), Str(SwitchDefault()))
                  + Indented(Margin(c, step, level + 2), Str(ReturnNil()))
                  + Indented(Margin(c, step, level + 1), Str(CloseLine()))
                  + Indented(Margin(c, step, level), Str(CloseLines()))
  {
    hide Indented, Str, Fill, Margin, MethodHandleOpen, SwitchOpen, SwitchDefault, ReturnNil, CloseLine, CloseLines,
      CaseLine, ReturnLine, ServiceVars;
  }

  method PrintServerJumpTable(p: SmfPrinter, s: Service)
    requires Ready(p)
    modifies p`out, p`indent, p`low
    ensures Ready(p) && p.indent == old(p.indent) && p.low == old(p.low)
    ensures Depth(p) == old(Depth(p))
    ensures forall o :: Extends(o, old(p.out)) ==> Extends(o, p.out)
    ensures p.out == JumpTableAfter(old(p.out), p.indentChar, p.indentStep, p.indent, s)
  {
    hide *;
    ReadyFacts(p);
    PrintServerJumpTableKeys();
    JumpTableIs(p.out, p.indentChar, p.indentStep, p.indent, s);
    ghost var level := p.indent;
    Emit(p, ServiceVars(s), MethodHandleOpen(), 0, 1);
    Indent(p);
    EmitText(p, SwitchOpen(), 0, 1);
    ghost var head := p.out;
    ghost var outer := Margin(p.indentChar, p.indentStep, level + 1);
    ghost var inner := Margin(p.indentChar, p.indentStep, level + 2);
    for i := 0 to |s.methods|
      invariant Ready(p) && p.indent == level + 1 && p.low == old(p.low)
      invariant Depth(p) == old(Depth(p)) + 2
      invariant forall o :: Extends(o, old(p.out)) ==> Extends(o, p.out)
      invariant p.out == CasesAfter(head, outer, inner, s, i)
    {
      CasesNext(head, outer, inner, s, i);
      var vars := MethodVars(s, i);
      Emit(p, vars, SwitchCase(), 0, 0);
      Indent(p);
      Emit(p, vars, SwitchReturn(), 0, 0);
      Outdent(p);
    }
    EmitText(p, SwitchDefault(), 0, 0);
    Indent(p);
    EmitText(p, ReturnNil(), 0, 0);
    Outdent(p);
    EmitText(p, CloseLine(), 1, -1);
    Outdent(p);
    EmitText(p, CloseLines(), 1, -1);
  }

  // The jump table of the service is in the text.
  ghost predicate HasJumpTable(out: string, c: char, step: nat, s: Service)
  {
    exists o: string, level: int :: Extends(JumpTableAfter(o, c, step, level, s), out)
  }

  lemma HasJumpTableAt(o: string, out: string, c: char, step: nat, level: int, s: Service)
    requires Extends(JumpTableAfter(o, c, step, level, s), out)
    ensures HasJumpTable(out, c, step, s)
  {}

  lemma HasJumpTableStays(a: string, b: string, c: char, step: nat, s: Service)
    requires HasJumpTable(a, c, step, s) && Extends(a, b)
    ensures HasJumpTable(b, c, step, s)
  {
    hide JumpTableAfter;
    var o: string, level: int :| Extends(JumpTableAfter(o, c, step, level, s), a);
    ExtendsTrans(JumpTableAfter(o, c, step, level, s), a, b);
  }

  lemma PrintServerKeys()
    ensures Keys(InterfaceNote()) <= SERVICE_KEYS
    ensures Keys(InterfaceOpen()) <= SERVICE_KEYS
    ensures Keys(InterfaceMethod()) <= METHOD_KEYS
    ensures Keys(CloseLines()) == {}
    ensures Keys(ServiceStructOpen()) <= SERVICE_KEYS
    ensures Keys(ServiceStructBody()) <= SERVICE_KEYS
    ensures Keys(NewServiceOpen()) <= SERVICE_KEYS
    ensures Keys(NewServiceBody()) <= SERVICE_KEYS
  {
    hide T, V, O, C, B, Bare;
  }

  method PrintServer(p: SmfPrinter, s: Service)
    requires Ready(p)
    modifies p`out, p`indent, p`low
    ensures Ready(p) && p.indent == old(p.indent) && p.low == old(p.low)
    ensures Depth(p) == old(Depth(p))
    ensures forall o :: Extends(o, old(p.out)) ==> Extends(o, p.out)
    ensures HasJumpTable(p.out, p.indentChar, p.indentStep, s)
  {
    hide *;
    ReadyFacts(p);
    PrintServerKeys();
    var vars := ServiceVars(s);
    Emit(p, vars, InterfaceNote(), 0, 0);
    Emit(p, vars, InterfaceOpen(), 0, 1);
    Indent(p);
    for i := 0 to |s.methods|
      invariant Ready(p) && p.indent == old(p.indent) + 1 && p.low == old(p.low)
      invariant Depth(p) == old(Depth(p)) + 1
      invariant forall o :: Extends(o, old(p.out)) ==> Extends(o, p.out)
    {
      Emit(p, MethodVars(s, i), InterfaceMethod(), 0, 0);
    }
    Outdent(p);
    EmitText(p, CloseLines(), 1, -1);
    Emit(p, vars, ServiceStructOpen(), 0, 1);
    Indent(p);
    Emit(p, vars, ServiceStructBody(), 0, 0);
    Outdent(p);
    EmitText(p, CloseLines(), 1, -1);
    Emit(p, vars, NewServiceOpen(), 0, 1);
    Indent(p);
    Emit(p, vars, NewServiceBody(), 0, 0);
    Outdent(p);
    EmitText(p, CloseLines(), 1, -1);
    PrintServerRest(p, s);
  }

  // The second half of print_server().
  lemma PrintServerRestKeys()
    ensures Keys(ServiceNameOpen()) <= SERVICE_KEYS
    ensures Keys(ServiceNameBody()) <= SERVICE_KEYS
    ensures Keys(CloseLines()) == {}
    ensures Keys(ServiceIdOpen()) <= SERVICE_KEYS
    ensures Keys(ServiceIdBody()) <= SERVICE_KEYS
  {
    hide T, V, O, C, B, Bare;
  }

  method PrintServerRest(p: SmfPrinter, s: Service)
    requires Ready(p)
    modifies p`out, p`indent, p`low
    ensures Ready(p) && p.indent == old(p.indent) && p.low == old(p.low)
    ensures Depth(p) == old(Depth(p))
    ensures forall o :: Extends(o, old(p.out)) ==> Extends(o, p.out)
    ensures HasJumpTable(p.out, p.indentChar, p.indentStep, s)
  {
    hide *;
    ReadyFacts(p);
    PrintServerRestKeys();
    var vars := ServiceVars(s);
    Emit(p, vars, ServiceNameOpen(), 0, 1);
    Indent(p);
    Emit(p, vars, ServiceNameBody(), 0, 0);
    Outdent(p);
    EmitText(p, CloseLines(), 1, -1);
    Emit(p, vars, ServiceIdOpen(), 0, 1);
    Indent(p);
    Emit(p, vars, ServiceIdBody(), 0, 0);
    Outdent(p);
    EmitText(p, CloseLines(), 1, -1);
    ghost var level, o1 := p.indent, p.out;
    PrintServerJumpTable(p, s);
    ExtendsSelf(p.out);
    ghost var text := p.out;
    for i := 0 to |s.methods|
      invariant Ready(p) && p.indent == old(p.indent) && p.low == old(p.low)
      invariant Depth(p) == old(Depth(p))
      invariant forall o :: Extends(o, old(p.out)) ==> Extends(o, p.out)
      invariant Extends(text, p.out)
    {
      PrintServerMethod(p, s, i);
    }
    HasJumpTableAt(o1, p.out, p.indentChar, p.indentStep, level, s);
  }

  lemma PrintClientMethodKeys()
    ensures Keys(CallOpen()) <= METHOD_KEYS
    ensures Keys(CallSend()) <= METHOD_KEYS
    ensures Keys(CallError()) == {}
    ensures Keys(CloseLine()) == {}
    ensures Keys(CallReturn()) <= METHOD_KEYS
    ensures Keys(CloseLines()) == {}
    ensures Keys(RawCallOpen()) <= METHOD_KEYS
    ensures Keys(RawCallBody()) <= METHOD_KEYS
  {
    hide T, V, O, C, B, Bare;
  }

  // The raw call sends the same two ids.
  function SendLine(service: nat, method_: nat): string {
    "return " + ("s.Client.SendRecv(req, " + (Decimal(service) + ("^" + (Decimal(method_) + (")" + "\n")))))
  }

  lemma SendShape()
    ensures RawCallBody() == Text("return ", Text("s.Client.SendRecv(req, ", Var(KServiceID, Text("^",
                               Var(KMethodID, Text(")", Break(End)))))))
  {
    hide Bare;
  }

  lemma SendText(margin: string, s: Service, i: nat)
    requires i < |s.methods|
    ensures Indented(margin, Fill(MethodVars(s, i), RawCallBody())) == margin + SendLine(s.id, s.methods[i].id)
  {
    hide Bare, Indented, Decimal;
    var b, x, y := MethodVars(s, i), Decimal(s.id), Decimal(s.methods[i].id);
    SendShape();
    MethodVarsAre(s, i);
    var t2 := Text("^", Var(KMethodID, Text(")", Break(End))));
    var t1 := Text("s.Client.SendRecv(req, ", Var(KServiceID, t2));
    assert Fill(b, Text("return ", t1)) == "return " + Fill(b, t1);
    hide RawCallBody, MethodVars, Fill;
    FillLine(b, ")", End);
    FillVar(b, "^", KMethodID, Text(")", Break(End)));
    FillVar(b, "s.Client.SendRecv(req, ", KServiceID, t2);
    var line := "return " + ("s.Client.SendRecv(req, " + (x + ("^" + (y + ")"))));
    SendNewline(x, y);
    assert SendLine(s.id, s.methods[i].id) == line + "\n";
    OneLine(margin, line);
  }

  lemma SendNewline(x: Name, y: Name)
    ensures '\n' !in "return " + ("s.Client.SendRecv(req, " + (x + ("^" + (y + ")"))))
  {
    NameLine(x);
    NameLine(y);
    hide Bare;
  }

  ghost function RawCallAfter(o: string, c: char, step: nat, level: int, s: Service, i: nat): string
    requires i < |s.methods|
  {
    o + Indented(Margin(c, step, level), Fill(MethodVars(s, i), RawCallOpen()))
    + (Margin(c, step, level + 1) + SendLine(s.id, s.methods[i].id))
    + Indented(Margin(c, step, level), Str(CloseLine()))
  }

  lemma RawCallIs(o: string, c: char, step: nat, level: int, s: Service, i: nat)
    requires i < |s.methods|
    ensures RawCallAfter(o, c, step, level, s, i)
            == o + Indented(Margin(c, step, level), Fill(MethodVars(s, i), RawCallOpen()))
               + Indented(Margin(c, step, level + 1), Fill(MethodVars(s, i), RawCallBody()))
               + Indented(Margin(c, step, level), Str(CloseLine()))
  {
    hide Indented, Fill, Str, Margin, MethodVars, SendLine, RawCallOpen, RawCallBody, CloseLine;
    SendText(Margin(c, step, level + 1), s, i);
  }

  // The first half of print_client_method(): the typed call.
  method PrintTypedCall(p: SmfPrinter, s: Service, i: nat)
    requires Ready(p) && i < |s.methods|
    modifies p`out, p`indent, p`low
    ensures Ready(p) && p.indent == old(p.indent) && p.low == old(p.low)
    ensures Depth(p) == old(Depth(p))
    ensures forall o :: Extends(o, old(p.out)) ==> Extends(o, p.out)
  {
    hide *;
    ReadyFacts(p);
    PrintClientMethodKeys();
    var vars := MethodVars(s, i);
    Emit(p, vars, CallOpen(), 0, 1);
    Indent(p);
    Emit(p, vars, CallSend(), 0, 1);
    Indent(p);
    EmitText(p, CallError(), 0, 0);
    Outdent(p);
    EmitText(p, CloseLine(), 1, -1);
    Emit(p, vars, CallReturn(), 0, 0);
    Outdent(p);
    EmitText(p, CloseLines(), 1, -1);
  }

  // The second half: the raw call.
  method PrintRawCall(p: SmfPrinter, s: Service, i: nat)
    requires Ready(p) && i < |s.methods|
    modifies p`out, p`indent, p`low
    ensures Ready(p) && p.indent == old(p.indent) && p.low == old(p.low)
    ensures Depth(p) == old(Depth(p))
    ensures forall o :: Extends(o, old(p.out)) ==> Extends(o, p.out)
    ensures p.out == RawCallAfter(old(p.out), p.indentChar, p.indentStep, p.indent, s, i)
  {
    hide *;
    ReadyFacts(p);
    PrintClientMethodKeys();
    RawCallIs(p.out, p.indentChar, p.indentStep, p.indent, s, i);
    var vars := MethodVars(s, i);
    Emit(p, vars, RawCallOpen(), 0, 1);
    Indent(p);
    Emit(p, vars, RawCallBody(), 0, 0);
    Outdent(p);
    EmitText(p, CloseLine(), 1, -1);
  }

  // The raw call of the service's i-th method is in the text.
  ghost predicate HasRawCall(out: string, c: char, step: nat, s: Service, i: nat)
    requires i < |s.methods|
  {
    exists o: string, level: int :: Extends(RawCallAfter(o, c, step, level, s, i), out)
  }

  lemma HasRawCallAt(o: string, out: string, c: char, step: nat, level: int, s: Service, i: nat)
    requires i < |s.methods| && Extends(RawCallAfter(o, c, step, level, s, i), out)
    ensures HasRawCall(out, c, step, s, i)
  {}

  lemma HasRawCallStays(a: string, b: string, c: char, step: nat, s: Service, i: nat)
    requires i < |s.methods| && HasRawCall(a, c, step, s, i) && Extends(a, b)
    ensures HasRawCall(b, c, step, s, i)
  {
    hide RawCallAfter;
    var o: string, level: int :| Extends(RawCallAfter(o, c, step, level, s, i), a);
    ExtendsTrans(RawCallAfter(o, c, step, level, s, i), a, b);
  }

  method PrintClientMethod(p: SmfPrinter, s: Service, i: nat)
    requires Ready(p) && i < |s.methods|
    modifies p`out, p`indent, p`low
    ensures Ready(p) && p.indent == old(p.indent) && p.low == old(p.low)
    ensures Depth(p) == old(Depth(p))
    ensures forall o :: Extends(o, old(p.out)) ==> Extends(o, p.out)
    ensures HasRawCall(p.out, p.indentChar, p.indentStep, s, i)
  {
    hide *;
    PrintTypedCall(p, s, i);
    ghost var o1, level := p.out, p.indent;
    PrintRawCall(p, s, i);
    ExtendsSelf(p.out);
    HasRawCallAt(o1, p.out, p.indentChar, p.indentStep, level, s, i);
  }

  lemma PrintClientKeys()
    ensures Keys(ClientNote()) == {}
    ensures Keys(ClientStructOpen()) <= SERVICE_KEYS
    ensures Keys(ClientStructBody()) <= SERVICE_KEYS
    ensures Keys(CloseLines()) == {}
    ensures Keys(NewClientOpen()) <= SERVICE_KEYS
    ensures Keys(NewClientBody()) <= SERVICE_KEYS
  {
    hide T, V, O, C, B, Bare;
  }

  method PrintClient(p: SmfPrinter, s: Service)
    requires Ready(p)
    modifies p`out, p`indent, p`low
    ensures Ready(p) && p.indent == old(p.indent) && p.low == old(p.low)
    ensures Depth(p) == old(Depth(p))
    ensures forall o :: Extends(o, old(p.out)) ==> Extends(o, p.out)
    ensures forall j :: 0 <= j < |s.methods| ==> HasRawCall(p.out, p.indentChar, p.indentStep, s, j)
  {
    hide *;
    ReadyFacts(p);
    PrintClientKeys();
    var vars := ServiceVars(s);
    EmitText(p, ClientNote(), 0, 0);
    Emit(p, vars, ClientStructOpen(), 0, 1);
    Indent(p);
    Emit(p, vars, ClientStructBody(), 0, 0);
    Outdent(p);
    EmitText(p, CloseLines(), 1, -1);
    Emit(p, vars, NewClientOpen(), 0, 1);
    Indent(p);
    Emit(p, vars, NewClientBody(), 0, 0);
    Outdent(p);
    EmitText(p, CloseLines(), 1, -1);
    for i := 0 to |s.methods|
      invariant Ready(p) && p.indent == old(p.indent) && p.low == old(p.low)
      invariant Depth(p) == old(Depth(p))
      invariant forall o :: Extends(o, old(p.out)) ==> Extends(o, p.out)
      invariant forall j :: 0 <= j < i ==> HasRawCall(p.out, p.indentChar, p.indentStep, s, j)
    {
      ghost var before := p.out;
      ExtendsSelf(p.out);
      PrintClientMethod(p, s, i);
      forall j | 0 <= j < i ensures HasRawCall(p.out, p.indentChar, p.indentStep, s, j) {
        HasRawCallStays(before, p.out, p.indentChar, p.indentStep, s, j);
      }
    }
  }

  // ---------- The whole file ----------

  function FileVars(f: File): (r: Bindings)
    requires f.package != []
    ensures r.Keys == {Kfilename, Kpackage}
  {
    map[Kfilename := f.name, Kpackage := f.package[|f.package| - 1]]
  }

  // gen(); its package line names the last namespace component.
  lemma GenerateKeys()
    ensures Keys(GeneratedBy()) == {}
    ensures Keys(WillBeLost()) == {}
    ensures Keys(SourceFile()) <= {Kfilename, Kpackage}
    ensures Keys(PackageLine()) <= {Kfilename, Kpackage}
    ensures Keys(ImportOpen()) == {}
    ensures Keys(ImportList()) == {}
    ensures Keys(ImportClose()) == {}
  {
    hide T, V, O, C, B, Bare;
  }

  // The jump table and all the raw calls of a service.
  ghost predicate HasCalls(out: string, c: char, step: nat, s: Service) {
    forall j :: 0 <= j < |s.methods| ==> HasRawCall(out, c, step, s, j)
  }

  ghost predicate HasService(out: string, c: char, step: nat, s: Service) {
    HasJumpTable(out, c, step, s) && HasCalls(out, c, step, s)
  }

  lemma HasCallsStays(a: string, b: string, c: char, step: nat, s: Service)
    requires HasCalls(a, c, step, s) && Extends(a, b)
    ensures HasCalls(b, c, step, s)
  {
    hide HasRawCall, Extends;
    forall j | 0 <= j < |s.methods| ensures HasRawCall(b, c, step, s, j) { HasRawCallStays(a, b, c, step, s, j); }
  }

  lemma HasCallsIs(out: string, c: char, step: nat, s: Service)
    requires forall j :: 0 <= j < |s.methods| ==> HasRawCall(out, c, step, s, j)
    ensures HasCalls(out, c, step, s)
  {}

  lemma HasServiceIs(out: string, c: char, step: nat, s: Service)
    requires HasJumpTable(out, c, step, s) && HasCalls(out, c, step, s)
    ensures HasService(out, c, step, s)
  {}

  // The server code of every service.
  method GenerateServers(p: SmfPrinter, f: File)
    requires Ready(p)
    modifies p`out, p`indent, p`low
    ensures Ready(p) && p.indent == old(p.indent) && p.low == old(p.low)
    ensures Depth(p) == old(Depth(p))
    ensures forall o :: Extends(o, old(p.out)) ==> Extends(o, p.out)
    ensures forall k :: 0 <= k < |f.services| ==> HasJumpTable(p.out, p.indentChar, p.indentStep, f.services[k])
  {
    hide *;
    for i := 0 to |f.services|
      invariant Ready(p) && p.indent == old(p.indent) && p.low == old(p.low)
      invariant Depth(p) == old(Depth(p))
      invariant forall o :: Extends(o, old(p.out)) ==> Extends(o, p.out)
      invariant forall k :: 0 <= k < i ==> HasJumpTable(p.out, p.indentChar, p.indentStep, f.services[k])
    {
      ghost var before := p.out;
      ExtendsSelf(p.out);
      PrintServer(p, f.services[i]);
      forall k | 0 <= k < i ensures HasJumpTable(p.out, p.indentChar, p.indentStep, f.services[k]) {
        HasJumpTableStays(before, p.out, p.indentChar, p.indentStep, f.services[k]);
      }
    }
  }

  // The client code of every service.
  method GenerateClients(p: SmfPrinter, f: File)
    requires Ready(p)
    modifies p`out, p`indent, p`low
    ensures Ready(p) && p.indent == old(p.indent) && p.low == old(p.low)
    ensures Depth(p) == old(Depth(p))
    ensures forall o :: Extends(o, old(p.out)) ==> Extends(o, p.out)
    ensures forall k :: 0 <= k < |f.services| ==> HasCalls(p.out, p.indentChar, p.indentStep, f.services[k])
  {
    hide *;
    for i := 0 to |f.services|
      invariant Ready(p) && p.indent == old(p.indent) && p.low == old(p.low)
      invariant Depth(p) == old(Depth(p))
      invariant forall o :: Extends(o, old(p.out)) ==> Extends(o, p.out)
      invariant forall k :: 0 <= k < i ==> HasCalls(p.out, p.indentChar, p.indentStep, f.services[k])
    {
      ghost var before := p.out;
      ExtendsSelf(p.out);
      PrintClient(p, f.services[i]);
      HasCallsIs(p.out, p.indentChar, p.indentStep, f.services[i]);
      forall k | 0 <= k < i ensures HasCalls(p.out, p.indentChar, p.indentStep, f.services[k]) {
        HasCallsStays(before, p.out, p.indentChar, p.indentStep, f.services[k]);
      }
    }
  }

  method Generate(p: SmfPrinter, f: File)
    requires Ready(p) && f.package != []
    modifies p`out, p`indent, p`low
    ensures Ready(p) && p.indent == old(p.indent) && p.low == old(p.low)
    ensures Depth(p) == old(Depth(p))
    ensures forall o :: Extends(o, old(p.out)) ==> Extends(o, p.out)
    ensures forall k :: 0 <= k < |f.services| ==> HasService(p.out, p.indentChar, p.indentStep, f.services[k])
  {
    hide *;
    ReadyFacts(p);
    GenerateKeys();
    EmitText(p, GeneratedBy(), 0, 0);
    EmitText(p, WillBeLost(), 0, 0);
    Emit(p, FileVars(f), SourceFile(), 0, 0);
    Emit(p, FileVars(f), PackageLine(), 0, 0);
    EmitText(p, ImportOpen(), 0, 0);
    Indent(p);
    EmitText(p, ImportList(), 0, 0);
    Outdent(p);
    EmitText(p, ImportClose(), 0, 0);
    GenerateServers(p, f);
    ghost var text := p.out;
    ExtendsSelf(p.out);
    GenerateClients(p, f);
    forall k | 0 <= k < |f.services| ensures HasService(p.out, p.indentChar, p.indentStep, f.services[k]) {
      HasJumpTableStays(text, p.out, p.indentChar, p.indentStep, f.services[k]);
      HasServiceIs(p.out, p.indentChar, p.indentStep, f.services[k]);
    }
  }

  // For every schema the generated file closes every brace that it opens and
  // none that it does not, no placeholder is left in it, and it dispatches the
  // calls of every service.
  method Source(f: File) returns (contents: string)
    requires f.package != []
    ensures Nest(0, contents) == 0 && '$' !in contents
    ensures forall k :: 0 <= k < |f.services| ==> HasService(contents, '\t', 1, f.services[k])
  {
    hide HasService;
    var p := new SmfPrinter('$');
    p.indentChar, p.indentStep := '\t', 1;
    TabPlain();
    Generate(p, f);
    contents := p.out;
  }

  lemma TabPlain()
    ensures Plain(['\t'])
  {}
}
