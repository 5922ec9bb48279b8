// cpp_generator: the print functions, as operations on the printer. Each of
// them restores the printer's level, never goes below it, and leaves as many
// braces open as it found.

module CppGenerator {
  import opened Bytes
  import opened Printer
  import opened Nesting
  import opened Schema
  import opened Templates
  import opened Emitter
  import Ids
  import opened CppTemplates

  const SERVICE_KEYS: set<Key> := {KService, KServiceID, KServiceHandleSize}
  const METHOD_KEYS: set<Key> :=
    SERVICE_KEYS + {KMethodName, KRawMethodName, KInType, KOutType, KMethodId, KMethodID, KVectorIdx}

  function ServiceVars(s: Service): (r: Bindings)
    ensures r.Keys == SERVICE_KEYS
  {
    map[KService := s.name, KServiceID := Decimal(s.id), KServiceHandleSize := Decimal(|s.methods|)]
  }

  function MethodVars(s: Service, i: nat): (r: Bindings)
    requires i < |s.methods|
    ensures r.Keys == METHOD_KEYS
  {
    var m := s.methods[i];
    ServiceVars(s) + OwnVars(m) + map[KVectorIdx := Decimal(i)]
  }

  function OwnVars(m: Method): (r: Bindings)
    ensures r.Keys == METHOD_KEYS - SERVICE_KEYS - {KVectorIdx}
  {
    map[KMethodName := m.name, KRawMethodName := RawName(m), KInType := m.input, KOutType := m.output,
        KMethodId := Decimal(m.id), KMethodID := Decimal(m.id)]
  }

  lemma PrintServiceConstructorKeys()
    ensures Keys(Destructor()) <= SERVICE_KEYS
    ensures Keys(ConstructorOpen()) <= SERVICE_KEYS
    ensures Keys(HandleOpen()) == {}
    ensures Keys(HandlerOpen()) == {}
    ensures Keys(SessionNote()) == {}
    ensures Keys(RawCallOpen()) <= METHOD_KEYS
    ensures Keys(SessionSet()) == {}
    ensures Keys(HandleCloseComma()) == {}
    ensures Keys(HandleClose()) == {}
    ensures Keys(ConstructorClose()) == {}
  {
    hide T, V, O, C, B, Bare;
  }

  // The handle of a method calls that method's raw form.
  function RawCallLine(raw: Name): string {
    "return " + (raw + ("(std::move(c)).then(" + ("[session_id](smf::rpc_" + ("envelope e) " + ("{" + "\n")))))
  }

  lemma RawCallText(margin: string, s: Service, i: nat)
    requires i < |s.methods|
    ensures Indented(margin, Fill(MethodVars(s, i), RawCallOpen())) == margin + RawCallLine(RawName(s.methods[i]))
  {
    hide Bare, Indented, RawName;
    var b, raw := MethodVars(s, i), RawName(s.methods[i]);
    RawCallShape();
    hide RawCallOpen, MethodVars;
    FillBreak(b);
    assert b[KRawMethodName] == raw by { MethodVarsAre(s, i); }
    var t1 := Text("envelope e) ", Open(Break(End)));
    assert Fill(b, t1) == "envelope e) " + ("{" + "\n");
    var t2 := Text("(std::move(c)).then(", Text("[session_id](smf::rpc_", t1));
    assert Fill(b, t2) == "(std::move(c)).then(" + ("[session_id](smf::rpc_" + Fill(b, t1));
    assert Fill(b, RawCallOpen()) == RawCallLine(raw);
    var line := "return " + (raw + ("(std::move(c)).then(" + ("[session_id](smf::rpc_" + ("envelope e) " + "{"))));
    RawCallNewline(raw);
    assert RawCallLine(raw) == line + "\n";
    OneLine(margin, line);
  }

  lemma RawCallNewline(raw: Name)
    ensures '\n' !in "return " + (raw + ("(std::move(c)).then(" + ("[session_id](smf::rpc_" + ("envelope e) " + "{"))))
  {
    NameLine(raw);
    hide Bare;
  }

  lemma RawCallShape()
    ensures RawCallOpen() == Text("return ", Var(KRawMethodName, Text("(std::move(c)).then(",
                               Text("[session_id](smf::rpc_", Text("envelope e) ", Open(Break(End)))))))
  {
    hide Bare;
  }

  lemma MethodVarsAre(s: Service, i: nat)
    requires i < |s.methods|
    ensures var b, m := MethodVars(s, i), s.methods[i];
            && b[KService] == s.name && b[KServiceID] == Decimal(s.id)
            && b[KMethodName] == m.name && b[KRawMethodName] == RawName(m)
            && b[KInType] == m.input && b[KOutType] == m.output
            && b[KMethodId] == b[KMethodID] == Decimal(m.id) && b[KVectorIdx] == Decimal(i)
  {
    hide Bare, Decimal, RawName;
  }

  // What the first n methods put into the array of handles after o.
  ghost function HandlesAfter(o: string, c: char, step: nat, level: int, s: Service, n: nat): string
    requires n <= |s.methods|
  {
    if n == 0 then o
    else
      HandlesAfter(o, c, step, level, s, n - 1)
      + Indented(Margin(c, step, level + 1), Str(HandleOpen()))
      + Indented(Margin(c, step, level + 2), Str(HandlerOpen()))
      + Indented(Margin(c, step, level + 3), Str(SessionNote()))
      + (Margin(c, step, level + 3) + RawCallLine(RawName(s.methods[n - 1])))
      + Indented(Margin(c, step, level + 4), Str(SessionSet()))
      + Indented(Margin(c, step, level + 3), Str(if n < |s.methods| then HandleCloseComma() else HandleClose()))
  }

  ghost function ConstructorAfter(o: string, c: char, step: nat, level: int, s: Service): string {
    var head := o + Indented(Margin(c, step, level), Fill(ServiceVars(s), Destructor()))
                + Indented(Margin(c, step, level), Fill(ServiceVars(s), ConstructorOpen()));
    HandlesAfter(head, c, step, level, s, |s.methods|) + Indented(Margin(c, step, level), Str(ConstructorClose()))
  }

  lemma HandlesNext(o: string, c: char, step: nat, level: int, s: Service, i: nat)
    requires i < |s.methods|
    ensures HandlesAfter(o, c, step, level, s, 0) == o
    ensures HandlesAfter(o, c, step, level, s, i + 1)
            == HandlesAfter(o, c, step, level, s, i)
               + Indented(Margin(c, step, level + 1), Str(HandleOpen()))
               + Indented(Margin(c, step, level + 2), Str(HandlerOpen()))
               + Indented(Margin(c, step, level + 3), Str(SessionNote()))
               + Indented(Margin(c, step, level + 3), Fill(MethodVars(s, i), RawCallOpen()))
               + Indented(Margin(c, step, level + 4), Str(SessionSet()))
               + Indented(Margin(c, step, level + 3),
                          Str(if i < |s.methods| - 1 then HandleCloseComma() else HandleClose()))
  {
    hide Indented, Str, Fill, Margin, HandleOpen, HandlerOpen, SessionNote, SessionSet, HandleClose, HandleCloseComma,
      RawCallOpen, RawName, MethodVars, RawCallLine;
    RawCallText(Margin(c, step, level + 3), s, i);
  }

  lemma ConstructorIs(o: string, c: char, step: nat, level: int, s: Service)
    ensures var head := o + Indented(Margin(c, step, level), Fill(ServiceVars(s), Destructor()))
                        + Indented(Margin(c, step, level), Fill(ServiceVars(s), ConstructorOpen()));
            && HandlesAfter(head, c, step, level, s, 0) == head
            && ConstructorAfter(o, c, step, level, s)
               == HandlesAfter(head, c, step, level, s, |s.methods|)
                  + Indented(Margin(c, step, level), Str(ConstructorClose()))
  {
    hide Indented, Str, Fill, Margin, Destructor, ConstructorOpen, ConstructorClose, ServiceVars;
  }

  method PrintServiceConstructor(p: SmfPrinter, s: Service)
    requires Ready(p)
    modifies p`out, p`indent, p`low
    ensures Ready(p) && p.indent == old(p.indent) && p.low == old(p.low)
    ensures Depth(p) == old(Depth(p))
    ensures forall o :: Extends(o, old(p.out)) ==> Extends(o, p.out)
    ensures p.out == ConstructorAfter(old(p.out), p.indentChar, p.indentStep, p.indent, s)
  {
    hide *;
    ReadyFacts(p);
    PrintServiceConstructorKeys();
    ConstructorIs(p.out, p.indentChar, p.indentStep, p.indent, s);
    var vars := ServiceVars(s);
    Emit(p, vars, Destructor(), 0, 0);
    Emit(p, vars, ConstructorOpen(), 0, 2);
    ghost var head, level := p.out, p.indent;
    Indent(p);
    for i := 0 to |s.methods|
      invariant Ready(p) && p.indent == level + 1 && p.low == old(p.low)
      invariant Depth(p) == old(Depth(p)) + 2
      invariant forall o :: Extends(o, old(p.out)) ==> Extends(o, p.out)
      invariant p.out == HandlesAfter(head, p.indentChar, p.indentStep, level, s, i)
    {
      HandlesNext(head, p.indentChar, p.indentStep, level, s, i);
      EmitText(p, HandleOpen(), 0, 0);
      Indent(p);
      EmitText(p, HandlerOpen(), 0, 1);
      Indent(p);
      EmitText(p, SessionNote(), 0, 0);
      Emit(p, MethodVars(s, i), RawCallOpen(), 0, 1);
      Indent(p);
      EmitText(p, SessionSet(), 0, 0);
      Outdent(p);
      if i < |s.methods| - 1 {
        EmitText(p, HandleCloseComma(), 2, -2);
      } else {
        EmitText(p, HandleClose(), 2, -2);
      }
      Outdent(p);
      Outdent(p);
    }
    Outdent(p);
    EmitText(p, ConstructorClose(), 2, -2);
  }

  lemma PrintMethodForRequestIdKeys()
    ensures Keys(MethodForOpen()) == {}
    ensures Keys(SwitchOpen()) == {}
    ensures Keys(SwitchCase()) <= METHOD_KEYS
    ensures Keys(SwitchDefault()) == {}
    ensures Keys(CloseLine()) == {}
  {
    hide T, V, O, C, B, Bare;
  }

  // A case of the switch: the two ids and the position of the handle.
  function CaseLine(service: nat, method_: nat, i: nat): string {
    "case (" + (Decimal(service) + (" ^ " + (Decimal(method_) + ("): return &handles_[" + (Decimal(i) + ("];" + "\n"))))))
  }

  // The lines determine the table.
  lemma CaseLineInjective(a: nat, b: nat, i: nat, a': nat, b': nat, i': nat)
    requires CaseLine(a, b, i) == CaseLine(a', b', i')
    ensures a == a' && b == b' && i == i'
  {
    hide Decimal;
    var z, z' := Decimal(i) + ("];" + "\n"), Decimal(i') + ("];" + "\n");
    var y, y' := Decimal(b) + ("): return &handles_[" + z), Decimal(b') + ("): return &handles_[" + z');
    var x, x' := Decimal(a) + (" ^ " + y), Decimal(a') + (" ^ " + y');
    SamePrefix("case (", x, x');
    DecimalSplit(a, a', " ^ " + y, " ^ " + y');
    SamePrefix(" ^ ", y, y');
    DecimalSplit(b, b', "): return &handles_[" + z, "): return &handles_[" + z');
    SamePrefix("): return &handles_[", z, z');
    DecimalSplit(i, i', "];" + "\n", "];" + "\n");
  }

  lemma SamePrefix(p: string, x: string, y: string)
    requires p + x == p + y
    ensures x == y
  {
    assert (p + x)[|p|..] == x && (p + y)[|p|..] == y;
  }

  lemma CaseShape()
    ensures SwitchCase() == Text("case (", Var(KServiceID, Text(" ^ ", Var(KMethodId, Text("): return &handles_[",
                              Var(KVectorIdx, Text("];", Break(End))))))))
  {
    hide Bare;
  }

  lemma CaseText(margin: string, s: Service, i: nat)
    requires i < |s.methods|
    ensures Indented(margin, Fill(MethodVars(s, i), SwitchCase())) == margin + CaseLine(s.id, s.methods[i].id, i)
  {
    hide Bare, Indented, Decimal, RawName;
    var b, x, y, z := MethodVars(s, i), Decimal(s.id), Decimal(s.methods[i].id), Decimal(i);
    CaseShape();
    MethodVarsAre(s, i);
    hide SwitchCase, MethodVars, Fill;
    var t1 := Text("];", Break(End));
    var t2 := Text("): return &handles_[", Var(KVectorIdx, t1));
    FillLine(b, "];", End);
    FillVar(b, "): return &handles_[", KVectorIdx, t1);
    FillVar(b, " ^ ", KMethodId, t2);
    FillVar(b, "case (", KServiceID, Text(" ^ ", Var(KMethodId, t2)));
    var line := "case (" + (x + (" ^ " + (y + ("): return &handles_[" + (z + "];")))));
    CaseNewline(x, y, z);
    CaseSplit(s.id, s.methods[i].id, i);
    OneLine(margin, line);
  }

  lemma CaseSplit(a: nat, b: nat, i: nat)
    ensures CaseLine(a, b, i)
            == ("case (" + (Decimal(a) + (" ^ " + (Decimal(b) + ("): return &handles_[" + (Decimal(i) + "];")))))) + "\n"
  {
    hide Decimal;
  }

  lemma CaseNewline(x: Name, y: Name, z: Name)
    ensures '\n' !in "case (" + (x + (" ^ " + (y + ("): return &handles_[" + (z + "];")))))
  {
    NameLine(x);
    NameLine(y);
    NameLine(z);
    hide Bare;
  }

  // One line per method, in order, after o.
  ghost function CasesAfter(o: string, margin: string, s: Service, n: nat): string
    requires n <= |s.methods|
  {
    if n == 0 then o
    else CasesAfter(o, margin, s, n - 1) + (margin + CaseLine(s.id, s.methods[n - 1].id, n - 1))
  }

  ghost function SwitchAfter(o: string, c: char, step: nat, level: int, s: Service): string {
    var head := o + Indented(Margin(c, step, level), Str(MethodForOpen()))
                + Indented(Margin(c, step, level + 1), Str(SwitchOpen()));
    CasesAfter(head, Margin(c, step, level + 2), s, |s.methods|)
    + Indented(Margin(c, step, level + 2), Str(SwitchDefault()))
    + Indented(Margin(c, step, level + 1), Str(CloseLine()))
    + Indented(Margin(c, step, level), Str(CloseLine()))
  }

  lemma SwitchIs(o: string, c: char, step: nat, level: int, s: Service)
    ensures var head := o + Indented(Margin(c, step, level), Str(MethodForOpen()))
                        + Indented(Margin(c, step, level + 1), Str(SwitchOpen()));
            && CasesAfter(head, Margin(c, step, level + 2), s, 0) == head
            && SwitchAfter(o, c, step, level, s)
               == CasesAfter(head, Margin(c, step, level + 2), s, |s.methods|)
                  + Indented(Margin(c, step, level + 2), Str(SwitchDefault()))
                  + Indented(Margin(c, step, level + 1), Str(CloseLine()))
                  + Indented(Margin(c, step, level), Str(CloseLine()))
  {
    hide Indented, Str, Margin, MethodForOpen, SwitchOpen, SwitchDefault, CloseLine, CaseLine;
  }

  lemma CasesNext(o: string, margin: string, s: Service, i: nat)
    requires i < |s.methods|
    ensures CasesAfter(o, margin, s, i + 1)
            == CasesAfter(o, margin, s, i) + Indented(margin, Fill(MethodVars(s, i), SwitchCase()))
  {
    hide Indented, Fill, MethodVars, SwitchCase, CaseLine;
    CaseText(margin, s, i);
  }

  method PrintMethodForRequestId(p: SmfPrinter, s: Service)
    requires Ready(p)
    modifies p`out, p`indent, p`low
    ensures Ready(p) && p.indent == old(p.indent) && p.low == old(p.low)
    ensures Depth(p) == old(Depth(p))
    ensures forall o :: Extends(o, old(p.out)) ==> Extends(o, p.out)
    ensures p.out == SwitchAfter(old(p.out), p.indentChar, p.indentStep, p.indent, s)
  {
    hide *;
    ReadyFacts(p);
    PrintMethodForRequestIdKeys();
    SwitchIs(p.out, p.indentChar, p.indentStep, p.indent, s);
    ghost var level := p.indent;
    EmitText(p, MethodForOpen(), 0, 1);
    Indent(p);
    EmitText(p, SwitchOpen(), 0, 1);
    Indent(p);
    ghost var head, margin := p.out, Margin(p.indentChar, p.indentStep, level + 2);
    for i := 0 to |s.methods|
      invariant Ready(p) && p.indent == level + 2 && p.low == old(p.low)
      invariant Depth(p) == old(Depth(p)) + 2
      invariant forall o :: Extends(o, old(p.out)) ==> Extends(o, p.out)
      invariant p.out == CasesAfter(head, margin, s, i)
    {
      CasesNext(head, margin, s, i);
      Emit(p, MethodVars(s, i), SwitchCase(), 0, 0);
    }
    EmitText(p, SwitchDefault(), 0, 0);
    Outdent(p);
    EmitText(p, CloseLine(), 1, -1);
    Outdent(p);
    EmitText(p, CloseLine(), 1, -1);
  }

  // The service as the compiler parsed it and the one it prints.
  ghost predicate Printed(crc: Ids.Crc, parsed: Ids.Service, s: Service) {
    && parsed.Ok() && |s.methods| == |parsed.calls| && s.id == crc(parsed.name) as int
    && forall j :: 0 <= j < |s.methods| ==> s.methods[j].id == Ids.MethodId(crc, parsed.calls[j]) as int
  }

  // The label of the j-th case, and the id that the j-th client method sets, is
  // the request id by which the router finds method j.
  lemma LabelIsRequestId(crc: Ids.Crc, parsed: Ids.Service, s: Service, j: nat)
    requires Printed(crc, parsed, s) && j < |s.methods|
    ensures Label(s.id, s.methods[j].id) == Ids.RequestId(crc, parsed, j)
  {
    hide Ids.MethodId, Ids.Xor;
    Ids.SameBits(crc(parsed.name), s.id);
    Ids.SameBits(Ids.MethodId(crc, parsed.calls[j]), s.methods[j].id);
  }

  function Label(service: uint32, method_: uint32): bv32 { Ids.Xor(service as bv32, method_ as bv32) }

  // The constructor, and the switch, of the service are in the text.
  ghost predicate HasConstructor(out: string, c: char, step: nat, s: Service) {
    exists o: string, level: int :: Extends(ConstructorAfter(o, c, step, level, s), out)
  }

  ghost predicate HasSwitch(out: string, c: char, step: nat, s: Service) {
    exists o: string, level: int :: Extends(SwitchAfter(o, c, step, level, s), out)
  }

  lemma HasConstructorAt(o: string, out: string, c: char, step: nat, level: int, s: Service)
    requires Extends(ConstructorAfter(o, c, step, level, s), out)
    ensures HasConstructor(out, c, step, s)
  {}

  lemma HasSwitchAt(o: string, out: string, c: char, step: nat, level: int, s: Service)
    requires Extends(SwitchAfter(o, c, step, level, s), out)
    ensures HasSwitch(out, c, step, s)
  {}

  lemma PrintServiceHandlesKeys()
    ensures Keys(MethodsOpen()) <= SERVICE_KEYS
    ensures Keys(ReturnHandles()) == {}
    ensures Keys(CloseLine()) == {}
  {
    hide T, V, O, C, B, Bare;
  }

  method PrintServiceHandles(p: SmfPrinter, s: Service)
    requires Ready(p)
    modifies p`out, p`indent, p`low
    ensures Ready(p) && p.indent == old(p.indent) && p.low == old(p.low)
    ensures Depth(p) == old(Depth(p))
    ensures forall o :: Extends(o, old(p.out)) ==> Extends(o, p.out)
  {
    hide *;
    ReadyFacts(p);
    PrintServiceHandlesKeys();
    Emit(p, ServiceVars(s), MethodsOpen(), 0, 1);
    Indent(p);
    EmitText(p, ReturnHandles(), 0, 0);
    Outdent(p);
    EmitText(p, CloseLine(), 1, -1);
  }

  lemma PrintServiceMethodKeys()
    ensures Keys(TypedResult()) <= METHOD_KEYS
    ensures Keys(TypedOpen()) <= METHOD_KEYS
    ensures Keys(TypedBody()) <= METHOD_KEYS
    ensures Keys(CloseLine()) == {}
    ensures Keys(RawResult()) <= METHOD_KEYS
    ensures Keys(RawOpen()) <= METHOD_KEYS
    ensures Keys(RawBodyOpen()) <= METHOD_KEYS
    ensures Keys(RawReply()) == {}
    ensures Keys(LambdaClose()) == {}
  {
    hide T, V, O, C, B, Bare;
  }

  method PrintServiceMethod(p: SmfPrinter, s: Service, i: nat)
    requires Ready(p) && i < |s.methods|
    modifies p`out, p`indent, p`low
    ensures Ready(p) && p.indent == old(p.indent) && p.low == old(p.low)
    ensures Depth(p) == old(Depth(p))
    ensures forall o :: Extends(o, old(p.out)) ==> Extends(o, p.out)
  {
    hide *;
    ReadyFacts(p);
    PrintServiceMethodKeys();
    var vars := MethodVars(s, i);
    Emit(p, vars, TypedResult(), 0, 0);
    Emit(p, vars, TypedOpen(), 0, 1);
    Indent(p);
    Emit(p, vars, TypedBody(), 0, 0);
    Outdent(p);
    EmitText(p, CloseLine(), 1, -1);
    Emit(p, vars, RawResult(), 0, 0);
    Emit(p, vars, RawOpen(), 0, 1);
    Indent(p);
    Emit(p, vars, RawBodyOpen(), 0, 1);
    Indent(p);
    EmitText(p, RawReply(), 0, 0);
    Outdent(p);
    EmitText(p, LambdaClose(), 1, -1);
    Outdent(p);
    EmitText(p, CloseLine(), 1, -1);
  }

  lemma PrintServiceOverridesKeys()
    ensures Keys(ServiceNameOpen()) == {}
    ensures Keys(ServiceNameBody()) <= SERVICE_KEYS
    ensures Keys(ServiceIdOpen()) == {}
    ensures Keys(ServiceIdBody()) <= SERVICE_KEYS
    ensures Keys(PrintOpen()) == {}
    ensures Keys(PrintBody()) == {}
    ensures Keys(CloseLine()) == {}
  {
    hide T, V, O, C, B, Bare;
  }

  // The name, the id and the stream output of the service class.
  method PrintServiceOverrides(p: SmfPrinter, s: Service)
    requires Ready(p)
    modifies p`out, p`indent, p`low
    ensures Ready(p) && p.indent == old(p.indent) && p.low == old(p.low)
    ensures Depth(p) == old(Depth(p))
    ensures forall o :: Extends(o, old(p.out)) ==> Extends(o, p.out)
  {
    hide *;
    ReadyFacts(p);
    PrintServiceOverridesKeys();
    var vars := ServiceVars(s);
    EmitText(p, ServiceNameOpen(), 0, 1);
    Indent(p);
    Emit(p, vars, ServiceNameBody(), 0, 0);
    Outdent(p);
    EmitText(p, CloseLine(), 1, -1);
    EmitText(p, ServiceIdOpen(), 0, 1);
    Indent(p);
    Emit(p, vars, ServiceIdBody(), 0, 0);
    Outdent(p);
    EmitText(p, CloseLine(), 1, -1);
    EmitText(p, PrintOpen(), 0, 1);
    Indent(p);
    EmitText(p, PrintBody(), 0, 0);
    Outdent(p);
    EmitText(p, CloseLine(), 1, -1);
  }

  lemma PrintServiceKeys()
    ensures Keys(ServiceOpen()) <= SERVICE_KEYS
    ensures Keys(PrivateLine()) == {}
    ensures Keys(HandlesField()) <= SERVICE_KEYS
    ensures Keys(PublicLine()) == {}
    ensures Keys(ServiceClose()) <= SERVICE_KEYS
  {
    hide T, V, O, C, B, Bare;
  }

  method PrintService(p: SmfPrinter, s: Service)
    requires Ready(p)
    modifies p`out, p`indent, p`low
    ensures Ready(p) && p.indent == old(p.indent) && p.low == old(p.low)
    ensures Depth(p) == old(Depth(p))
    ensures forall o :: Extends(o, old(p.out)) ==> Extends(o, p.out)
    ensures HasConstructor(p.out, p.indentChar, p.indentStep, s) && HasSwitch(p.out, p.indentChar, p.indentStep, s)
  {
    hide *;
    ReadyFacts(p);
    PrintServiceKeys();
    var vars := ServiceVars(s);
    Emit(p, vars, ServiceOpen(), 0, 1);
    EmitText(p, PrivateLine(), 0, 0);
    Emit(p, vars, HandlesField(), 0, 0);
    EmitText(p, PublicLine(), 0, 0);
    Indent(p);
    ghost var level, o1 := p.indent, p.out;
    PrintServiceConstructor(p, s);
    ExtendsSelf(p.out);
    ghost var text1 := p.out;
    PrintServiceOverrides(p, s);
    PrintServiceHandles(p, s);
    ghost var o2 := p.out;
    PrintMethodForRequestId(p, s);
    ExtendsSelf(p.out);
    ghost var text2 := p.out;
    for i := 0 to |s.methods|
      invariant Ready(p) && p.indent == old(p.indent) + 1 && p.low == old(p.low)
      invariant Depth(p) == old(Depth(p)) + 1
      invariant forall o :: Extends(o, old(p.out)) ==> Extends(o, p.out)
      invariant Extends(text1, p.out) && Extends(text2, p.out)
    {
      PrintServiceMethod(p, s, i);
    }
    Outdent(p);
    Emit(p, vars, ServiceClose(), 1, -1);
    HasConstructorAt(o1, p.out, p.indentChar, p.indentStep, level, s);
    HasSwitchAt(o2, p.out, p.indentChar, p.indentStep, level, s);
  }

  lemma PrintClientMethodKeys()
    ensures Keys(ClientTypedOpen()) <= METHOD_KEYS
    ensures Keys(ClientTypedBody()) <= METHOD_KEYS
    ensures Keys(CloseLine()) == {}
    ensures Keys(ClientRawOpen()) <= METHOD_KEYS
    ensures Keys(ClientRawBody()) <= METHOD_KEYS
  {
    hide T, V, O, C, B, Bare;
  }

  // The body of a client's method: it sets the request id and sends.
  function RequestText(margin: string, service: nat, method_: nat, output: Name): string {
    margin + ("/// ServiceID: " + Decimal(service) + "\n")
    + (margin + ("/// MethodID:  " + Decimal(method_) + "\n")
       + (margin + ("e.set_request_id(" + (Decimal(service) + (" ^ " + (Decimal(method_) + ");"))) + "\n")
          + (margin + (("return send<" + (output + ">(std::move(e));")) + "\n"))))
  }

  lemma RequestShape()
    ensures ClientRawBody() == Text("/// ServiceID: ", Var(KServiceID, Break(Text("/// MethodID:  ", Var(KMethodID, Break(
                                 Text("e.set_request_id(", Var(KServiceID, Text(" ^ ", Var(KMethodID, Text(");", Break(
                                   Text("return send<", Var(KOutType, Text(">(std::move(e));", Break(End))))))))))))))))
  {
    hide Bare;
  }

  lemma RequestLines(margin: string, x: Name, y: Name, z: Name)
    ensures Indented(margin, "/// ServiceID: " + (x + ("\n" + ("/// MethodID:  " + (y + ("\n"
                             + ("e.set_request_id(" + (x + (" ^ " + (y + (");" + ("\n"
                             + ("return send<" + (z + (">(std::move(e));" + "\n")))))))))))))))
            == margin + ("/// ServiceID: " + x + "\n")
               + (margin + ("/// MethodID:  " + y + "\n")
                  + (margin + ("e.set_request_id(" + (x + (" ^ " + (y + ");"))) + "\n")
                     + (margin + (("return send<" + (z + ">(std::move(e));")) + "\n"))))
  {
    hide Indented;
    RequestNewlines(x, y, z);
    var l1, l2 := "/// ServiceID: " + x, "/// MethodID:  " + y;
    var l3, l4 := "e.set_request_id(" + (x + (" ^ " + (y + ");"))), "return send<" + (z + ">(std::move(e));");
    var r3 := l4 + "\n";
    var r2 := l3 + ("\n" + r3);
    var r1 := l2 + ("\n" + r2);
    hide Bare;
    OneLine(margin, l4);
    FirstLine(margin, l3, r3);
    FirstLine(margin, l2, r2);
    FirstLine(margin, l1, r1);
    RequestJoined(x, y, z);
  }

  lemma RequestNewlines(x: Name, y: Name, z: Name)
    ensures '\n' !in "/// ServiceID: " + x && '\n' !in "/// MethodID:  " + y
    ensures '\n' !in "e.set_request_id(" + (x + (" ^ " + (y + ");")))
    ensures '\n' !in "return send<" + (z + ">(std::move(e));")
  {
    NameLine(x);
    NameLine(y);
    NameLine(z);
    hide Bare;
  }

  lemma RequestJoined(x: string, y: string, z: string)
    ensures var l1, l2 := "/// ServiceID: " + x, "/// MethodID:  " + y;
            var l3, l4 := "e.set_request_id(" + (x + (" ^ " + (y + ");"))), "return send<" + (z + ">(std::move(e));");
            l1 + ("\n" + (l2 + ("\n" + (l3 + ("\n" + (l4 + "\n"))))))
            == "/// ServiceID: " + (x + ("\n" + ("/// MethodID:  " + (y + ("\n"
               + ("e.set_request_id(" + (x + (" ^ " + (y + (");" + ("\n"
               + ("return send<" + (z + (">(std::move(e));" + "\n"))))))))))))))
  {
    var a, b, c, d, e, f, g := "/// ServiceID: ", "/// MethodID:  ", "e.set_request_id(", " ^ ", ");", "return send<",
        ">(std::move(e));";
    JoinLines(a, x, b, y, c, d, e, f, z, g);
  }

  lemma JoinLines(a: string, x: string, b: string, y: string, c: string, d: string, e: string, f: string, z: string, g: string)
    ensures (a + x) + ("\n" + ((b + y) + ("\n" + ((c + (x + (d + (y + e)))) + ("\n" + ((f + (z + g)) + "\n"))))))
            == a + (x + ("\n" + (b + (y + ("\n" + (c + (x + (d + (y + (e + ("\n" + (f + (z + (g + "\n"))))))))))))))
  {
    var last := f + (z + (g + "\n"));
    assert (f + (z + g)) + "\n" == last;
    var third := c + (x + (d + (y + (e + ("\n" + last)))));
    assert (c + (x + (d + (y + e)))) + ("\n" + last) == third;
    var second := b + (y + ("\n" + third));
    assert (b + y) + ("\n" + third) == second;
  }

  lemma RequestFilled(margin: string, s: Service, i: nat)
    requires i < |s.methods|
    ensures Indented(margin, Fill(MethodVars(s, i), ClientRawBody()))
            == RequestText(margin, s.id, s.methods[i].id, s.methods[i].output)
  {
    hide Bare, Indented, Decimal, RawName;
    var b, x, y, z := MethodVars(s, i), Decimal(s.id), Decimal(s.methods[i].id), s.methods[i].output;
    RequestShape();
    MethodVarsAre(s, i);
    hide ClientRawBody, MethodVars, Fill;
    var t1 := Text("return send<", Var(KOutType, Text(">(std::move(e));", Break(End))));
    var t3 := Text("e.set_request_id(", Var(KServiceID, Text(" ^ ", Var(KMethodID, Text(");", Break(t1))))));
    FillVar(b, "return send<", KOutType, Text(">(std::move(e));", Break(End)));
    FillLine(b, ">(std::move(e));", End);
    FillVar(b, " ^ ", KMethodID, Text(");", Break(t1)));
    FillLine(b, ");", t1);
    FillVar(b, "e.set_request_id(", KServiceID, Text(" ^ ", Var(KMethodID, Text(");", Break(t1)))));
    FillVar(b, "/// MethodID:  ", KMethodID, Break(t3));
    FillVar(b, "/// ServiceID: ", KServiceID, Break(Text("/// MethodID:  ", Var(KMethodID, Break(t3)))));
    FillNext(b, t3);
    FillNext(b, Text("/// MethodID:  ", Var(KMethodID, Break(t3))));
    RequestLines(margin, x, y, z);
  }

  ghost function ClientMethodAfter(o: string, c: char, step: nat, level: int, s: Service, i: nat): string
    requires i < |s.methods|
  {
    o + Indented(Margin(c, step, level), Fill(MethodVars(s, i), ClientTypedOpen()))
    + Indented(Margin(c, step, level), Fill(MethodVars(s, i), ClientTypedBody()))
    + Indented(Margin(c, step, level), Str(CloseLine()))
    + Indented(Margin(c, step, level), Fill(MethodVars(s, i), ClientRawOpen()))
    + RequestText(Margin(c, step, level + 1), s.id, s.methods[i].id, s.methods[i].output)
    + Indented(Margin(c, step, level), Str(CloseLine()))
  }

  lemma ClientMethodIs(o: string, c: char, step: nat, level: int, s: Service, i: nat)
    requires i < |s.methods|
    ensures ClientMethodAfter(o, c, step, level, s, i)
            == o + Indented(Margin(c, step, level), Fill(MethodVars(s, i), ClientTypedOpen()))
               + Indented(Margin(c, step, level), Fill(MethodVars(s, i), ClientTypedBody()))
               + Indented(Margin(c, step, level), Str(CloseLine()))
               + Indented(Margin(c, step, level), Fill(MethodVars(s, i), ClientRawOpen()))
               + Indented(Margin(c, step, level + 1), Fill(MethodVars(s, i), ClientRawBody()))
               + Indented(Margin(c, step, level), Str(CloseLine()))
  {
    hide Indented, Fill, Str, Margin, MethodVars, RequestText, ClientTypedOpen, ClientTypedBody, ClientRawOpen,
      ClientRawBody, CloseLine;
    RequestFilled(Margin(c, step, level + 1), s, i);
  }

  method PrintClientMethod(p: SmfPrinter, s: Service, i: nat)
    requires Ready(p) && i < |s.methods|
    modifies p`out, p`indent, p`low
    ensures Ready(p) && p.indent == old(p.indent) && p.low == old(p.low)
    ensures Depth(p) == old(Depth(p))
    ensures forall o :: Extends(o, old(p.out)) ==> Extends(o, p.out)
    ensures p.out == ClientMethodAfter(old(p.out), p.indentChar, p.indentStep, p.indent, s, i)
  {
    hide *;
    ReadyFacts(p);
    PrintClientMethodKeys();
    ClientMethodIs(p.out, p.indentChar, p.indentStep, p.indent, s, i);
    var vars := MethodVars(s, i);
    Emit(p, vars, ClientTypedOpen(), 0, 1);
    Emit(p, vars, ClientTypedBody(), 0, 0);
    EmitText(p, CloseLine(), 1, -1);
    Emit(p, vars, ClientRawOpen(), 0, 1);
    Indent(p);
    Emit(p, vars, ClientRawBody(), 0, 0);
    Outdent(p);
    EmitText(p, CloseLine(), 1, -1);
  }

  function ClientVars(s: Service): (r: Bindings)
    ensures r.Keys == {KClientName, KServiceID}
  {
    map[KClientName := ClientName(s), KServiceID := Decimal(s.id)]
  }

  lemma PrintClientKeys()
    ensures Keys(ClientClass()) <= {KClientName, KServiceID}
    ensures Keys(ClientOpen()) == {}
    ensures Keys(ClientPublic()) == {}
    ensures Keys(AddressConstructor()) <= {KClientName, KServiceID}
    ensures Keys(OptionsConstructor()) <= {KClientName, KServiceID}
    ensures Keys(MoveConstructor()) <= {KClientName, KServiceID}
    ensures Keys(ClientDestructor()) <= {KClientName, KServiceID}
    ensures Keys(ClientNameOpen()) == {}
    ensures Keys(ClientNameBody()) <= {KClientName, KServiceID}
    ensures Keys(CloseLine()) == {}
    ensures Keys(ClientClose()) <= {KClientName, KServiceID}
  {
    hide T, V, O, C, B, Bare;
  }

  ghost predicate HasClientMethod(out: string, c: char, step: nat, s: Service, i: nat)
    requires i < |s.methods|
  {
    exists o: string, level: int :: Extends(ClientMethodAfter(o, c, step, level, s, i), out)
  }

  lemma HasClientMethodAt(o: string, out: string, c: char, step: nat, level: int, s: Service, i: nat)
    requires i < |s.methods| && Extends(ClientMethodAfter(o, c, step, level, s, i), out)
    ensures HasClientMethod(out, c, step, s, i)
  {}

  lemma HasClientMethodStays(a: string, b: string, c: char, step: nat, s: Service, i: nat)
    requires i < |s.methods| && HasClientMethod(a, c, step, s, i) && Extends(a, b)
    ensures HasClientMethod(b, c, step, s, i)
  {
    hide ClientMethodAfter;
    var o: string, level: int :| Extends(ClientMethodAfter(o, c, step, level, s, i), a);
    ExtendsTrans(ClientMethodAfter(o, c, step, level, s, i), a, b);
  }

  // All that dispatches the calls of a service: the constructor, whose i-th
  // handle calls the raw form of method i; the switch, whose i-th case is
  // labelled with the ids of method i and returns handle i; and for every
  // method the client's method, which sends those ids.
  ghost predicate HasService(out: string, c: char, step: nat, s: Service) {
    && HasConstructor(out, c, step, s) && HasSwitch(out, c, step, s)
    && forall j :: 0 <= j < |s.methods| ==> HasClientMethod(out, c, step, s, j)
  }

  lemma HasDispatchStays(a: string, b: string, c: char, step: nat, s: Service)
    requires HasConstructor(a, c, step, s) && HasSwitch(a, c, step, s) && Extends(a, b)
    ensures HasConstructor(b, c, step, s) && HasSwitch(b, c, step, s)
  {
    hide ConstructorAfter, SwitchAfter;
    var o: string, l: int :| Extends(ConstructorAfter(o, c, step, l, s), a);
    ExtendsTrans(ConstructorAfter(o, c, step, l, s), a, b);
    var o': string, l': int :| Extends(SwitchAfter(o', c, step, l', s), a);
    ExtendsTrans(SwitchAfter(o', c, step, l', s), a, b);
  }

  lemma HasServiceStays(a: string, b: string, c: char, step: nat, s: Service)
    requires HasService(a, c, step, s) && Extends(a, b)
    ensures HasService(b, c, step, s)
  {
    hide HasConstructor, HasSwitch, HasClientMethod, Extends;
    HasDispatchStays(a, b, c, step, s);
    forall j | 0 <= j < |s.methods| ensures HasClientMethod(b, c, step, s, j) {
      HasClientMethodStays(a, b, c, step, s, j);
    }
  }

  lemma HasServiceIs(out: string, c: char, step: nat, s: Service)
    requires HasConstructor(out, c, step, s) && HasSwitch(out, c, step, s)
    requires forall j :: 0 <= j < |s.methods| ==> HasClientMethod(out, c, step, s, j)
    ensures HasService(out, c, step, s)
  {}

  method PrintClientMethods(p: SmfPrinter, s: Service)
    requires Ready(p)
    modifies p`out, p`indent, p`low
    ensures Ready(p) && p.indent == old(p.indent) && p.low == old(p.low)
    ensures Depth(p) == old(Depth(p))
    ensures forall o :: Extends(o, old(p.out)) ==> Extends(o, p.out)
    ensures forall j :: 0 <= j < |s.methods| ==> HasClientMethod(p.out, p.indentChar, p.indentStep, s, j)
  {
    hide *;
    for i := 0 to |s.methods|
      invariant Ready(p) && p.indent == old(p.indent) && p.low == old(p.low)
      invariant Depth(p) == old(Depth(p))
      invariant forall o :: Extends(o, old(p.out)) ==> Extends(o, p.out)
      invariant forall j :: 0 <= j < i ==> HasClientMethod(p.out, p.indentChar, p.indentStep, s, j)
    {
      ghost var before, level := p.out, p.indent;
      ExtendsSelf(p.out);
      PrintClientMethod(p, s, i);
      ExtendsSelf(p.out);
      HasClientMethodAt(before, p.out, p.indentChar, p.indentStep, level, s, i);
      forall j | 0 <= j < i ensures HasClientMethod(p.out, p.indentChar, p.indentStep, s, j) {
        HasClientMethodStays(before, p.out, p.indentChar, p.indentStep, s, j);
      }
    }
  }

  // The constructors, the destructor and the name of the client class.
  method PrintClientMembers(p: SmfPrinter, s: Service)
    requires Ready(p)
    modifies p`out, p`indent, p`low
    ensures Ready(p) && p.indent == old(p.indent) && p.low == old(p.low)
    ensures Depth(p) == old(Depth(p))
    ensures forall o :: Extends(o, old(p.out)) ==> Extends(o, p.out)
  {
    hide *;
    ReadyFacts(p);
    PrintClientKeys();
    var vars := ClientVars(s);
    Emit(p, vars, AddressConstructor(), 0, 0);
    Emit(p, vars, OptionsConstructor(), 0, 0);
    Emit(p, vars, MoveConstructor(), 0, 0);
    Emit(p, vars, ClientDestructor(), 0, 0);
    EmitText(p, ClientNameOpen(), 0, 1);
    Indent(p);
    Emit(p, vars, ClientNameBody(), 0, 0);
    Outdent(p);
    EmitText(p, CloseLine(), 1, -1);
  }

  method PrintClient(p: SmfPrinter, s: Service)
    requires Ready(p)
    modifies p`out, p`indent, p`low
    ensures Ready(p) && p.indent == old(p.indent) && p.low == old(p.low)
    ensures Depth(p) == old(Depth(p))
    ensures forall o :: Extends(o, old(p.out)) ==> Extends(o, p.out)
    ensures forall j :: 0 <= j < |s.methods| ==> HasClientMethod(p.out, p.indentChar, p.indentStep, s, j)
  {
    hide *;
    ReadyFacts(p);
    PrintClientKeys();
    var vars := ClientVars(s);
    Emit(p, vars, ClientClass(), 0, 0);
    EmitText(p, ClientOpen(), 0, 1);
    Indent(p);
    EmitText(p, ClientPublic(), 0, 0);
    Indent(p);
    PrintClientMembers(p, s);
    PrintClientMethods(p, s);
    Outdent(p);
    ghost var before := p.out;
    ExtendsSelf(p.out);
    Emit(p, vars, ClientClose(), 1, -1);
    Outdent(p);
    forall j | 0 <= j < |s.methods| ensures HasClientMethod(p.out, p.indentChar, p.indentStep, s, j) {
      HasClientMethodStays(before, p.out, p.indentChar, p.indentStep, s, j);
    }
  }

  function StreamVars(s: Service): (r: Bindings)
    ensures r.Keys == {KFQDNService, KServiceHandleSize}
  {
    map[KFQDNService := Qualified(s.components, s.name), KServiceHandleSize := Decimal(|s.methods|)]
  }

  lemma PrintStdOstreamKeys()
    ensures Keys(StdOpen()) == {}
    ensures Keys(StreamOpen()) <= {KFQDNService, KServiceHandleSize}
    ensures Keys(StreamTotal()) <= {KFQDNService, KServiceHandleSize}
    ensures Keys(StreamComma()) == {}
    ensures Keys(StreamMethod()) <= METHOD_KEYS
    ensures Keys(StreamEnd()) == {}
    ensures Keys(CloseLine()) == {}
    ensures Keys(StdClose()) == {}
  {
    hide T, V, O, C, B, Bare;
  }

  method PrintStdOstream(p: SmfPrinter, s: Service)
    requires Ready(p)
    modifies p`out, p`indent, p`low
    ensures Ready(p) && p.indent == old(p.indent) && p.low == old(p.low)
    ensures Depth(p) == old(Depth(p))
    ensures forall o :: Extends(o, old(p.out)) ==> Extends(o, p.out)
  {
    hide *;
    ReadyFacts(p);
    PrintStdOstreamKeys();
    var vars := StreamVars(s);
    EmitText(p, StdOpen(), 0, 1);
    Indent(p);
    Emit(p, vars, StreamOpen(), 0, 1);
    Indent(p);
    Emit(p, vars, StreamTotal(), 0, 1);
    for i := 0 to |s.methods|
      invariant Ready(p) && p.indent == old(p.indent) + 2 && p.low == old(p.low)
      invariant Depth(p) == old(Depth(p)) + 3
      invariant forall o :: Extends(o, old(p.out)) ==> Extends(o, p.out)
    {
      if i != 0 {
        EmitText(p, StreamComma(), 0, 0);
      }
      Emit(p, MethodVars(s, i), StreamMethod(), 0, 0);
    }
    EmitText(p, StreamEnd(), 1, -1);
    Outdent(p);
    EmitText(p, CloseLine(), 1, -1);
    Outdent(p);
    EmitText(p, StdClose(), 1, -1);
  }

  // ---------- The whole header ----------

  function FileVars(f: File): (r: Bindings)
    ensures r.Keys == {Kfilename, Kfilename_identifier, Kfilename_base}
  {
    map[Kfilename := f.name, Kfilename_identifier := FileIdentifier(f.base), Kfilename_base := f.base]
  }

  const MESSAGE_EXTENSION: Name := "_generated.h"

  function IncludeVars(f: File): (r: Bindings)
    ensures r.Keys == {Kfilename, Kfilename_identifier, Kfilename_base, Kmessage_header_ext}
  {
    FileVars(f) + map[Kmessage_header_ext := MESSAGE_EXTENSION]
  }

  function HeaderVars(header: Name): (r: Bindings)
    ensures r.Keys == {Kheader}
  {
    map[Kheader := header]
  }

  function PartVars(part: Name): (r: Bindings)
    ensures r.Keys == {Kpart}
  {
    map[Kpart := part]
  }

  lemma GeneratePrologueKeys()
    ensures Keys(GeneratedBy()) == {}
    ensures Keys(WillBeLost()) == {}
    ensures Keys(SourceFile()) <= {Kfilename, Kfilename_identifier, Kfilename_base}
    ensures Keys(TransitiveFile()) <= {Kheader}
    ensures Keys(PragmaOnce()) == {}
    ensures Keys(GuardOpen()) <= {Kfilename, Kfilename_identifier, Kfilename_base}
    ensures Keys(GuardDefine()) <= {Kfilename, Kfilename_identifier, Kfilename_base}
  {
    hide T, V, O, C, B, Bare;
  }

  method GeneratePrologue(p: SmfPrinter, f: File)
    requires Ready(p)
    modifies p`out, p`indent, p`low
    ensures Ready(p) && p.indent == old(p.indent) && p.low == old(p.low)
    ensures Depth(p) == old(Depth(p))
    ensures forall o :: Extends(o, old(p.out)) ==> Extends(o, p.out)
  {
    hide *;
    ReadyFacts(p);
    GeneratePrologueKeys();
    var vars := FileVars(f);
    EmitText(p, GeneratedBy(), 0, 0);
    EmitText(p, WillBeLost(), 0, 0);
    Emit(p, vars, SourceFile(), 0, 0);
    for i := 0 to |f.includes|
      invariant Ready(p) && p.indent == old(p.indent) && p.low == old(p.low)
      invariant Depth(p) == old(Depth(p))
      invariant forall o :: Extends(o, old(p.out)) ==> Extends(o, p.out)
    {
      if f.includes[i] != f.name {
        Emit(p, HeaderVars(f.includes[i]), TransitiveFile(), 0, 0);
      }
    }
    EmitText(p, PragmaOnce(), 0, 0);
    Emit(p, vars, GuardOpen(), 0, 0);
    Emit(p, vars, GuardDefine(), 0, 0);
  }

  lemma GenerateIncludesKeys()
    ensures Keys(IncludeSystem()) <= {Kheader}
    ensures Keys(BlankLine()) == {}
    ensures Keys(IncludeMessages()) <= {Kfilename, Kfilename_identifier, Kfilename_base, Kmessage_header_ext}
  {
    hide T, V, O, C, B, Bare;
  }

  method GenerateIncludes(p: SmfPrinter, f: File, headers: seq<Name>)
    requires Ready(p)
    modifies p`out, p`indent, p`low
    ensures Ready(p) && p.indent == old(p.indent) && p.low == old(p.low)
    ensures Depth(p) == old(Depth(p))
    ensures forall o :: Extends(o, old(p.out)) ==> Extends(o, p.out)
  {
    hide *;
    ReadyFacts(p);
    GenerateIncludesKeys();
    for i := 0 to |headers|
      invariant Ready(p) && p.indent == old(p.indent) && p.low == old(p.low)
      invariant Depth(p) == old(Depth(p))
      invariant forall o :: Extends(o, old(p.out)) ==> Extends(o, p.out)
    {
      Emit(p, HeaderVars(headers[i]), IncludeSystem(), 0, 0);
    }
    EmitText(p, BlankLine(), 0, 0);
    Emit(p, IncludeVars(f), IncludeMessages(), 0, 0);
  }

  lemma OpenNamespacesKeys()
    ensures Keys(NamespaceOpen()) <= {Kpart}
    ensures Keys(BlankLine()) == {}
  {
    hide T, V, O, C, B, Bare;
  }

  method OpenNamespaces(p: SmfPrinter, f: File)
    requires Ready(p)
    modifies p`out, p`indent, p`low
    ensures Ready(p) && p.indent == old(p.indent) && p.low == old(p.low)
    ensures Depth(p) == old(Depth(p)) + |f.package|
    ensures forall o :: Extends(o, old(p.out)) ==> Extends(o, p.out)
  {
    hide *;
    ReadyFacts(p);
    OpenNamespacesKeys();
    if f.package != [] {
      for i := 0 to |f.package|
        invariant Ready(p) && p.indent == old(p.indent) && p.low == old(p.low)
        invariant Depth(p) == old(Depth(p)) + i
        invariant forall o :: Extends(o, old(p.out)) ==> Extends(o, p.out)
      {
        Emit(p, PartVars(f.package[i]), NamespaceOpen(), 0, 1);
      }
      EmitText(p, BlankLine(), 0, 0);
    }
  }

  lemma CloseNamespacesKeys()
    ensures Keys(NamespaceClose()) <= {Kpart}
    ensures Keys(BlankLine()) == {}
  {
    hide T, V, O, C, B, Bare;
  }

  method CloseNamespaces(p: SmfPrinter, f: File)
    requires Ready(p) && Depth(p) >= |f.package|
    modifies p`out, p`indent, p`low
    ensures Ready(p) && p.indent == old(p.indent) && p.low == old(p.low)
    ensures Depth(p) == old(Depth(p)) - |f.package|
    ensures forall o :: Extends(o, old(p.out)) ==> Extends(o, p.out)
  {
    hide *;
    ReadyFacts(p);
    CloseNamespacesKeys();
    if f.package != [] {
      for i := |f.package| downto 0
        invariant Ready(p) && p.indent == old(p.indent) && p.low == old(p.low)
        invariant Depth(p) == old(Depth(p)) - |f.package| + i
        invariant forall o :: Extends(o, old(p.out)) ==> Extends(o, p.out)
      {
        Emit(p, PartVars(f.package[i]), NamespaceClose(), 1, -1);
      }
      EmitText(p, BlankLine(), 0, 0);
    }
    EmitText(p, BlankLine(), 0, 0);
  }

  lemma ForwardDeclarationsKeys()
    ensures Keys(ForwardService()) <= SERVICE_KEYS
    ensures Keys(ForwardClient()) <= {KClientName, KServiceID}
    ensures Keys(BlankLine()) == {}
  {
    hide T, V, O, C, B, Bare;
  }

  method ForwardDeclarations(p: SmfPrinter, f: File)
    requires Ready(p)
    modifies p`out, p`indent, p`low
    ensures Ready(p) && p.indent == old(p.indent) && p.low == old(p.low)
    ensures Depth(p) == old(Depth(p))
    ensures forall o :: Extends(o, old(p.out)) ==> Extends(o, p.out)
  {
    hide *;
    ReadyFacts(p);
    ForwardDeclarationsKeys();
    for i := 0 to |f.services|
      invariant Ready(p) && p.indent == old(p.indent) && p.low == old(p.low)
      invariant Depth(p) == old(Depth(p))
      invariant forall o :: Extends(o, old(p.out)) ==> Extends(o, p.out)
    {
      Emit(p, ServiceVars(f.services[i]), ForwardService(), 0, 0);
      Emit(p, ClientVars(f.services[i]), ForwardClient(), 0, 0);
    }
    EmitText(p, BlankLine(), 0, 0);
  }

  // The inner of the two nested loops shadows the outer one's variable, so that
  // n services are printed n times each.
  lemma ExternalDeclarationsKeys()
    ensures Keys(BlankLine()) == {}
  {
    hide T, V, O, C, B, Bare;
  }

  method ExternalDeclarations(p: SmfPrinter, f: File)
    requires Ready(p)
    modifies p`out, p`indent, p`low
    ensures Ready(p) && p.indent == old(p.indent) && p.low == old(p.low)
    ensures Depth(p) == old(Depth(p))
    ensures forall o :: Extends(o, old(p.out)) ==> Extends(o, p.out)
  {
    hide *;
    ReadyFacts(p);
    ExternalDeclarationsKeys();
    for i := 0 to |f.services|
      invariant Ready(p) && p.indent == old(p.indent) && p.low == old(p.low)
      invariant Depth(p) == old(Depth(p))
      invariant forall o :: Extends(o, old(p.out)) ==> Extends(o, p.out)
    {
      for j := 0 to |f.services|
        invariant Ready(p) && p.indent == old(p.indent) && p.low == old(p.low)
        invariant Depth(p) == old(Depth(p))
        invariant forall o :: Extends(o, old(p.out)) ==> Extends(o, p.out)
      {
        PrintStdOstream(p, f.services[j]);
      }
    }
    EmitText(p, BlankLine(), 0, 0);
  }

  // Service and client of one service, each with a blank line.
  method PrintOneService(p: SmfPrinter, s: Service)
    requires Ready(p)
    modifies p`out, p`indent, p`low
    ensures Ready(p) && p.indent == old(p.indent) && p.low == old(p.low)
    ensures Depth(p) == old(Depth(p))
    ensures forall o :: Extends(o, old(p.out)) ==> Extends(o, p.out)
    ensures HasService(p.out, p.indentChar, p.indentStep, s)
  {
    hide *;
    ReadyFacts(p);
    ForwardDeclarationsKeys();
    PrintService(p, s);
    ghost var text1 := p.out;
    ExtendsSelf(p.out);
    EmitText(p, BlankLine(), 0, 0);
    PrintClient(p, s);
    HasDispatchStays(text1, p.out, p.indentChar, p.indentStep, s);
    HasServiceIs(p.out, p.indentChar, p.indentStep, s);
    ghost var text2 := p.out;
    ExtendsSelf(p.out);
    EmitText(p, BlankLine(), 0, 0);
    HasServiceStays(text2, p.out, p.indentChar, p.indentStep, s);
  }

  method GenerateServices(p: SmfPrinter, f: File)
    requires Ready(p)
    modifies p`out, p`indent, p`low
    ensures Ready(p) && p.indent == old(p.indent) && p.low == old(p.low)
    ensures Depth(p) == old(Depth(p))
    ensures forall o :: Extends(o, old(p.out)) ==> Extends(o, p.out)
    ensures forall k :: 0 <= k < |f.services| ==> HasService(p.out, p.indentChar, p.indentStep, f.services[k])
  {
    hide *;
    ReadyFacts(p);
    for i := 0 to |f.services|
      invariant Ready(p) && p.indent == old(p.indent) && p.low == old(p.low)
      invariant Depth(p) == old(Depth(p))
      invariant forall o :: Extends(o, old(p.out)) ==> Extends(o, p.out)
      invariant forall k :: 0 <= k < i ==> HasService(p.out, p.indentChar, p.indentStep, f.services[k])
    {
      ghost var before := p.out;
      ExtendsSelf(p.out);
      PrintOneService(p, f.services[i]);
      forall k | 0 <= k < i ensures HasService(p.out, p.indentChar, p.indentStep, f.services[k]) {
        HasServiceStays(before, p.out, p.indentChar, p.indentStep, f.services[k]);
      }
    }
  }

  // gen(), on a printer with some text and some level already.
  lemma GenerateKeys()
    ensures Keys(BlankLines()) == {}
    ensures Keys(GuardClose()) <= {Kfilename, Kfilename_identifier, Kfilename_base}
  {
    hide T, V, O, C, B, Bare;
  }

  method Generate(p: SmfPrinter, f: File, headers: seq<Name>)
    requires Ready(p)
    modifies p`out, p`indent, p`low
    ensures Ready(p) && p.indent == old(p.indent) && p.low == old(p.low)
    ensures Depth(p) == old(Depth(p))
    ensures forall o :: Extends(o, old(p.out)) ==> Extends(o, p.out)
    ensures forall k :: 0 <= k < |f.services| ==> HasService(p.out, p.indentChar, p.indentStep, f.services[k])
  {
    hide *;
    ReadyFacts(p);
    GenerateKeys();
    GeneratePrologue(p, f);
    GenerateIncludes(p, f, headers);
    OpenNamespaces(p, f);
    ForwardDeclarations(p, f);
    CloseNamespaces(p, f);
    ExternalDeclarations(p, f);
    OpenNamespaces(p, f);
    GenerateServices(p, f);
    ghost var text := p.out;
    ExtendsSelf(p.out);
    CloseNamespaces(p, f);
    EmitText(p, BlankLines(), 0, 0);
    Emit(p, FileVars(f), GuardClose(), 0, 0);
    forall k | 0 <= k < |f.services| ensures HasService(p.out, p.indentChar, p.indentStep, f.services[k]) {
      HasServiceStays(text, p.out, p.indentChar, p.indentStep, f.services[k]);
    }
  }

  // For every schema the generated header closes every brace that it opens and
  // none that it does not, no placeholder is left in it, and it dispatches the
  // calls of every service.
  method Header(f: File, headers: seq<Name>) returns (contents: string)
    ensures Nest(0, contents) == 0 && '$' !in contents
    ensures forall k :: 0 <= k < |f.services| ==> HasService(contents, ' ', 2, f.services[k])
  {
    hide HasService, Nest;
    EmptyNests();
    var p := new SmfPrinter('$');
    SpacePlain();
    Generate(p, f, headers);
    contents := p.out;
  }

  lemma EmptyNests()
    ensures Nest(0, "") == 0
  {}

  lemma SpacePlain()
    ensures Plain([' '])
  {}
}
