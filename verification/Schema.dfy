// A parsed schema as the generators see it, and the names that they derive
// from it.

module Schema {
  import opened Bytes
  import opened Printer
  import opened Nesting

  // Text without braces, escape characters and newlines.
  predicate Bare(s: string) {
    forall i :: 0 <= i < |s| ==> s[i] != '{' && s[i] != '}' && s[i] != '$' && s[i] != '\n'
  }

  type Name = s: string | Bare(s) witness ""

  // The type names are as the target language spells them.
  datatype Method = Method(name: Name, input: Name, output: Name, id: uint32)

  datatype Service = Service(name: Name, components: seq<Name>, id: uint32, methods: seq<Method>)

  datatype File = File(name: Name, base: Name, includes: seq<Name>, package: seq<Name>, services: seq<Service>)

  // ---------- Derived names ----------

  function Cat(a: Name, b: Name): Name { a + b }

  function Decimal(n: nat): Name {
    if n < 10 then [('0' as int + n) as char] else Cat(Decimal(n / 10), [('0' as int + n % 10) as char])
  }

  function ToUpper(c: char): char { if 'a' <= c <= 'z' then (c as int - 32) as char else c }
  function ToLower(c: char): char { if 'A' <= c <= 'Z' then (c as int + 32) as char else c }

  function Capitalized(s: Name): Name {
    if s == "" then "" else Cat([ToUpper(s[0])], s[1..])
  }

  function Lower(s: Name): Name {
    seq(|s|, i requires 0 <= i < |s| => ToLower(s[i]))
  }

  predicate IsCamelCase(s: string) { exists i :: 0 <= i < |s| && 'A' <= s[i] <= 'Z' }

  const RAW: Name := "raw"
  const CLIENT: Name := "client"

  // proper_prefix_token("raw", name)
  function RawName(m: Method): Name {
    if IsCamelCase(m.name) then Cat(Capitalized(RAW), Capitalized(m.name)) else Lower(Cat(RAW, Cat("_", m.name)))
  }

  // proper_postfix_token(name, "client")
  function ClientName(s: Service): Name {
    if IsCamelCase(s.name) then Cat(Capitalized(s.name), Capitalized(CLIENT))
    else Lower(Cat(s.name, Cat("_", CLIENT)))
  }

  // Without an upper-case letter, lowering changes nothing, so the two tokens
  // are these.
  lemma Tokens(m: Method, s: Service)
    ensures RawName(m) == if IsCamelCase(m.name) then "Raw" + Capitalized(m.name) else "raw_" + m.name
    ensures ClientName(s) == if IsCamelCase(s.name) then Capitalized(s.name) + "Client" else s.name + "_client"
  {
    assert Capitalized(RAW) == "Raw" && Capitalized(CLIENT) == "Client";
    if !IsCamelCase(m.name) {
      var t := "raw_" + m.name;
      assert Cat(RAW, Cat("_", m.name)) == t;
      assert Lower(t) == t;
    }
    if !IsCamelCase(s.name) {
      var t := s.name + "_client";
      assert Cat(s.name, Cat("_", CLIENT)) == t;
      assert Lower(t) == t;
    }
  }

  // The raw form of a method never clashes with the method.
  lemma RawNameDiffers(m: Method)
    ensures RawName(m) != m.name
  {
    Tokens(m, Service("", [], 0, []));
  }

  lemma CapitalizedIs(s: Name)
    ensures s != "" ==> |Capitalized(s)| == |s| && Capitalized(s)[1..] == s[1..]
                        && Capitalized(s)[0] == if 'a' <= s[0] <= 'z' then (s[0] as int - 32) as char else s[0]
  {}

  // The components and the name joined by "::".
  function Qualified(components: seq<Name>, name: Name): Name {
    if components == [] then name else Cat(components[0], Cat("::", Qualified(components[1..], name)))
  }

  function Hex(n: nat): Name
    requires n < 16
  {
    if n < 10 then [('0' as int + n) as char] else [('a' as int + (n - 10)) as char]
  }

  // file_name_identifier(): letters and digits in upper case, anything else but
  // an underscore as its code.
  function FileIdentifier(s: string): Name {
    if s == "" then ""
    else
      var c := s[0];
      var head: Name :=
        if 'a' <= c <= 'z' || 'A' <= c <= 'Z' || '0' <= c <= '9' then [ToUpper(c)]
        else if c == '_' then "_"
        else Cat("_", Cat(Hex(c as int / 16 % 16), Hex(c as int % 16)));
      Cat(head, FileIdentifier(s[1..]))
  }

  // An include guard is a valid macro name.
  lemma {:induction false} GuardIsIdentifier(s: string)
    ensures forall i :: 0 <= i < |FileIdentifier(s)| ==>
              var c := FileIdentifier(s)[i];
              'A' <= c <= 'Z' || 'a' <= c <= 'f' || '0' <= c <= '9' || c == '_'
  {
    if s != "" { GuardIsIdentifier(s[1..]); }
  }

  // to_string() loses nothing.
  function Value(s: string): int {
    if s == "" then 0 else 10 * Value(s[..|s| - 1]) + (s[|s| - 1] as int - '0' as int)
  }

  lemma {:induction false} DecimalValue(n: nat)
    ensures Decimal(n) != "" && Value(Decimal(n)) == n && Digits(Decimal(n))
  {
    if n >= 10 {
      var d := Decimal(n / 10);
      DecimalValue(n / 10);
      assert Decimal(n)[..|d|] == d;
    }
  }

  predicate Digits(s: string) { forall i :: 0 <= i < |s| ==> '0' <= s[i] <= '9' }

  lemma DecimalInjective(m: nat, n: nat)
    requires Decimal(m) == Decimal(n)
    ensures m == n
  {
    DecimalValue(m);
    DecimalValue(n);
  }

  // Two numbers, each followed by something that does not start with a digit.
  lemma DecimalSplit(m: nat, n: nat, x: string, y: string)
    requires Decimal(m) + x == Decimal(n) + y
    requires x != "" && !('0' <= x[0] <= '9') && y != "" && !('0' <= y[0] <= '9')
    ensures m == n && x == y
  {
    hide Decimal;
    DecimalValue(m);
    DecimalValue(n);
    var a, b := Decimal(m), Decimal(n);
    var s := a + x;
    assert s[|a|] == x[0] && s[|b|] == y[0];
    assert forall i :: 0 <= i < |b| ==> s[i] == b[i];
    assert |a| == |b|;
    assert s[..|a|] == a && s[..|b|] == b && s[|a|..] == x && s[|b|..] == y;
    DecimalInjective(m, n);
  }

  // ---------- Variables of a template ----------

  datatype Key =
    | KService | KServiceID | KServiceHandleSize | KMethodName | KRawMethodName | KInType | KOutType | KMethodId
    | KMethodID | KVectorIdx | KClientName | KFQDNService | Kfilename | Kfilename_identifier | Kfilename_base
    | Kmessage_header_ext | Kheader | Kpart | KInterfaceName | KServiceName | KOutputType | Kpackage | KRequestID

  function Spelled(k: Key): string {
    match k
    case KService => "Service"
    case KServiceID => "ServiceID"
    case KServiceHandleSize => "ServiceHandleSize"
    case KMethodName => "MethodName"
    case KRawMethodName => "RawMethodName"
    case KInType => "InType"
    case KOutType => "OutType"
    case KMethodId => "MethodId"
    case KMethodID => "MethodID"
    case KVectorIdx => "VectorIdx"
    case KClientName => "ClientName"
    case KFQDNService => "FQDNService"
    case Kfilename => "filename"
    case Kfilename_identifier => "filename_identifier"
    case Kfilename_base => "filename_base"
    case Kmessage_header_ext => "message_header_ext"
    case Kheader => "header"
    case Kpart => "part"
    case KInterfaceName => "InterfaceName"
    case KServiceName => "ServiceName"
    case KOutputType => "OutputType"
    case Kpackage => "package"
    case KRequestID => "RequestID"
  }

  lemma SpelledInjective(a: Key, b: Key)
    requires Spelled(a) == Spelled(b)
    ensures a == b
  {}

  predicate OfService(k: Key) {
    || k.KService? || k.KServiceID? || k.KServiceHandleSize? || k.KClientName? || k.KFQDNService?
    || k.KInterfaceName? || k.KServiceName?
  }

  predicate OfMethod(k: Key) {
    || k.KMethodName? || k.KRawMethodName? || k.KInType? || k.KOutType? || k.KMethodId? || k.KMethodID?
    || k.KVectorIdx? || k.KOutputType? || k.KRequestID?
  }

  lemma ServiceKeyBare(k: Key)
    requires OfService(k)
    ensures Bare(Spelled(k))
  {}

  lemma MethodKeyBare(k: Key)
    requires OfMethod(k)
    ensures Bare(Spelled(k))
  {}

  lemma FileKeyBare(k: Key)
    requires !OfService(k) && !OfMethod(k)
    ensures Bare(Spelled(k))
  {}

  lemma SpelledBare(k: Key)
    ensures Bare(Spelled(k))
  {
    hide Spelled, Bare;
    if OfService(k) {
      ServiceKeyBare(k);
    } else if OfMethod(k) {
      MethodKeyBare(k);
    } else {
      FileKeyBare(k);
    }
  }

  type Bindings = map<Key, Name>

  // The map that is handed to the printer.
  function VarsOf(b: Bindings): Vars {
    forall j, k | j in b && k in b && Spelled(j) == Spelled(k) ensures j == k { SpelledInjective(j, k); }
    map k | k in b :: Spelled(k) := b[k]
  }

  lemma VarsAre(b: Bindings, k: Key)
    ensures Spelled(k) in VarsOf(b) <==> k in b
    ensures k in b ==> VarsOf(b)[Spelled(k)] == b[k]
  {
    hide Spelled;
    forall j, i | Spelled(j) == Spelled(i) ensures j == i { SpelledInjective(j, i); }
  }

  lemma VarsPlain(b: Bindings)
    ensures PlainVars(VarsOf(b)) && CleanValues('$', VarsOf(b))
  {
    hide Spelled;
    var vars := VarsOf(b);
    forall s | s in vars ensures Plain(s) && Plain(vars[s]) && '$' !in vars[s] {
      var k :| k in b && Spelled(k) == s;
      SpelledBare(k);
      VarsAre(b, k);
      assert Bare(b[k]);
    }
  }
}
