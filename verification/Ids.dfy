// Service and method ids, and the dispatch of a request id to a handle.

module Ids {
  import opened Bytes

  // ---------- Method id strings ----------

  predicate Identifier(s: string) { s != "" && ':' !in s }

  // A type's namespace components followed by its name.
  predicate Path(p: seq<string>) {
    p != [] && forall i :: 0 <= i < |p| ==> Identifier(p[i])
  }

  // boost::algorithm::join with "::".
  function Join(p: seq<string>): string
    requires p != []
  {
    if |p| == 1 then p[0] else p[0] + "::" + Join(p[1..])
  }

  datatype Call = Call(name: string, input: seq<string>, output: seq<string>)

  predicate WellFormed(c: Call) { Identifier(c.name) && Path(c.input) && Path(c.output) }

  function MethodString(c: Call): string
    requires WellFormed(c)
  {
    c.name + ":" + Join(c.input) + ":" + Join(c.output)
  }

  // Text that may follow an identifier: nothing, or something after a colon.
  predicate Tail(s: string) { s == "" || s[0] == ':' }

  lemma SplitIdentifier(a: string, b: string, x: string, y: string)
    requires ':' !in a && ':' !in b && Tail(x) && Tail(y)
    requires a + x == b + y
    ensures a == b && x == y
  {
    var s := a + x;
    assert forall k :: 0 <= k < |b| ==> s[k] == b[k];
    assert x != "" ==> s[|a|] == ':';
    assert y != "" ==> s[|b|] == ':';
    assert |a| == |b|;
    assert s[..|a|] == a && s[..|b|] == b && s[|a|..] == x && s[|b|..] == y;
  }

  // Text that may follow a path: nothing, or a single colon.
  predicate SingleColon(s: string) {
    s == "" || (s[0] == ':' && |s| > 1 && s[1] != ':')
  }

  function AfterFirst(p: seq<string>, x: string): string
    requires p != []
  {
    if |p| == 1 then x else "::" + Join(p[1..]) + x
  }

  lemma {:induction false} JoinInjective(p: seq<string>, q: seq<string>, x: string, y: string)
    requires Path(p) && Path(q) && SingleColon(x) && SingleColon(y)
    requires Join(p) + x == Join(q) + y
    ensures p == q && x == y
  {
    var u, v := AfterFirst(p, x), AfterFirst(q, y);
    assert Join(p) + x == p[0] + u && Join(q) + y == q[0] + v;
    assert |p| > 1 ==> u[0] == u[1] == ':';
    assert |q| > 1 ==> v[0] == v[1] == ':';
    SplitIdentifier(p[0], q[0], u, v);
    assert p == [p[0]] + p[1..] && q == [q[0]] + q[1..];
    if |p| > 1 && |q| > 1 {
      assert u[2..] == Join(p[1..]) + x && v[2..] == Join(q[1..]) + y;
      JoinInjective(p[1..], q[1..], x, y);
    }
  }

  lemma JoinStarts(p: seq<string>)
    requires Path(p)
    ensures Join(p) != "" && Join(p)[0] == p[0][0] && Join(p)[0] != ':'
  {
    assert p[0][0] in p[0];
  }

  // Two calls with the same id string are the same call.
  lemma MethodStringInjective(c: Call, d: Call)
    requires WellFormed(c) && WellFormed(d) && MethodString(c) == MethodString(d)
    ensures c == d
  {
    JoinStarts(c.input);
    JoinStarts(d.input);
    JoinStarts(c.output);
    JoinStarts(d.output);
    hide Join;
    var cx, dx := ":" + Join(c.output), ":" + Join(d.output);
    var ci, di := Join(c.input) + cx, Join(d.input) + dx;
    assert MethodString(c) == c.name + (":" + ci) && MethodString(d) == d.name + (":" + di);
    SplitIdentifier(c.name, d.name, ":" + ci, ":" + di);
    assert (":" + ci)[1..] == ci && (":" + di)[1..] == di;
    JoinInjective(c.input, d.input, cx, dx);
    assert cx[1..] == Join(c.output) && dx[1..] == Join(d.output);
    assert Join(c.output) + "" == Join(d.output) + "";
    JoinInjective(c.output, d.output, "", "");
  }

  // ---------- Request ids ----------

  // boost::crc_32_type, left abstract.
  type Crc = string -> bv32

  datatype Service = Service(name: string, calls: seq<Call>) {
    ghost predicate Ok() { forall i :: 0 <= i < |calls| ==> WellFormed(calls[i]) }
  }

  function MethodId(crc: Crc, c: Call): bv32
    requires WellFormed(c)
  {
    crc(MethodString(c))
  }

  // The id that the clients of all three languages put into a request, and
  // the case label of the generated switch.
  function RequestId(crc: Crc, s: Service, j: nat): bv32
    requires s.Ok() && j < |s.calls|
  {
    Xor(crc(s.name), MethodId(crc, s.calls[j]))
  }

  function Xor(a: bv32, b: bv32): bv32 { a ^ b }

  lemma XorTwice(a: bv32, b: bv32)
    ensures Xor(a, Xor(a, b)) == b
  {}

  lemma XorSelf(a: bv32)
    ensures Xor(a, a) == 0 && Xor(a, 0) == a
  {}

  lemma XorCancels(a: bv32, b: bv32, c: bv32)
    ensures Xor(a, b) == Xor(a, c) <==> b == c
    ensures Xor(a, b) == 0 <==> a == b
  {
    hide Xor;
    XorTwice(a, b);
    XorTwice(a, c);
    XorSelf(a);
  }

  lemma {:induction false} JoinConcat(p: seq<string>, q: seq<string>)
    requires p != [] && q != []
    ensures Join(p + q) == Join(p) + "::" + Join(q)
    ensures Join([p[0]]) == p[0]
  {
    if |p| == 1 {
      assert (p + q)[1..] == q;
    } else {
      assert (p + q)[1..] == p[1..] + q;
      JoinConcat(p[1..], q);
      assert Join(p + q) == p[0] + "::" + (Join(p[1..]) + "::" + Join(q));
    }
  }

  // The request id is the service's id with the method's folded in: undoing the
  // service's part leaves the hash of name, input type and output type.
  lemma RequestIdIs(crc: Crc, s: Service, j: nat)
    requires s.Ok() && j < |s.calls|
    ensures var c := s.calls[j];
            RequestId(crc, s, j) ^ crc(s.name) == crc(c.name + ":" + Join(c.input) + ":" + Join(c.output))
  {
    hide Join, WellFormed;
    XorUndoes(crc(s.name), crc(MethodString(s.calls[j])));
  }

  lemma SameBits(x: bv32, n: uint32)
    requires n == x as int
    ensures n as bv32 == x
  {}

  lemma XorUndoes(a: bv32, b: bv32)
    ensures Xor(a, b) ^ a == b
  {}

  // Within a service two methods share a request id only if their signatures
  // are equal or crc32 collides on two different signatures.
  lemma SharedIdIsCollision(crc: Crc, s: Service, i: nat, j: nat)
    requires s.Ok() && i < |s.calls| && j < |s.calls|
    ensures RequestId(crc, s, i) == RequestId(crc, s, j)
            <==> || s.calls[i] == s.calls[j]
                 || (&& MethodString(s.calls[i]) != MethodString(s.calls[j])
                     && crc(MethodString(s.calls[i])) == crc(MethodString(s.calls[j])))
  {
    hide MethodString, WellFormed, Xor;
    var x, y := MethodString(s.calls[i]), MethodString(s.calls[j]);
    XorCancels(crc(s.name), crc(x), crc(y));
    if x == y { MethodStringInjective(s.calls[i], s.calls[j]); }
  }
}

// smf_service: the constructor computes the ids of a parsed service.
module ServiceObject {
  import opened Ids

  class SmfService {
    const service: Service
    const serviceId: bv32
    var methodIds: seq<bv32>

    // Case label j of the generated switch, and the id a client sends.
    function Label(j: nat): bv32
      requires j < |methodIds|
      reads this
    {
      Xor(serviceId, methodIds[j])
    }

    constructor (crc: Crc, service: Service)
      requires service.Ok()
      ensures this.service == service && |methodIds| == |service.calls|
      ensures forall j :: 0 <= j < |methodIds| ==> Label(j) == RequestId(crc, service, j)
    {
      this.service := service;
      this.serviceId := crc(service.name);
      this.methodIds := [];
      new;
      hide MethodId;
      for i := 0 to |service.calls|
        invariant |methodIds| == i
        invariant forall j :: 0 <= j < i ==> methodIds[j] == MethodId(crc, service.calls[j])
      {
        methodIds := methodIds + [MethodId(crc, service.calls[i])];
      }
    }
  }
}

module Router {
  import opened Bytes
  import opened Ids

  // A handle: a registered service and the position among its methods.
  datatype Handle = Handle(service: Service, method_: nat)

  ghost predicate AllOk(ss: seq<Service>) { forall s :: s in ss ==> s.Ok() }

  // Handle h answers to id.
  ghost predicate Answers(crc: Crc, ss: seq<Service>, h: Handle, id: bv32)
    requires AllOk(ss)
  {
    h.service in ss && h.method_ < |h.service.calls| && RequestId(crc, h.service, h.method_) == id
  }

  // No two methods of the registered services share an id.
  ghost predicate DistinctIds(crc: Crc, ss: seq<Service>)
    requires AllOk(ss)
  {
    forall s, t, i: nat, j: nat :: s in ss && t in ss && i < |s.calls| && j < |t.calls| ==>
      RequestId(crc, s, i) == RequestId(crc, t, j) ==> s == t && i == j
  }

  // The handle at the first matching case of the first service that has one.
  ghost predicate IsFirst(crc: Crc, ss: seq<Service>, id: bv32, i: nat, j: nat)
    requires AllOk(ss)
  {
    && i < |ss| && j < |ss[i].calls| && RequestId(crc, ss[i], j) == id
    && (forall j' :: 0 <= j' < j ==> RequestId(crc, ss[i], j') != id)
    && (forall i', j' :: 0 <= i' < i && 0 <= j' < |ss[i'].calls| ==> RequestId(crc, ss[i'], j') != id)
  }

  class RpcHandleRouter {
    const crc: Crc
    var services: seq<Service>

    constructor (crc: Crc)
      ensures services == [] && this.crc == crc
    {
      this.crc := crc;
      services := [];
    }

    // Registering adds the service's own methods and leaves every request that
    // was answered before with the handle it had.
    method RegisterService(s: Service)
      requires AllOk(services) && s.Ok()
      modifies this`services
      ensures services == old(services) + [s] && AllOk(services)
      ensures forall id: bv32, i: nat, j: nat :: IsFirst(crc, old(services), id, i, j) ==> IsFirst(crc, services, id, i, j)
      ensures forall j: nat :: j < |s.calls| ==> Answers(crc, services, Handle(s, j), RequestId(crc, s, j))
    {
      services := services + [s];
    }

    // get_handle_for_request(): each service's generated switch in turn.
    method GetHandleForRequest(id: bv32) returns (r: Option<Handle>)
      requires AllOk(services)
      ensures match r
              case None => forall h :: !Answers(crc, services, h, id)
              case Some(h) =>
                exists i: nat, j: nat :: IsFirst(crc, services, id, i, j) && h == Handle(services[i], j)
    {
      for i := 0 to |services|
        invariant forall i', j' :: 0 <= i' < i && 0 <= j' < |services[i'].calls| ==>
                    RequestId(crc, services[i'], j') != id
      {
        var s := services[i];
        var j := MethodForRequestId(crc, s, id);
        if j.Some? {
          assert IsFirst(crc, services, id, i, j.value);
          return Some(Handle(s, j.value));
        }
      }
      return None;
    }
  }

  // The switch generated for a service.
  method MethodForRequestId(crc: Crc, s: Service, id: bv32) returns (r: Option<nat>)
    requires s.Ok()
    ensures match r
            case None => forall j :: 0 <= j < |s.calls| ==> RequestId(crc, s, j) != id
            case Some(j) =>
              && j < |s.calls| && RequestId(crc, s, j) == id
              && forall j' :: 0 <= j' < j ==> RequestId(crc, s, j') != id
  {
    for j := 0 to |s.calls|
      invariant forall j' :: 0 <= j' < j ==> RequestId(crc, s, j') != id
    {
      if RequestId(crc, s, j) == id {
        return Some(j);
      }
    }
    return None;
  }

  // With distinct ids there is at most one answer, whatever the order of
  // registration: any two first matches in any two orders are the same handle.
  lemma DispatchAgrees(crc: Crc, ss: seq<Service>, tt: seq<Service>, id: bv32, i: nat, j: nat, h: Handle)
    requires AllOk(ss) && AllOk(tt) && multiset(ss) == multiset(tt) && DistinctIds(crc, ss)
    requires IsFirst(crc, tt, id, i, j) && Answers(crc, ss, h, id)
    ensures h == Handle(tt[i], j)
  {
    SameElements(tt, ss, tt[i]);
  }

  lemma SameElements(xs: seq<Service>, ys: seq<Service>, x: Service)
    requires multiset(xs) == multiset(ys) && x in xs
    ensures x in ys
  {
    assert x in multiset(xs);
  }

  // The whole way from a generated client to a handler, and back: the id that
  // the client of method j of a registered service sends is routed to exactly
  // that method in every order of registration.
  method RouteCall(router: RpcHandleRouter, s: Service, j: nat) returns (r: Option<Handle>)
    requires AllOk(router.services) && DistinctIds(router.crc, router.services)
    requires s in router.services && j < |s.calls|
    ensures r == Some(Handle(s, j))
  {
    var id := RequestId(router.crc, s, j);
    r := router.GetHandleForRequest(id);
    assert Answers(router.crc, router.services, Handle(s, j), id);
    if r.Some? {
      ghost var i: nat, j': nat :| IsFirst(router.crc, router.services, id, i, j') && r.value == Handle(router.services[i], j');
      DispatchAgrees(router.crc, router.services, router.services, id, i, j', Handle(s, j));
    }
  }

  // What do_dispatch_rpc() makes of a request id: the handle to be applied, or
  // None where it marks the connection as in error.
  ghost predicate Selected(crc: Crc, ss: seq<Service>, id: bv32, r: Option<Handle>)
    requires AllOk(ss)
  {
    match r
    case None => id == 0 || forall h :: !Answers(crc, ss, h, id)
    case Some(h) =>
      id != 0 && exists i: nat, j: nat :: IsFirst(crc, ss, id, i, j) && h == Handle(ss[i], j)
  }

  // The server cannot select anything but h for this id.
  ghost predicate RoutedTo(crc: Crc, ss: seq<Service>, id: bv32, h: Handle)
    requires AllOk(ss)
  {
    forall r :: Selected(crc, ss, id, r) ==> r == Some(h)
  }

  method SelectHandle(router: RpcHandleRouter, id: bv32) returns (r: Option<Handle>)
    requires AllOk(router.services)
    ensures Selected(router.crc, router.services, id, r)
  {
    if id == 0 {
      return None;
    }
    r := router.GetHandleForRequest(id);
  }

  // The server refuses request id zero before routing, so that a call reaches
  // its method, in every order of registration, exactly when the method's own
  // id differs from its service's.
  lemma UnreachableMethod(crc: Crc, ss: seq<Service>, s: Service, j: nat, r: Option<Handle>)
    requires AllOk(ss) && DistinctIds(crc, ss) && s in ss && j < |s.calls|
    requires Selected(crc, ss, RequestId(crc, s, j), r)
    ensures r == Some(Handle(s, j)) <==> crc(s.name) != MethodId(crc, s.calls[j])
    ensures r == None <==> crc(s.name) == MethodId(crc, s.calls[j])
  {
    hide MethodId, Xor, WellFormed;
    var id := RequestId(crc, s, j);
    XorCancels(crc(s.name), MethodId(crc, s.calls[j]), 0);
    assert Answers(crc, ss, Handle(s, j), id);
    if r.Some? {
      var i: nat, j': nat :| IsFirst(crc, ss, id, i, j') && r.value == Handle(ss[i], j');
      DispatchAgrees(crc, ss, ss, id, i, j', Handle(s, j));
    }
  }
}
