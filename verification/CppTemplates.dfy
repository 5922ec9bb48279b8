// The templates of cpp_generator: their types say how many open braces
// each one needs and leaves.

module CppTemplates {
  import opened Schema
  import opened Templates

  function Destructor(): Flat { T("virtual ~", V(KService, T("() = default;", B(End)))) }

  function ConstructorOpen(): OpensTwo { V(KService, T("() : handles_", O(O(B(End))))) }

  function HandleOpen(): Flat { T("smf::rpc_service_method_", T("handle(", B(End))) }

  function HandlerOpen(): Opens {
    T("[this](smf::rpc_recv_", T("context c) -> seastar::", T("future<smf::rpc_", T("envelope> ", O(B(End))))))
  }

  function SessionNote(): Flat {
    T("// Session accounting", B(T("auto session_id = ", T("c.session();", B(End)))))
  }

  function RawCallOpen(): Opens {
    T("return ", V(KRawMethodName, T("(std::move(c)).then(", T("[session_id](smf::rpc_", T("envelope e) ", O(B(
      End)))))))
  }

  function SessionSet(): Flat {
    T("e.letter.header.mutate_", T("session(session_id);", B(T("return seastar::make_", SessionSetRest()))))
  }

  function SessionSetRest(): Flat { T("ready_future<smf::rpc_", T("envelope>(std::move(e));", B(End))) }

  function HandleCloseComma(): ClosesTwo { C(T(");", C(T("),", B(End))))) }

  function HandleClose(): ClosesTwo { C(T(");", C(T(")", B(End))))) }

  function ConstructorClose(): ClosesTwo { C(C(T(" ", O(C(B(End)))))) }

  function MethodForOpen(): Opens {
    T("virtual smf::rpc_", T("service_method_handle *", B(T("method_for_request_id(", MethodForOpenRest()))))
  }

  function MethodForOpenRest(): Opens { T("uint32_t idx) override ", T("final ", O(B(End)))) }

  function SwitchOpen(): Opens { T("switch(idx)", O(B(End))) }

  function SwitchCase(): Flat {
    T("case (", V(KServiceID, T(" ^ ", V(KMethodId, T("): return &handles_[", V(KVectorIdx, T("];", B(
      End))))))))
  }

  function SwitchDefault(): Flat { T("default: return nullptr;", B(End)) }

  function CloseLine(): Closes { C(B(End)) }

  function MethodsOpen(): Opens {
    T("virtual const std::", T("array<smf::rpc_service_", T("method_handle, ", V(KServiceHandleSize, T("> &", B(
      MethodsOpenRest()))))))
  }

  function MethodsOpenRest(): Opens { T("methods() final ", O(B(End))) }

  function ReturnHandles(): Flat { T("return handles_;", B(End)) }

  function TypedResult(): Flat {
    T("inline virtual", B(T("seastar::future<smf::", T("rpc_typed_envelope<", V(KOutType, T(">>", B(End)))))))
  }

  function TypedOpen(): Opens {
    V(KMethodName, T("(smf::rpc_recv_typed_", T("context<", V(KInType, T("> &&rec) ", O(B(End)))))))
  }

  function TypedBody(): Flat {
    T("using out_type = ", V(KOutType, T(";", B(T("using env_t = smf::rpc_", T("typed_envelope<out_type>",
      T(";", B(TypedBodyRest()))))))))
  }

  function TypedBodyRest(): Flat {
    T("env_t data;", B(T("// User should override ", T("this method.", B(T("//", B(TypedBodyRest2())))))))
  }

  function TypedBodyRest2(): Flat {
    T("// Helpful for clients ", T("to set the status.", B(T("// Typically follows ", TypedBodyRest3()))))
  }

  function TypedBodyRest3(): Flat {
    T("HTTP style. Not imposed ", T("by smf whatsoever.", B(T("// i.e. 501 == Method ", TypedBodyRest4()))))
  }

  function TypedBodyRest4(): Flat {
    T("not implemented", B(T("data.envelope.set_", T("status(501);", B(T("return seastar::make_",
      TypedBodyRest5()))))))
  }

  function TypedBodyRest5(): Flat { T("ready_future<env_t>(std:", T(":move(data));", B(End))) }

  function RawResult(): Flat { T("inline virtual", B(T("seastar::future<smf::", T("rpc_envelope>", B(End))))) }

  function RawOpen(): Opens { V(KRawMethodName, T("(smf::rpc_recv_context ", T("&&c) ", O(B(End))))) }

  function RawBodyOpen(): Opens {
    T("using inner_t = ", V(KInType, T(";", B(T("using input_t = smf::", T("rpc_recv_typed_context<",
      RawBodyOpenRest()))))))
  }

  function RawBodyOpenRest(): Opens {
    T("inner_t>;", B(T("using mid_t = smf::rpc_", T("typed_envelope<", V(KOutType, T(">;", B(T("return ",
      V(KMethodName, RawBodyOpenRest2())))))))))
  }

  function RawBodyOpenRest2(): Opens {
    T("(input_t(std::move(", T("c))).then([this](mid_t ", T("x) ", O(B(End)))))
  }

  function RawReply(): Flat {
    T("return seastar::make_", T("ready_future<smf::rpc_", T("envelope>(x.serialize_", RawReplyRest())))
  }

  function RawReplyRest(): Flat { T("data());", B(End)) }

  function LambdaClose(): Closes { C(T(");", B(End))) }

  function ServiceOpen(): Opens { T("class ", V(KService, T(": public smf::rpc_", T("service ", O(B(End)))))) }

  function PrivateLine(): Flat { T(" private:", B(End)) }

  function HandlesField(): Flat {
    T("  std::array<smf::rpc_", T("service_method_handle, ", V(KServiceHandleSize, T("> handles_;", B(End)))))
  }

  function PublicLine(): Flat { T(" public:", B(End)) }

  function ServiceNameOpen(): Opens {
    T("virtual const char *", B(T("service_name() const ", T("override final ", O(B(End))))))
  }

  function ServiceNameBody(): Flat { T("return \"", V(KService, T("\";", B(End)))) }

  function ServiceIdOpen(): Opens {
    T("virtual uint32_t", B(T("service_id() const ", T("override final ", O(B(End))))))
  }

  function ServiceIdBody(): Flat { T("return ", V(KServiceID, T(";", B(End)))) }

  function PrintOpen(): Opens {
    T("virtual std::ostream &", B(T("print(std::ostream &o) ", T("const override final ", O(B(End))))))
  }

  function PrintBody(): Flat { T("return o << *this;", B(End)) }

  function ServiceClose(): Closes { C(T("; // end of service: ", V(KService, B(End)))) }

  function ClientTypedOpen(): Opens {
    T("inline virtual", B(T("seastar::future<smf::", T("rpc_recv_typed_context<", V(KOutType, T(">>", B(
      V(KMethodName, ClientTypedOpenRest()))))))))
  }

  function ClientTypedOpenRest(): Opens {
    T("(smf::rpc_typed_", T("envelope<", V(KInType, T("> x) ", O(B(End))))))
  }

  function ClientTypedBody(): Flat { T("  return ", V(KMethodName, T("(x.serialize_data());", B(End)))) }

  function ClientRawOpen(): Opens {
    T("inline virtual", B(T("seastar::future<smf::", T("rpc_recv_typed_context<", V(KOutType, T(">>", B(
      V(KMethodName, ClientRawOpenRest()))))))))
  }

  function ClientRawOpenRest(): Opens { T("(smf::rpc_envelope e) ", O(B(End))) }

  function ClientRawBody(): Flat {
    T("/// ServiceID: ", V(KServiceID, B(T("/// MethodID:  ", V(KMethodID, B(T("e.set_request_id(",
      V(KServiceID, T(" ^ ", V(KMethodID, T(");", B(ClientRawBodyRest()))))))))))))
  }

  function ClientRawBodyRest(): Flat { T("return send<", V(KOutType, T(">(std::move(e));", B(End)))) }

  function ClientClass(): Flat { T("class ", V(KClientName, T(": ", End))) }

  function ClientOpen(): Opens { T("public smf::rpc_client ", O(B(End))) }

  function ClientPublic(): Flat { T("public:", B(End)) }

  function AddressConstructor(): Flat {
    T("explicit ", V(KClientName, T("(seastar::ipv4_addr ", T("server_addr)", B(T(":smf::rpc_client(std::",
      AddressConstructorRest()))))))
  }

  function AddressConstructorRest(): Flat { T("move(server_addr)) ", O(C(B(End)))) }

  function OptionsConstructor(): Flat {
    T("explicit ", V(KClientName, T("(smf::rpc_client_opts o)", B(T(":smf::rpc_client(std::", T("move(o)) ", O(
      C(B(End)))))))))
  }

  function MoveConstructor(): Flat { V(KClientName, T("(", V(KClientName, T(" &&o) = default;", B(End))))) }

  function ClientDestructor(): Flat { T("virtual ~", V(KClientName, T("() = default;", B(End)))) }

  function ClientNameOpen(): Opens { T("virtual const char ", T("*name() const final ", O(B(End)))) }

  function ClientNameBody(): Flat { T("return \"", V(KClientName, T("\";", B(End)))) }

  function ClientClose(): Closes { C(T("; // end of rpc client: ", V(KClientName, B(End)))) }

  function StdOpen(): Opens { T("namespace std ", O(B(End))) }

  function StreamOpen(): Opens {
    T("inline ostream& ", T("operator<<(ostream &o, ", T("const ", V(KFQDNService, T(" &s) ", O(B(End)))))))
  }

  function StreamTotal(): Opens {
    T("o << \"", V(KFQDNService, T("=", O(T("total_handles=", V(KServiceHandleSize, T(",\";", B(End))))))))
  }

  function StreamComma(): Flat { T("o << \", \";", B(End)) }

  function StreamMethod(): Flat {
    T("o << \"method=", O(T("id=", V(KMethodId, T(", fn=", V(KMethodName, T("(", V(KInType, T("):", V(KOutType,
      C(T("\";", B(End)))))))))))))
  }

  function StreamEnd(): Closes { T("return o << \"", C(T("\";", B(End)))) }

  function StdClose(): Closes { C(T(" // namespace std", B(End))) }

  function GeneratedBy(): Flat { T("// Generated by smfc.", B(End)) }

  function WillBeLost(): Flat { T("// Any local changes ", T("WILL BE LOST.", B(End))) }

  function SourceFile(): Flat { T("// source: ", V(Kfilename, B(End))) }

  function TransitiveFile(): Flat { T("// transitive fbs: ", V(Kheader, B(End))) }

  function PragmaOnce(): Flat { T("#pragma once", B(End)) }

  function GuardOpen(): Flat { T("#ifndef SMF_", V(Kfilename_identifier, T("_INCLUDED", B(End)))) }

  function GuardDefine(): Flat { T("#define SMF_", V(Kfilename_identifier, T("_INCLUDED", B(B(End))))) }

  function BlankLine(): Flat { B(End) }

  function BlankLines(): Flat { B(B(End)) }

  function ForwardService(): Flat { T("class ", V(KService, T(";", B(End)))) }

  function ForwardClient(): Flat { T("class ", V(KClientName, T(";", B(End)))) }

  function NamespaceOpen(): Opens { T("namespace ", V(Kpart, T(" ", O(B(End))))) }

  function NamespaceClose(): Closes { C(T("  // namespace ", V(Kpart, B(End)))) }

  function IncludeSystem(): Flat { T("#include <", V(Kheader, T(">", B(End)))) }

  function IncludeMessages(): Flat {
    T("#include \"", V(Kfilename_base, V(Kmessage_header_ext, T("\"", B(B(End))))))
  }

  function GuardClose(): Flat { T("#endif  // SMF_", V(Kfilename_identifier, T("_INCLUDED", B(End)))) }
}
