// The templates of go_generator: their types say how many open braces
// each one needs and leaves.

module GoTemplates {
  import opened Schema
  import opened Templates

  function RawMethodOpen(): Opens {
    T("func (s *", V(KServiceName, T(") ", V(KRawMethodName, T("(ctx context.Context, ",
      T("req []byte) ([]byte, ", T("error) ", O(B(End)))))))))
  }

  function RawMethodBody(): Flat {
    T("return s.", V(KInterfaceName, T(".", V(KMethodName, T("(ctx, GetRootAs", V(KInType, T("(req, 0))", B(
      End))))))))
  }

  function CloseLines(): Closes { C(B(B(End))) }

  function CloseLine(): Closes { C(B(End)) }

  function MethodHandleOpen(): Opens {
    T("func (s *", V(KServiceName, T(") MethodHandle(id ", T("uint32) smf.RawHandle ", O(B(End))))))
  }

  function SwitchOpen(): Opens { T("switch id ", O(B(End))) }

  function SwitchCase(): Flat { T("case ", V(KServiceID, T(" ^ ", V(KMethodID, T(":", B(End)))))) }

  function SwitchReturn(): Flat { T("return s.", V(KRawMethodName, B(End))) }

  function SwitchDefault(): Flat { T("default:", B(End)) }

  function ReturnNil(): Flat { T("return nil", B(End)) }

  function InterfaceNote(): Flat {
    B(T("// ", V(KInterfaceName, T(" - ", V(KInterfaceName, T(" Server interface", B(End)))))))
  }

  function InterfaceOpen(): Opens { T("type ", V(KInterfaceName, T(" interface ", O(B(End))))) }

  function InterfaceMethod(): Flat {
    V(KMethodName, T("(context.Context, *", V(KInType, T(") ([]byte, error)", B(End)))))
  }

  function ServiceStructOpen(): Opens { T("type ", V(KServiceName, T(" struct ", O(B(End))))) }

  function ServiceStructBody(): Flat { V(KInterfaceName, B(End)) }

  function NewServiceOpen(): Opens {
    T("func New", V(KServiceName, T("(s ", V(KInterfaceName, T(") *", V(KServiceName, T(" ", O(B(End)))))))))
  }

  function NewServiceBody(): Flat { T("return &", V(KServiceName, O(V(KInterfaceName, T(": s", C(B(End))))))) }

  function ServiceNameOpen(): Opens { T("func (s *", V(KServiceName, T(") ServiceName() string ", O(B(End))))) }

  function ServiceNameBody(): Flat { T("return \"", V(KInterfaceName, T("\"", B(End)))) }

  function ServiceIdOpen(): Opens { T("func (s *", V(KServiceName, T(") ServiceID() uint32 ", O(B(End))))) }

  function ServiceIdBody(): Flat { T("return ", V(KServiceID, B(End))) }

  function CallOpen(): Opens {
    T("func (s *", V(KClientName, T(") ", V(KMethodName, T("(ctx context.Context, ", T("req []byte) (*",
      V(KOutputType, T(", error) ", O(B(End))))))))))
  }

  function CallSend(): Opens {
    T("res, err := s.", V(KRawMethodName, T("(ctx, req)", B(T("if err != nil ", O(B(End)))))))
  }

  function CallError(): Flat { T("return nil, err", B(End)) }

  function CallReturn(): Flat { T("return GetRootAs", V(KOutputType, T("(res, 0), nil", B(End)))) }

  function RawCallOpen(): Opens {
    T("func (s *", V(KClientName, T(") ", V(KRawMethodName, T("(ctx context.Context, ",
      T("req []byte) ([]byte, ", T("error) ", O(B(End)))))))))
  }

  function RawCallBody(): Flat {
    T("return ", T("s.Client.SendRecv(req, ", V(KServiceID, T("^", V(KMethodID, T(")", B(End)))))))
  }

  function ClientNote(): Flat { T("// Client", B(End)) }

  function ClientStructOpen(): Opens { T("type ", V(KClientName, T(" struct ", O(B(End))))) }

  function ClientStructBody(): Flat { T("*smf.Client", B(End)) }

  function NewClientOpen(): Opens {
    T("func New", V(KClientName, T("(c *smf.Client) *", V(KClientName, T(" ", O(B(End)))))))
  }

  function NewClientBody(): Flat { T("return &", V(KClientName, O(T("Client: c", C(B(End)))))) }

  function GeneratedBy(): Flat { T("// Generated by smfc.", B(End)) }

  function WillBeLost(): Flat { T("// Any local changes ", T("WILL BE LOST.", B(End))) }

  function SourceFile(): Flat { T("// source: ", V(Kfilename, B(End))) }

  function PackageLine(): Flat { T("package ", V(Kpackage, B(B(End)))) }

  function ImportOpen(): Flat { T("import (", B(End)) }

  function ImportList(): Flat { T("\"context\"", B(T("\"github.com/smfrpc/smf-go/src/smf\"", B(End)))) }

  function ImportClose(): Flat { T(")", B(End)) }
}
