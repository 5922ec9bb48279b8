// The templates of python_generator.

module PythonTemplates {
  import opened Schema
  import opened Templates

  function CallDef(): Flat { T("async def ", V(KMethodName, T("(self, x):", B(End)))) }

  function RequestNote(): Flat { T("# request id = ", V(KServiceID, T(" ^ ", V(KMethodID, B(End))))) }

  function CallSend(): Flat {
    T("buf, status = await ", T("self._conn.call(x, ", V(KRequestID, T(")", B(End)))))
  }

  function CallReturn(): Flat {
    T("return ", V(KOutType, T(".GetRootAsPutResponse(", T("buf, 0), status", B(End)))))
  }

  function ClassDef(): Flat { T("class ", V(KClientName, T(":", B(End)))) }

  function InitDef(): Flat { T("def __init__(self, ", T("conn):", B(End))) }

  function InitBody(): Flat { T("self._conn = conn", B(B(End))) }

  function BlankLine(): Flat { B(End) }
}
