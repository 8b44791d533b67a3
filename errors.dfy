/**
 * The values the request pipeline throws: the library's own error classes
 * (CUIError and its subclasses), the built-in TypeError and Error, and
 * whatever a user callback throws.
 */
module Errors {
  import opened Js
  import opened Wrappers

  /** One field-level validation failure. The field is represented by its name and title. */
  datatype Fault = Fault(message: Value, fieldName: string, fieldTitle: string, value: Value)

  /** A record payload: field name to coerced value. */
  type Payload = map<string, Value>

  datatype Error =
    | CUIError(message: string, code: int)
    | CSRFError
    | ActionNotSupported(action: string)
    | ValidationError(message: string, faults: seq<Fault>, byFieldName: map<string, seq<Fault>>, payload: Payload)
    | TypeError(message: string)
    | PlainError(message: string)
    | Thrown(thrown: Value)
  {
    /** `err instanceof CUIError` */
    predicate IsCUIError() {
      CUIError? || CSRFError? || ActionNotSupported? || ValidationError?
    }

    /** `err.code`, where the error has one. */
    function Code(): (c: Option<int>)
      ensures c.Some? <==> IsCUIError()
    {
      match this
      case CUIError(_, code) => Some(code)
      case CSRFError => Some(403)
      case ActionNotSupported(_) => Some(500)
      case ValidationError(_, _, _, _) => Some(400)
      case _ => None
    }

    /** `err.message` */
    function Message(): string {
      match this
      case CUIError(m, _) => m
      case CSRFError => CSRFMessage
      case ActionNotSupported(action) => "Action \"" + action + "\" is not supported"
      case ValidationError(m, _, _, _) => m
      case TypeError(m) => m
      case PlainError(m) => m
      case Thrown(v) => ToStr(v)
    }
  }

  const CSRFMessage := "Invalid or missing CSRF token. Reload and try again"

  /** `new CUIError(message, code)`: the code defaults to 500 when it is left out. */
  function NewCUIError(message: string, code: Option<int>): (e: Error)
    ensures e.IsCUIError() && e.Message() == message
    ensures e.Code() == Some(if code.Some? then code.value else 500)
  {
    CUIError(message, code.GetOr(500))
  }

  /** `CUIActionNotSupportedError.assert(handlers, op)`: throws with code 500 iff `handlers[op]` is not a function. */
  function AssertActionSupported(handlers: Value, op: string): (o: Outcome<Error>)
    ensures o.Fail? <==> TypeOf(Get(handlers, op)) != "function"
    ensures o.Fail? ==> o.error == ActionNotSupported(op) && o.error.Code() == Some(500)
  {
    if TypeOf(Get(handlers, op)) != "function" then Fail(ActionNotSupported(op)) else Pass
  }
}
