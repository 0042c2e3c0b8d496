/**
 * JSON-RPC error codes, the exceptions the server raises, and the outcome of
 * an operation that may throw. PHP distinguishes an `Exception`, which the
 * handlers' `catch (Exception $e)` blocks catch, from an `Error` (a TypeError,
 * for instance), which they do not: the first is `Throw`, the second `Fatal`.
 */
module Errors {
  import opened Values
  import Dict

  const PARSE_ERROR: int := -32700
  const INVALID_REQUEST: int := -32600
  const METHOD_NOT_FOUND: int := -32601
  const INVALID_PARAMS: int := -32602
  const INTERNAL_ERROR: int := -32603
  /** Custom server errors use the range -32099 to -32000. */
  const SERVER_ERROR_START: int := -32099
  const SERVER_ERROR_END: int := -32000
  /** Used by the resource handlers for an unknown URI. */
  const RESOURCE_NOT_FOUND: int := -32002

  /** A TypeError raised while passing an argument of the wrong type. */
  const ARGUMENT_TYPE_ERROR: string := "TypeError: argument has the wrong type"

  /** The exception classes the core throws; only `JsonRpcError` carries a code and data. */
  datatype ExceptionClass =
    | JsonRpcError(code: int, data: Value)
    | RuntimeException
    | InvalidArgumentException
    | PlainException

  datatype Exception = Exception(cls: ExceptionClass, message: string)

  datatype Outcome<+T> =
    | Ok(value: T)
    | Throw(exc: Exception)
    | Fatal(error: string)
  {
    predicate IsFailure() {
      !Ok?
    }

    function PropagateFailure<U>(): Outcome<U>
      requires IsFailure()
    {
      match this
      case Throw(e) => Throw(e)
      case Fatal(m) => Fatal(m)
    }

    function Extract(): T
      requires !IsFailure()
    {
      value
    }
  }

  /** `new JsonRpcError($message, $code, $data)`. */
  function RpcError(message: string, code: int, data: Value := Null): (e: Exception)
    ensures GetCode(e) == code && e.message == message && GetErrorData(e) == data
    ensures e.cls.JsonRpcError?
  {
    Exception(JsonRpcError(code, data), message)
  }

  /** `getCode()`: exceptions built without a code report 0. */
  function GetCode(e: Exception): int {
    if e.cls.JsonRpcError? then e.cls.code else 0
  }

  /** `getErrorData()`: only a JsonRpcError has data. */
  function GetErrorData(e: Exception): Value {
    if e.cls.JsonRpcError? then e.cls.data else Null
  }

  /** A JSON-RPC error object: code and message, and data only when it is not null. */
  function ErrorObject(code: int, message: string, data: Value): (r: PhpArray)
    ensures Lookup(r, "code") == Int(code)
    ensures Lookup(r, "message") == Str(message)
    ensures Lookup(r, "data") == data
    ensures Dict.Keys(r) == if data == Null then [StrKey("code"), StrKey("message")]
                            else [StrKey("code"), StrKey("message"), StrKey("data")]
  {
    var base := [(StrKey("code"), Int(code)), (StrKey("message"), Str(message))];
    Dict.Literal2((StrKey("code"), Int(code)), (StrKey("message"), Str(message)));
    if data != Null then With(base, "data", data) else base
  }

  /** `JsonRpcError::toArray()`. */
  function ToArray(e: Exception): (r: PhpArray)
    requires e.cls.JsonRpcError?
    ensures Lookup(r, "code") == Int(GetCode(e))
    ensures Lookup(r, "message") == Str(e.message)
    ensures Dict.HasKey(r, StrKey("data")) <==> GetErrorData(e) != Null
    ensures Lookup(r, "data") == GetErrorData(e)
    ensures Dict.Keys(r) == if GetErrorData(e) == Null then [StrKey("code"), StrKey("message")]
                            else [StrKey("code"), StrKey("message"), StrKey("data")]
  {
    ErrorObject(e.cls.code, e.message, e.cls.data)
  }
}
