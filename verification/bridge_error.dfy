/**
 * The bridge's typed error, its three codes, and the discriminator that
 * generic error handling uses to tell "the bridge rejected this" from
 * anything else that was thrown.
 */
module BridgeError {
  import opened Wrappers
  import opened JsValue

  /** The `name` of every bridge error, and the name of its class. */
  const Name := "JSBridgeError"

  const CodeNotSupport := "NOT_SUPPORT"
  const CodeCmdErr := "CMD_ERR"
  const CodeParseResErr := "CODE_PARSE_RES_ERR"

  /**
   * The message of a bridge error. The source's messages are prose; each is
   * modelled by the site that raises it and the values it interpolates.
   */
  datatype Message =
    | NoMessage
    | NotNativeMode
    | UnsupportedClient
    | ContextNotInjected(contextName: string)
    | EventMissing
    | ActionMissing
    | IosHandlersMissing
    | ContextNotConfigured(contextName: string)
    | ResponseUnparsable(event: Value, action: Value)
    | ResponseNotJson(event: Value, action: Value)

  /** A bridge error; a datatype value, so nothing can change it after construction. */
  datatype JSBridgeError = JSBridgeError(name: string, code: string, message: Message, date: nat)

  /**
   * `new JSBridgeError(code, message)` at time `date`; an omitted code
   * becomes NOT_SUPPORT and the name is always JSBridgeError.
   */
  function NewJSBridgeError(code: Option<string>, message: Message, date: nat): (e: JSBridgeError)
    ensures e.name == Name
    ensures code.None? ==> e.code == CodeNotSupport
    ensures code.Some? ==> e.code == code.value
    ensures e.message == message && e.date == date
  {
    JSBridgeError(Name, code.GetOr(CodeNotSupport), message, date)
  }

  /** The three codes are pairwise distinct. */
  lemma CodesDistinct()
    ensures CodeNotSupport != CodeCmdErr
    ensures CodeNotSupport != CodeParseResErr
    ensures CodeCmdErr != CodeParseResErr
  {
  }

  /**
   * Anything a call can throw: a bridge error, a TypeError raised by the
   * JavaScript engine, or whatever the native host throws (described by
   * whether it is an Error and by its constructor's name).
   */
  datatype Thrown =
    | BridgeFailure(err: JSBridgeError)
    | TypeError
    | HostFault(isError: bool, constructorName: string, id: nat)

  /** lodash `isError`. */
  predicate IsError(t: Thrown) {
    match t
    case BridgeFailure(_) => true
    case TypeError => true
    case HostFault(e, _, _) => e
  }

  /** `t.constructor.name`. */
  function ConstructorName(t: Thrown): string {
    match t
    case BridgeFailure(_) => Name
    case TypeError => "TypeError"
    case HostFault(_, n, _) => n
  }

  /** `isJSBridgeError(t)`: an Error whose constructor is named JSBridgeError. */
  predicate IsJSBridgeError(t: Thrown) {
    IsError(t) && ConstructorName(t) == Name
  }

  /** The discriminator accepts every bridge error and rejects engine TypeErrors. */
  lemma DiscriminatorSeparates(t: Thrown)
    ensures t.BridgeFailure? ==> IsJSBridgeError(t)
    ensures t.TypeError? ==> !IsJSBridgeError(t)
    ensures t.HostFault? ==> (IsJSBridgeError(t) <==> t.isError && t.constructorName == Name)
  {
  }

  /** A thrown bridge error carrying `code`. */
  predicate FailsWith(t: Thrown, code: string) {
    t.BridgeFailure? && t.err.code == code
  }
}
