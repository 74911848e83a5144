/**
 * The native-bridge client: preflight guards, native-context resolution,
 * per-platform dispatch (one synchronous `event` call on Android, a one-shot
 * global callback plus `postMessage` on iOS) and validation of the reply.
 *
 * Promises are modelled by `Outcome`: a call settles at once (Resolved or
 * Rejected) or stays Pending on the name of the global callback that the
 * native side must invoke later; that later invocation is the separate step
 * `Client.Deliver`.
 */
module JsBridgeClient {
  import opened Wrappers
  import opened JsValue
  import opened MobileDetect
  import opened BridgeError

  /**
   * The host's `JSON` object, left uninterpreted: `parse` answers None where
   * `JSON.parse` throws, and `stringify` is `JSON.stringify`.
   */
  datatype JsonHost = JsonHost(parse: string -> Option<Value>, stringify: Value -> string)

  /** A global (window) property: an ordinary value, or a callback the bridge registered for one command. */
  datatype Slot = Plain(v: Value) | Callback(command: Value)

  /** The JavaScript value held by a slot; a registered callback is a function. */
  function SlotValue(s: Slot): Value {
    match s
    case Plain(v) => v
    case Callback(_) => Fn
  }

  /** `window[name]`. */
  function WindowProp(window: map<string, Slot>, name: string): Value {
    if name in window then SlotValue(window[name]) else Undefined
  }

  /** What a call into the native context did: it returned a value or threw. */
  datatype NativeReply = Returned(v: Value) | Threw(e: Thrown)

  /** A call the client made into the native context, with the JSON text it passed. */
  datatype NativeCall = AndroidEvent(payload: string) | IosPostMessage(payload: string)

  /** The state of the promise a call returned. */
  datatype Outcome = Resolved(value: Value) | Rejected(reason: Thrown) | Pending(callbackName: string)

  /** A response transform: what the promise it returns settles to. */
  type Transform = Value -> Outcome

  /** The default `onFulfilled4Resp`: `response => Promise.resolve(response)`. */
  const IdentityTransform: Transform := (response: Value) => Resolved(response)

  /**
   * `JSBridgeClient.onFulfilled4Resp`, the property of the class itself that
   * the static response parser looks up. The class declares only an instance
   * field of that name, so the class property is never set.
   */
  const ClassOnFulfilled4Resp: Option<Transform> := None

  const DefaultRunInNative := "Y"
  const DefaultNativeContextName := "NativeContextName"

  // ---------------------------------------------------------------------
  // Preflight guards
  // ---------------------------------------------------------------------

  /** A bridge error with `code` and `message`, raised at time `now`. */
  function Fail(code: string, message: Message, now: nat): (t: Thrown)
    ensures FailsWith(t, code) && IsJSBridgeError(t)
  {
    BridgeFailure(NewJSBridgeError(Some(code), message, now))
  }

  /** `doRunNativeConfigAndRuntimeENVCheck`: native mode not switched off, and a phone. */
  function EnvCheck(runInNative: Value, detector: Detector, now: nat): (r: Result<(), Thrown>)
    ensures r.Ok? <==> runInNative != Str("N") && (detector.IsIos() || detector.IsAndroid())
    ensures r.Err? ==> FailsWith(r.error, CodeNotSupport)
  {
    if runInNative == Str("N") then Err(Fail(CodeNotSupport, NotNativeMode, now))
    else if !detector.IsMobilePhone() then Err(Fail(CodeNotSupport, UnsupportedClient, now))
    else Ok(())
  }

  /** `doCxtCheck`: a native context object was resolved at construction. */
  function CxtCheck(context: Option<Value>, contextName: string, now: nat): (r: Result<(), Thrown>)
    ensures r.Ok? <==> context.Some? && (context.value.Obj? || context.value.Arr? || context.value.Fn?)
    ensures r.Err? ==> FailsWith(r.error, CodeNotSupport)
  {
    if context.None? || !IsObject(context.value) then Err(Fail(CodeNotSupport, ContextNotInjected(contextName), now))
    else Ok(())
  }

  /** A command that passes `checkCMD`: an object whose `event` and `action` are neither null nor undefined. */
  predicate WellFormedCommand(command: Value) {
    command.Obj?
    && "event" in command.props && !IsNil(command.props["event"])
    && "action" in command.props && !IsNil(command.props["action"])
  }

  /**
   * `checkCMD(command)`. Destructuring with the default `{}` turns
   * `undefined` into an empty command, but destructuring `null` is a
   * TypeError. `event` is checked before `action`; a missing `params` is
   * only logged.
   */
  function CheckCmd(command: Value, now: nat): (r: Result<(), Thrown>)
    ensures r.Ok? <==> WellFormedCommand(command)
    ensures command.Null? ==> r == Err(TypeError)
    ensures !command.Null? && r.Err? ==> FailsWith(r.error, CodeCmdErr)
    ensures !command.Null? && IsNil(Prop(command, "event")) ==> r == Err(Fail(CodeCmdErr, EventMissing, now))
    ensures !command.Null? && !IsNil(Prop(command, "event")) && IsNil(Prop(command, "action")) ==>
              r == Err(Fail(CodeCmdErr, ActionMissing, now))
  {
    if command.Null? then Err(TypeError)
    else if IsNil(Prop(command, "event")) then Err(Fail(CodeCmdErr, EventMissing, now))
    else if IsNil(Prop(command, "action")) then Err(Fail(CodeCmdErr, ActionMissing, now))
    else Ok(())
  }

  /** The three guards of `bridge`, in their order; the first failure wins. */
  function Preflight(runInNative: Value, detector: Detector, context: Option<Value>, contextName: string,
                     command: Value, now: nat): (r: Result<(), Thrown>)
    ensures r.Ok? <==> EnvCheck(runInNative, detector, now).Ok? && CxtCheck(context, contextName, now).Ok?
                       && WellFormedCommand(command)
    ensures r.Ok? ==> detector.IsMobilePhone()
  {
    var env := EnvCheck(runInNative, detector, now);
    if env.Err? then env
    else
      var cxt := CxtCheck(context, contextName, now);
      if cxt.Err? then cxt
      else CheckCmd(command, now)
  }

  /** With native mode switched off every call is refused with NOT_SUPPORT, whatever the command. */
  lemma NotNativeModeRefusesAll(detector: Detector, context: Option<Value>, contextName: string,
                                command: Value, now: nat)
    ensures var r := Preflight(Str("N"), detector, context, contextName, command, now);
            r.Err? && FailsWith(r.error, CodeNotSupport) && r.error.err.message == NotNativeMode
  {
  }

  /** Off a phone every call is refused with NOT_SUPPORT, whatever the command. */
  lemma NonPhoneRefusesAll(runInNative: Value, detector: Detector, context: Option<Value>, contextName: string,
                           command: Value, now: nat)
    requires !detector.IsMobilePhone()
    ensures var r := Preflight(runInNative, detector, context, contextName, command, now);
            r.Err? && FailsWith(r.error, CodeNotSupport)
  {
  }

  /** The environment is checked before the context, and the context before the command. */
  lemma PreflightOrder(runInNative: Value, detector: Detector, context: Option<Value>, contextName: string,
                       command: Value, now: nat)
    ensures EnvCheck(runInNative, detector, now).Err? ==>
              Preflight(runInNative, detector, context, contextName, command, now) == EnvCheck(runInNative, detector, now)
    ensures EnvCheck(runInNative, detector, now).Ok? && CxtCheck(context, contextName, now).Err? ==>
              Preflight(runInNative, detector, context, contextName, command, now) == CxtCheck(context, contextName, now)
    ensures EnvCheck(runInNative, detector, now).Ok? && CxtCheck(context, contextName, now).Ok? ==>
              Preflight(runInNative, detector, context, contextName, command, now) == CheckCmd(command, now)
  {
  }

  /**
   * A command whose `event` is missing, `null` or `undefined` is reported
   * for its `event`, whatever its `action` holds.
   */
  lemma EventCheckedFirst(props: map<string, Value>, now: nat)
    requires "event" !in props || IsNil(props["event"])
    ensures CheckCmd(Obj(props), now) == Err(Fail(CodeCmdErr, EventMissing, now))
  {
  }

  /** `params` plays no part in validation: dropping it changes nothing. */
  lemma ParamsAreOptional(props: map<string, Value>, now: nat)
    ensures CheckCmd(Obj(props - {"params"}), now) == CheckCmd(Obj(props), now)
  {
    var dropped := props - {"params"};
    assert Prop(Obj(dropped), "event") == Prop(Obj(props), "event");
    assert Prop(Obj(dropped), "action") == Prop(Obj(props), "action");
  }

  /** A primitive command has no `event`, so it is a CMD_ERR; only `null` is a TypeError. */
  lemma PrimitiveCommandIsCmdErr(command: Value, now: nat)
    requires command.Undefined? || command.Bool? || command.Num? || command.Str? || command.Arr? || command.Fn?
    ensures CheckCmd(command, now) == Err(Fail(CodeCmdErr, EventMissing, now))
  {
  }

  // ---------------------------------------------------------------------
  // Native context resolution
  // ---------------------------------------------------------------------

  /**
   * `window.webkit?.messageHandlers[name] ?? null`: a nullish `webkit`
   * short-circuits to null; indexing a nullish `messageHandlers` is a TypeError.
   */
  function IosMessageHandler(webkit: Value, name: string): (r: Result<Value, Thrown>)
    ensures IsNil(webkit) ==> r == Ok(Null)
    ensures r.Err? ==> r.error == TypeError
    ensures !IsNil(webkit) ==> (r.Err? <==> IsNil(Prop(webkit, "messageHandlers")))
    ensures r.Ok? && !IsNil(webkit) && !IsNil(Prop(Prop(webkit, "messageHandlers"), name)) ==>
              r.value == Prop(Prop(webkit, "messageHandlers"), name)
    ensures r.Ok? && IsNil(Prop(Prop(webkit, "messageHandlers"), name)) ==> r.value == Null
  {
    if IsNil(webkit) then Ok(Null)
    else
      var handlers := Prop(webkit, "messageHandlers");
      if IsNil(handlers) then Err(TypeError)
      else
        var h := Prop(handlers, name);
        Ok(if IsNil(h) then Null else h)
  }

  /** `parseNativeContext(name)`: the platform's native context object, or a thrown error. */
  function ParseNativeContext(name: string, detector: Detector, window: map<string, Slot>, now: nat)
    : (r: Result<Value, Thrown>)
    ensures r.Ok? ==> IsObject(r.value)
    ensures r.Err? ==> FailsWith(r.error, CodeNotSupport) || r.error == TypeError
    ensures !detector.IsMobilePhone() ==> r == Err(Fail(CodeNotSupport, ContextNotConfigured(name), now))
    ensures detector.IsAndroid() ==>
              r == if IsObject(WindowProp(window, name)) then Ok(WindowProp(window, name))
                   else Err(Fail(CodeNotSupport, ContextNotConfigured(name), now))
    ensures detector.IsIos() && "webkit" !in window ==> r == Err(Fail(CodeNotSupport, IosHandlersMissing, now))
    ensures detector.IsIos() && r.Ok? ==>
              "webkit" in window && r.value == Prop(Prop(SlotValue(window["webkit"]), "messageHandlers"), name)
    ensures detector.IsIos() && "webkit" in window ==>
              var w := SlotValue(window["webkit"]);
              var handlers := Prop(w, "messageHandlers");
              && (r.Ok? <==> !IsNil(w) && !IsNil(handlers) && IsObject(Prop(handlers, name)))
              && (r == Err(TypeError) <==> !IsNil(w) && IsNil(handlers))
              && (r.Err? && r != Err(TypeError) ==> r == Err(Fail(CodeNotSupport, ContextNotConfigured(name), now)))
  {
    var ctx: Result<Value, Thrown> :=
      if detector.IsIos() then
        if "webkit" !in window then Err(Fail(CodeNotSupport, IosHandlersMissing, now))
        else IosMessageHandler(SlotValue(window["webkit"]), name)
      else Ok(Null);
    if ctx.Err? then ctx
    else
      var found := if detector.IsAndroid() then WindowProp(window, name) else ctx.value;
      if !IsObject(found) then Err(Fail(CodeNotSupport, ContextNotConfigured(name), now))
      else Ok(found)
  }

  /**
   * The context the constructor stores: the environment check runs first
   * and any failure, of it or of the resolution, is swallowed and leaves the
   * context unset.
   */
  function ConstructedContext(runInNative: Value, detector: Detector, name: string, window: map<string, Slot>,
                              now: nat): (c: Option<Value>)
    ensures c.Some? ==> IsObject(c.value)
    ensures runInNative == Str("N") || !detector.IsMobilePhone() ==> c == None
    ensures EnvCheck(runInNative, detector, now).Ok? ==> c == ParseNativeContext(name, detector, window, now).ToOption()
  {
    if EnvCheck(runInNative, detector, now).Err? then None
    else ParseNativeContext(name, detector, window, now).ToOption()
  }

  /** A client whose context resolution failed refuses every later call with NOT_SUPPORT. */
  lemma FailedResolutionRefusesAll(runInNative: Value, detector: Detector, name: string, window: map<string, Slot>,
                                   built: nat, command: Value, now: nat)
    requires ConstructedContext(runInNative, detector, name, window, built) == None
    ensures var r := Preflight(runInNative, detector, None, name, command, now);
            r.Err? && FailsWith(r.error, CodeNotSupport)
  {
  }

  /** A client whose context was resolved passes the context check. */
  lemma ResolvedContextPasses(runInNative: Value, detector: Detector, name: string, window: map<string, Slot>,
                              built: nat, now: nat)
    requires ConstructedContext(runInNative, detector, name, window, built).Some?
    ensures CxtCheck(ConstructedContext(runInNative, detector, name, window, built), name, now).Ok?
    ensures EnvCheck(runInNative, detector, now).Ok?
  {
  }

  // ---------------------------------------------------------------------
  // Callback names
  // ---------------------------------------------------------------------

  const UpperLetters := "ABCDEFGHIJKLMNOPQRSTUVWXYZ"
  const LowerLetters := "abcdefghijklmnopqrstuvwxyz"
  const Digits := "0123456789"
  /** The 62 characters a callback token is drawn from. */
  const Alphabet := UpperLetters + LowerLetters + Digits

  const CallbackPrefix := "__callback__"
  const CallbackTokenLength := 5

  predicate IsAlphanumeric(c: char) {
    'A' <= c <= 'Z' || 'a' <= c <= 'z' || '0' <= c <= '9'
  }

  /** Where an alphanumeric character sits in `Alphabet`. */
  function AlphabetIndex(c: char): int {
    if 'A' <= c <= 'Z' then c as int - 'A' as int
    else if 'a' <= c <= 'z' then c as int - 'a' as int + 26
    else c as int - '0' as int + 52
  }

  /** Every character of the alphabet is alphanumeric and sits at its own index: no character repeats. */
  lemma AlphabetLayout(i: nat)
    requires i < |Alphabet|
    ensures |Alphabet| == 62
    ensures IsAlphanumeric(Alphabet[i]) && AlphabetIndex(Alphabet[i]) == i
  {
    assert |UpperLetters| == 26 && |LowerLetters| == 26 && |Digits| == 10;
    if i < 26 {
      assert Alphabet[i] == UpperLetters[i];
      UpperRun(i);
    } else if i < 52 {
      assert Alphabet[i] == LowerLetters[i - 26];
      LowerRun(i - 26);
    } else {
      assert Alphabet[i] == Digits[i - 52];
      DigitRun(i - 52);
    }
  }

  /** The upper-case letters are consecutive characters from `A`. */
  lemma UpperRun(j: nat)
    requires j < |UpperLetters|
    ensures UpperLetters[j] as int == 'A' as int + j
  {
    assert UpperLetters == seq(26, k requires 0 <= k < 26 => ('A' as int + k) as char);
  }

  /** The lower-case letters are consecutive characters from `a`. */
  lemma LowerRun(j: nat)
    requires j < |LowerLetters|
    ensures LowerLetters[j] as int == 'a' as int + j
  {
    assert LowerLetters == seq(26, k requires 0 <= k < 26 => ('a' as int + k) as char);
  }

  /** The digits are consecutive characters from `0`. */
  lemma DigitRun(j: nat)
    requires j < |Digits|
    ensures Digits[j] as int == '0' as int + j
  {
    assert Digits == seq(10, k requires 0 <= k < 10 => ('0' as int + k) as char);
  }

  /** Draws of `Math.floor(Math.random() * 62)`: indices into the alphabet. */
  predicate ValidPicks(picks: seq<nat>) {
    forall i :: 0 <= i < |picks| ==> picks[i] < |Alphabet|
  }

  /** The token spelled by a sequence of draws. */
  function Token(picks: seq<nat>): (t: string)
    requires ValidPicks(picks)
    ensures |t| == |picks|
  {
    seq(|picks|, i requires 0 <= i < |picks| => Alphabet[picks[i]])
  }

  /** The global name an iOS call registers: the prefix and five alphanumeric characters. */
  predicate IsCallbackName(name: string) {
    |name| == |CallbackPrefix| + CallbackTokenLength
    && name[..|CallbackPrefix|] == CallbackPrefix
    && forall i :: |CallbackPrefix| <= i < |name| ==> IsAlphanumeric(name[i])
  }

  /**
   * `makeCallBackRandomStr(length)`: one alphabet character per draw,
   * appended in order.
   */
  method MakeCallBackRandomStr(length: nat, picks: seq<nat>) returns (result: string)
    requires |picks| == length && ValidPicks(picks)
    ensures |result| == length
    ensures forall i :: 0 <= i < length ==> result[i] == Alphabet[picks[i]] && IsAlphanumeric(result[i])
    ensures result == Token(picks)
  {
    result := "";
    for i := 0 to length
      invariant |result| == i
      invariant forall j :: 0 <= j < i ==> result[j] == Alphabet[picks[j]] && IsAlphanumeric(result[j])
    {
      AlphabetLayout(picks[i]);
      result := result + [Alphabet[picks[i]]];
    }
  }

  /** Distinct draws give distinct tokens: the token determines the draws. */
  lemma {:induction false} TokenDeterminesPicks(p: seq<nat>, q: seq<nat>)
    requires ValidPicks(p) && ValidPicks(q) && |p| == |q|
    requires Token(p) == Token(q)
    ensures p == q
  {
    forall i | 0 <= i < |p| ensures p[i] == q[i] {
      AlphabetLayout(p[i]);
      AlphabetLayout(q[i]);
      assert Token(p)[i] == Token(q)[i];
    }
  }

  /** Every name an iOS call registers has the callback shape. */
  lemma CallbackNameShape(picks: seq<nat>)
    requires |picks| == CallbackTokenLength && ValidPicks(picks)
    ensures IsCallbackName(CallbackPrefix + Token(picks))
  {
    var token := Token(picks);
    var name := CallbackPrefix + token;
    assert |CallbackPrefix| == 12 && |token| == CallbackTokenLength;
    assert name[..|CallbackPrefix|] == CallbackPrefix;
    forall i | |CallbackPrefix| <= i < |name| ensures IsAlphanumeric(name[i]) {
      assert name[i] == token[i - |CallbackPrefix|] == Alphabet[picks[i - |CallbackPrefix|]];
      AlphabetLayout(picks[i - |CallbackPrefix|]);
    }
  }

  /** `{ callback: name, ...command }`: the command's own properties win, `callback` included. */
  function IosPayload(name: string, command: Value): (p: Value)
    ensures p.Obj? && p.props.Keys == Spread(command).Keys + {"callback"}
    ensures forall k :: k in Spread(command) ==> p.props[k] == Spread(command)[k]
    ensures "callback" !in Spread(command) ==> p.props["callback"] == Str(name)
  {
    Obj(map["callback" := Str(name)] + Spread(command))
  }

  // ---------------------------------------------------------------------
  // Response validation
  // ---------------------------------------------------------------------

  /**
   * `#checkIsJSON(response, command)`: the response must be a string that
   * parses to an object or array (lodash `isObject`); a parse failure and a
   * non-object result are two distinct PARSE_RES_ERR sites.
   */
  function CheckIsJson(response: Value, command: Value, parse: string -> Option<Value>, now: nat)
    : (r: Result<Value, Thrown>)
    ensures !response.Str? ==> r.Err? && FailsWith(r.error, CodeParseResErr)
    ensures response.Str? && parse(response.s).None? ==> r.Err? && FailsWith(r.error, CodeParseResErr)
    ensures response.Str? && parse(response.s).Some? && !IsObject(parse(response.s).value) ==>
              r.Err? && FailsWith(r.error, CodeParseResErr)
    ensures response.Str? && parse(response.s).Some? && IsObject(parse(response.s).value) ==>
              r == Ok(parse(response.s).value)
    ensures response.Str? && parse(response.s).None? ==>
              r == Err(Fail(CodeParseResErr, ResponseUnparsable(Prop(command, "event"), Prop(command, "action")), now))
    ensures r.Err? && !(response.Str? && parse(response.s).None?) ==>
              r == Err(Fail(CodeParseResErr, ResponseNotJson(Prop(command, "event"), Prop(command, "action")), now))
  {
    var event := Prop(command, "event");
    var action := Prop(command, "action");
    if response.Str? then
      match parse(response.s)
      case None => Err(Fail(CodeParseResErr, ResponseUnparsable(event, action), now))
      case Some(tmp) =>
        if IsObject(tmp) then Ok(tmp)
        else Err(Fail(CodeParseResErr, ResponseNotJson(event, action), now))
    else Err(Fail(CodeParseResErr, ResponseNotJson(event, action), now))
  }

  /**
   * `#parseRespData(response, command)`: the checked response, handed to the
   * class-level transform when there is one, resolved as is otherwise.
   */
  function ParseRespData(response: Value, command: Value, parse: string -> Option<Value>,
                         classTransform: Option<Transform>, now: nat): (o: Outcome)
    ensures CheckIsJson(response, command, parse, now).Err? ==> o == Rejected(CheckIsJson(response, command, parse, now).error)
    ensures classTransform.None? ==> !o.Pending?
    ensures classTransform.None? && o.Resolved? ==> IsObject(o.value)
    ensures var checked := CheckIsJson(response, command, parse, now);
            checked.Ok? && classTransform.Some? ==> o == classTransform.value(checked.value)
  {
    match CheckIsJson(response, command, parse, now)
    case Err(e) => Rejected(e)
    case Ok(data) =>
      if classTransform.Some? then classTransform.value(data) else Resolved(data)
  }

  /**
   * As the client calls it, the response parser never consults any
   * transform: a string that parses to an object or array resolves to
   * exactly that value, and every rejection is a PARSE_RES_ERR bridge error.
   */
  lemma ParsedResponseUnchanged(response: Value, command: Value, parse: string -> Option<Value>, now: nat)
    ensures var o := ParseRespData(response, command, parse, ClassOnFulfilled4Resp, now);
            && (o.Resolved? <==> response.Str? && parse(response.s).Some? && IsObject(parse(response.s).value))
            && (o.Resolved? ==> o.value == parse(response.s).value)
            && (o.Rejected? ==> IsJSBridgeError(o.reason) && FailsWith(o.reason, CodeParseResErr))
            && !o.Pending?
  {
    var c := CheckIsJson(response, command, parse, now);
    if c.Err? { assert IsJSBridgeError(c.error); }
  }

  /**
   * Round trip: a reply that is `JSON.stringify(x)` for an object `x`, with a
   * host whose `JSON.parse` inverts `JSON.stringify` on `x`, resolves to `x`.
   */
  lemma ResponseRoundTrip(x: Value, command: Value, json: JsonHost, now: nat)
    requires x.Obj? && json.parse(json.stringify(x)) == Some(x)
    ensures ParseRespData(Str(json.stringify(x)), command, json.parse, ClassOnFulfilled4Resp, now) == Resolved(x)
  {
  }

  // ---------------------------------------------------------------------
  // The client
  // ---------------------------------------------------------------------

  /**
   * A native call carries `command`: on Android its stringified form, on iOS
   * the stringified payload under some callback name.
   */
  ghost predicate Carries(call: NativeCall, command: Value, json: JsonHost) {
    match call
    case AndroidEvent(payload) => payload == json.stringify(command)
    case IosPostMessage(payload) =>
      exists name :: IsCallbackName(name) && payload == json.stringify(IosPayload(name, command))
  }

  /** The global object as the page starts: only ordinary values. */
  function InitialWindow(globals: map<string, Value>): (w: map<string, Slot>)
    ensures w.Keys == globals.Keys
    ensures forall k :: k in w ==> w[k] == Plain(globals[k])
  {
    map k | k in globals :: Plain(globals[k])
  }

  /**
   * A `JSBridgeClient` together with the global `window` it registers its
   * callbacks on and a log of the calls it made into the native context.
   */
  class Client {
    const runInNative: Value
    const nativeContextName: string
    /** Stored by the constructor; the response parser never reads it. */
    const onFulfilled4Resp: Transform
    const detector: Detector
    const json: JsonHost
    /** `#nativeContext`: None while it is `undefined`. */
    const nativeContext: Option<Value>

    var window: map<string, Slot>
    var sent: seq<NativeCall>
    /** The commands behind the calls in `sent`, one each. */
    ghost var transmitted: seq<Value>

    /**
     * Every call in `sent` carries a well-formed command (so only well-formed
     * commands reach the native side), and every callback on the window is a
     * well-formed command registered under a callback name.
     */
    ghost predicate Valid()
      reads this
    {
      && (nativeContext.Some? ==> IsObject(nativeContext.value))
      && |sent| == |transmitted|
      && (forall i :: 0 <= i < |transmitted| ==>
            WellFormedCommand(transmitted[i]) && Carries(sent[i], transmitted[i], json))
      && (forall name :: name in window && window[name].Callback? ==>
            IsCallbackName(name) && WellFormedCommand(window[name].command))
    }

    /**
     * `new JSBridgeClient({ runInNative, nativeContextName, onFulfilled4Resp })`
     * on a page whose globals are `globals`. Resolution failures are
     * swallowed.
     */
    constructor (runInNative: Value, nativeContextName: Option<string>, onFulfilled4Resp: Option<Transform>,
                 detector: Detector, json: JsonHost, globals: map<string, Value>, now: nat)
      ensures this.runInNative == DefaultTo(runInNative, Str(DefaultRunInNative))
      ensures this.nativeContextName == nativeContextName.GetOr(DefaultNativeContextName)
      ensures this.onFulfilled4Resp == onFulfilled4Resp.GetOr(IdentityTransform)
      ensures this.detector == detector && this.json == json
      ensures window == InitialWindow(globals) && sent == []
      ensures nativeContext == ConstructedContext(this.runInNative, detector, this.nativeContextName, window, now)
      ensures Valid()
    {
      var run := DefaultTo(runInNative, Str(DefaultRunInNative));
      var name := nativeContextName.GetOr(DefaultNativeContextName);
      var w := InitialWindow(globals);
      this.runInNative := run;
      this.nativeContextName := name;
      this.onFulfilled4Resp := onFulfilled4Resp.GetOr(IdentityTransform);
      this.detector := detector;
      this.json := json;
      this.nativeContext := ConstructedContext(run, detector, name, w, now);
      window := w;
      sent := [];
      transmitted := [];
    }

    /** The preflight of `bridge(command)` on this client. */
    function PreflightOf(command: Value, now: nat): Result<(), Thrown> {
      Preflight(runInNative, detector, nativeContext, nativeContextName, DefaultTo(command, Null), now)
    }

    /**
     * `bridge(command)`. `reply` is what the native call does (the value
     * `event` returns, or what `postMessage` throws); `picks` are the five
     * random draws of the callback token.
     */
    method Bridge(command: Value, reply: NativeReply, picks: seq<nat>, now: nat) returns (o: Outcome)
      requires Valid()
      requires |picks| == CallbackTokenLength && ValidPicks(picks)
      modifies this
      ensures Valid()
      ensures PreflightOf(command, now).Err? ==>
                o == Rejected(PreflightOf(command, now).error) && window == old(window) && sent == old(sent)
      ensures var cmd := DefaultTo(command, Null);
              PreflightOf(command, now).Ok? && detector.IsAndroid() ==>
                && window == old(window)
                && sent == old(sent) + [AndroidEvent(json.stringify(cmd))]
                && o == match reply
                        case Threw(e) => Rejected(e)
                        case Returned(response) => ParseRespData(response, cmd, json.parse, ClassOnFulfilled4Resp, now)
      ensures var cmd := DefaultTo(command, Null);
              var name := CallbackPrefix + Token(picks);
              PreflightOf(command, now).Ok? && detector.IsIos() ==>
                && window == old(window)[name := Callback(cmd)]
                && sent == old(sent) + [IosPostMessage(json.stringify(IosPayload(name, cmd)))]
                && o == match reply
                        case Threw(e) => Rejected(e)
                        case Returned(_) => Pending(name)
    {
      var cmd := DefaultTo(command, Null);
      var pre := Preflight(runInNative, detector, nativeContext, nativeContextName, cmd, now);
      if pre.Err? {
        return Rejected(pre.error);
      }
      if detector.Classify() == Android {
        sent := sent + [AndroidEvent(json.stringify(cmd))];
        transmitted := transmitted + [cmd];
        match reply
        case Threw(e) =>
          o := Rejected(e);
        case Returned(response) =>
          o := ParseRespData(response, cmd, json.parse, ClassOnFulfilled4Resp, now);
      } else {
        // the environment check admitted a phone that is not Android
        assert detector.IsIos();
        var token := MakeCallBackRandomStr(CallbackTokenLength, picks);
        var name := CallbackPrefix + token;
        CallbackNameShape(picks);
        assert Carries(IosPostMessage(json.stringify(IosPayload(name, cmd))), cmd, json);
        window := window[name := Callback(cmd)];
        sent := sent + [IosPostMessage(json.stringify(IosPayload(name, cmd)))];
        transmitted := transmitted + [cmd];
        match reply
        case Threw(e) =>
          o := Rejected(e);
        case Returned(_) =>
          o := Pending(name);
      }
    }

    /**
     * The native side invokes the global function `name` with `raw`. A
     * callback registered by `Bridge` first clears its own slot, then parses
     * the response of the command it was registered for. Any other name is
     * not a function the bridge owns, and nothing changes.
     */
    method Deliver(name: string, raw: Value, now: nat) returns (o: Option<Outcome>)
      requires Valid()
      modifies this`window
      ensures Valid()
      ensures old(name in window && window[name].Callback?) ==>
                && window == old(window)[name := Plain(Undefined)]
                && o == Some(ParseRespData(raw, old(window[name]).command, json.parse, ClassOnFulfilled4Resp, now))
      ensures !old(name in window && window[name].Callback?) ==> window == old(window) && o == None
      ensures o.Some? ==> !o.value.Pending? && !window[name].Callback?
    {
      if name in window && window[name].Callback? {
        var command := window[name].command;
        window := window[name := Plain(Undefined)];
        o := Some(ParseRespData(raw, command, json.parse, ClassOnFulfilled4Resp, now));
      } else {
        o := None;
      }
    }
  }

  /** With both guards passed, a `null` command (and so a call with no command at all) is a TypeError, not CMD_ERR. */
  lemma MissingCommandIsTypeError(runInNative: Value, detector: Detector, context: Option<Value>, contextName: string,
                                  now: nat)
    requires EnvCheck(runInNative, detector, now).Ok? && CxtCheck(context, contextName, now).Ok?
    ensures Preflight(runInNative, detector, context, contextName, DefaultTo(Undefined, Null), now) == Err(TypeError)
    ensures !IsJSBridgeError(TypeError)
  {
  }

  // ---------------------------------------------------------------------
  // Scenarios
  // ---------------------------------------------------------------------

  /** The reply text the scenarios use, and the object it denotes. */
  const StatusOkText := "{\"status\":\"ok\"}"
  const StatusOk := Obj(map["status" := Str("ok")])

  /** A host whose `JSON.parse` knows only the scenario reply. */
  function ScenarioJson(): JsonHost {
    JsonHost((s: string) => if s == StatusOkText then Some(StatusOk) else None, (v: Value) => "")
  }

  /** The scenario command `{event: "pay", action: "start", params: {amount: 10}}`. */
  function PayCommand(): (c: Value)
    ensures WellFormedCommand(c)
  {
    Obj(map["event" := Str("pay"), "action" := Str("start"), "params" := Obj(map["amount" := Num(10)])])
  }

  /** Android: the context's `event` returns the reply text and the call resolves with the parsed object. */
  method AndroidHappyPath() returns (o: Outcome)
    ensures o == Resolved(StatusOk)
  {
    var context := Obj(map["event" := Fn]);
    var client := new Client(Str("Y"), None, None, Detector(Some(AndroidAlias)), ScenarioJson(),
                             map[DefaultNativeContextName := context], 0);
    o := client.Bridge(PayCommand(), Returned(Str(StatusOkText)), [0, 0, 0, 0, 0], 1);
  }

  /** The scenario's draws spell the token ABCDE. */
  lemma ScenarioCallbackName()
    ensures ValidPicks([0, 1, 2, 3, 4])
    ensures CallbackPrefix + Token([0, 1, 2, 3, 4]) == "__callback__ABCDE"
  {
    assert Token([0, 1, 2, 3, 4]) == "ABCDE";
  }

  /** On iOS the context is the named message handler under `webkit.messageHandlers`. */
  lemma IosContextResolves(handler: Value, webkit: Value)
    requires handler.Obj? && webkit == Obj(map["messageHandlers" := Obj(map[DefaultNativeContextName := handler])])
    ensures ConstructedContext(Str("Y"), Detector(Some(IosAlias)), DefaultNativeContextName,
                               InitialWindow(map["webkit" := webkit]), 0) == Some(handler)
  {
    assert IosMessageHandler(webkit, DefaultNativeContextName) == Ok(handler);
  }

  /** iOS: the call registers its callback, posts the command and stays pending. */
  method IosDispatch() returns (client: Client, first: Outcome)
    ensures fresh(client) && client.Valid() && client.json == ScenarioJson()
    ensures first == Pending("__callback__ABCDE")
    ensures "__callback__ABCDE" in client.window && client.window["__callback__ABCDE"] == Callback(PayCommand())
  {
    var handler := Obj(map["postMessage" := Fn]);
    var webkit := Obj(map["messageHandlers" := Obj(map[DefaultNativeContextName := handler])]);
    client := new Client(Str("Y"), None, None, Detector(Some(IosAlias)), ScenarioJson(),
                         map["webkit" := webkit], 0);
    IosContextResolves(handler, webkit);
    ScenarioCallbackName();
    assert client.PreflightOf(PayCommand(), 1).Ok?;
    first := client.Bridge(PayCommand(), Returned(Undefined), [0, 1, 2, 3, 4], 1);
  }

  /**
   * iOS: the first delivery to the pending call's callback resolves it with
   * the parsed object; the second finds the slot cleared.
   */
  method IosHappyPath() returns (first: Outcome, second: Option<Outcome>, third: Option<Outcome>)
    ensures first == Pending("__callback__ABCDE")
    ensures second == Some(Resolved(StatusOk))
    ensures third == None
  {
    var client;
    client, first := IosDispatch();
    second := client.Deliver("__callback__ABCDE", Str(StatusOkText), 2);
    third := client.Deliver("__callback__ABCDE", Str(StatusOkText), 3);
  }

  /**
   * A client configured with a transform that rejects every response still
   * resolves: the parser looks the transform up on the class, not on the
   * instance that holds it.
   */
  method InstanceTransformIgnored() returns (o: Outcome)
    ensures o == Resolved(StatusOk)
  {
    var veto: Transform := (response: Value) => Rejected(HostFault(true, "Error", 0));
    var context := Obj(map["event" := Fn]);
    var client := new Client(Str("Y"), None, Some(veto), Detector(Some(AndroidAlias)), ScenarioJson(),
                             map[DefaultNativeContextName := context], 0);
    o := client.Bridge(PayCommand(), Returned(Str(StatusOkText)), [0, 0, 0, 0, 0], 1);
  }

  /** With native mode switched off the call is refused and nothing reaches the native side. */
  method NotNativeModeScenario() returns (o: Outcome, calls: seq<NativeCall>)
    ensures o.Rejected? && FailsWith(o.reason, CodeNotSupport)
    ensures calls == []
  {
    var context := Obj(map["event" := Fn]);
    var client := new Client(Str("N"), None, None, Detector(Some(AndroidAlias)), ScenarioJson(),
                             map[DefaultNativeContextName := context], 0);
    o := client.Bridge(PayCommand(), Returned(Str(StatusOkText)), [0, 0, 0, 0, 0], 1);
    calls := client.sent;
  }
}
