# xb-request: native bridge and HTTP config merging, modelled in Dafny

This project models two pieces of the `xb-request` library.

**The native-bridge client** (`JSBridgeClient`). Code in a mobile web view
uses it to call the host app. The model covers:

- the three preflight guards, in their order:
  - native mode is not switched off (`runInNative === 'N'`) and the platform is a phone;
  - a native context was resolved at construction;
  - the command has `event` and `action`.
- native-context resolution at construction. Every failure there is swallowed.
- dispatch on Android: one synchronous `event(JSON.stringify(command))` call.
- dispatch on iOS: a one-shot global `__callback__XXXXX` is registered, then
  `postMessage(JSON.stringify({ callback: name, ...command }))` is called.
- validation of the reply.

It also models the two leaf types the client uses: the typed `JSBridgeError`
with its discriminator, and the platform detector.

**HTTP header and config merging**:

- `resolveHeaders` checks the method (get or post, any case). It then merges
  with the precedence defaults < common block < requested method's block < extras.
- `_clearUpHeaders` deletes the reserved block keys in place.
- `resolveConfig` has an empty short-circuit, then merges the top level and
  replaces `headers`.

Layout, one module per source file, plus two shared modules:

- `wrappers.dfy`: `Option` and `Result`.
- `js_value.dfy`: the JavaScript values these files handle. It defines
  truthiness, lodash `isObject` and `isEmpty`, object spread, and `toLowerCase`.
- `mobile_detect.dfy`: the platform detector.
- `bridge_error.dfy`: the bridge error and `isJSBridgeError`.
- `bridge_client.dfy`: the bridge client. `Client` is a class holding:
  - the resolved context;
  - the global `window`, a map from names to slots;
  - a log of calls into the native side.

  `Client.Bridge` and `Client.Deliver` are proved against the pure guard
  and parse functions of the same module.
- `clear_up_headers.dfy`, `resolve_headers.dfy`, `resolve_config.dfy`: the
  HTTP merging. `ClearUpHeaders` is an in-place method on a `JsObject`. It is
  proved against the pure `ClearedUp`, which the pure `ResolveHeaders` uses.
  `ResolveHeaders` only ever clears an object it has just built.

How the asynchronous and external parts are represented:

- A `bridge()` promise is an `Outcome`: `Resolved`, `Rejected(thrown)` or
  `Pending(callbackName)`.
- When the native side later invokes an iOS callback, that is the separate
  step `Client.Deliver`.
- `JSON.parse` and `JSON.stringify` are a `JsonHost` record of two
  uninterpreted functions, supplied at construction.
- `Math.random` draws are a `picks` sequence of indices below 62.
- The native context's behaviour is a `NativeReply`: what `event` returned,
  or what the call threw.
- Dates are natural numbers.
- MobileDetect's OS alias is an input.

Behaviour of the code that its own doc comments (such as the
`onFulfilled4Resp` comment at src/nativeBase/js-bridge-client.js:27-30) do
not lead one to expect, and which the model follows:

- `#parseRespData` is static. It reads `this.onFulfilled4Resp`, which is the
  class's own (unset) property. The instance's configured transform is stored
  but never consulted. So a valid response resolves unchanged, even when the
  configured transform would reject it (`InstanceTransformIgnored`).
- `#checkIsJSON` uses lodash `isObject`, so a reply that parses to an array
  is accepted. Only `null` and scalars are rejected.
- An iOS callback invoked with an object, rather than a JSON string, is
  rejected with PARSE_RES_ERR: the check demands a string.
- The iOS payload is `{ callback: name, ...command }`. A command with its own
  `callback` key overrides the generated name.
- When `postMessage` throws, the call rejects with the raw error and the
  callback stays registered on `window`.
- `bridge()` with no command, or with `null`, rejects with a TypeError rather
  than CMD_ERR. The parameter default `null` defeats the `= {}` default of the
  destructuring in `checkCMD`.
- Because the HTTP client always passes a non-empty `defaultReqConfig`, its
  `put` and `delete` always throw.

## Model

| member | source | states |
|---|---|---|
| MobileDetect.Detector.Classify | src/nativeBase/js-mobile-detect.js:14-24 | the platform is iOS iff the alias is `'iOS'`, Android iff it is `'AndroidOS'`, unsupported iff the detector is not a phone |
| MobileDetect.NeverBoth | src/nativeBase/js-mobile-detect.js:14-24 | `isIos` and `isAndroid` never both hold; `isMobilePhone` is their disjunction |
| MobileDetect.UnknownAliasAnswersNo | src/nativeBase/js-mobile-detect.js:18-24 | any other alias, or none, makes all three answers false |
| BridgeError.NewJSBridgeError | src/nativeBase/js-bridge-error.js:14-27 | the name is always `JSBridgeError`; an omitted code becomes `NOT_SUPPORT`; message and date are the given ones |
| BridgeError.CodesDistinct | src/nativeBase/js-bridge-error.js:5-7 | the three codes are pairwise distinct (the parse code is `CODE_PARSE_RES_ERR`) |
| BridgeError.DiscriminatorSeparates | src/nativeBase/js-bridge-error.js:30-32 | `isJSBridgeError` accepts every bridge error and rejects engine TypeErrors; a host error passes iff it is an Error whose constructor is named `JSBridgeError` |
| JsValue.IsEmptyIffSpreadsNothing | src/httpBase/_resolve-config.js:19 | lodash `isEmpty` holds exactly for the values whose spread copies nothing |
| JsValue.LowerIdempotent | src/httpBase/_resolve-headers.js:18 | lower-casing a lower-cased method changes nothing |
| JsBridgeClient.EnvCheck | src/nativeBase/js-bridge-client.js:246-256 | passes iff `runInNative` is not `'N'` and the platform is iOS or Android; otherwise NOT_SUPPORT |
| JsBridgeClient.CxtCheck | src/nativeBase/js-bridge-client.js:258-265 | passes iff a context object (object, array or function) is held; otherwise NOT_SUPPORT |
| JsBridgeClient.CheckCmd | src/nativeBase/js-bridge-client.js:49-59 | passes iff the command is an object with non-null, non-undefined `event` and `action`; a `null` command is a TypeError; otherwise a nil `event` is CMD_ERR for the event, and a nil `action` with a present `event` is CMD_ERR for the action |
| JsBridgeClient.Preflight | src/nativeBase/js-bridge-client.js:170-176 | passes iff all three guards pass; a passing preflight implies a phone |
| JsBridgeClient.NotNativeModeRefusesAll | src/nativeBase/js-bridge-client.js:246-252 | with `runInNative === 'N'` every call is refused with NOT_SUPPORT for the native-mode reason, whatever the context and command |
| JsBridgeClient.NonPhoneRefusesAll | src/nativeBase/js-bridge-client.js:253-255 | off a phone every call is refused with NOT_SUPPORT, whatever the command |
| JsBridgeClient.PreflightOrder | src/nativeBase/js-bridge-client.js:170-173 | the environment failure wins over the context failure, which wins over the command failure |
| JsBridgeClient.EventCheckedFirst | src/nativeBase/js-bridge-client.js:50-55 | a command whose `event` is missing, `null` or `undefined` is refused for its `event`, whatever its `action` holds |
| JsBridgeClient.ParamsAreOptional | src/nativeBase/js-bridge-client.js:56-58 | removing `params` never changes the validation result |
| JsBridgeClient.PrimitiveCommandIsCmdErr | src/nativeBase/js-bridge-client.js:49-52 | `undefined` or a primitive, array or function command is CMD_ERR (missing event) |
| JsBridgeClient.MissingCommandIsTypeError | src/nativeBase/js-bridge-client.js:169-175 | past the first two guards, `bridge()` without a command rejects with a TypeError, which is not a bridge error |
| JsBridgeClient.IosMessageHandler | src/nativeBase/js-bridge-client.js:70 | a nullish `webkit` gives null; otherwise the call fails, always with a TypeError, exactly when `messageHandlers` is nullish; on success it yields the named handler, or null when that is nullish |
| JsBridgeClient.ParseNativeContext | src/nativeBase/js-bridge-client.js:61-84 | success yields an object: on Android exactly `window[name]`, on iOS exactly `webkit.messageHandlers[name]`. On iOS with `webkit` present: success iff `webkit` and `messageHandlers` are not nullish and the handler is an object; TypeError iff `webkit` is present but `messageHandlers` is nullish; otherwise NOT_SUPPORT for the unconfigured context. iOS without `webkit` and any non-phone fail with NOT_SUPPORT |
| JsBridgeClient.ConstructedContext | src/nativeBase/js-bridge-client.js:41-46 | the context is set only when the environment check passes and resolution succeeds; under `'N'` or off a phone it stays unset |
| JsBridgeClient.FailedResolutionRefusesAll | src/nativeBase/js-bridge-client.js:258-265 | a client whose resolution failed refuses every later call with NOT_SUPPORT |
| JsBridgeClient.ResolvedContextPasses | src/nativeBase/js-bridge-client.js:41-43 | a client whose context was resolved passes both the context and environment checks |
| JsBridgeClient.AlphabetLayout | src/nativeBase/js-bridge-client.js:89-91 | the alphabet has 62 alphanumeric characters, each at its own index (no repeats) |
| JsBridgeClient.Token | src/nativeBase/js-bridge-client.js:93-95 | the token has one character per draw |
| JsBridgeClient.MakeCallBackRandomStr | src/nativeBase/js-bridge-client.js:87-97 | returns exactly `length` characters, the i-th being alphabet character `picks[i]`, all alphanumeric |
| JsBridgeClient.TokenDeterminesPicks | src/nativeBase/js-bridge-client.js:87-97 | equal tokens come from equal draws |
| JsBridgeClient.CallbackNameShape | src/nativeBase/js-bridge-client.js:210-212 | a registered name is `__callback__` followed by five alphanumeric characters |
| JsBridgeClient.IosPayload | src/nativeBase/js-bridge-client.js:232 | the payload's keys are the command's plus `callback`; every command property wins, its own `callback` included |
| JsBridgeClient.CheckIsJson | src/nativeBase/js-bridge-client.js:99-119 | a non-string, an unparsable string, or a parse to null or a scalar is PARSE_RES_ERR; the unparsable case is raised at the parse site, every other rejection at the final throw, and both messages name the command's `event` and `action`; a parse to an object (lodash `isObject`: object, array or function) is returned unchanged |
| JsBridgeClient.ParseRespData | src/nativeBase/js-bridge-client.js:121-155 | check failures reject with the check's error; a class-level transform, when present, decides the outcome from the checked value; without one the result never stays pending and resolves only with an object |
| JsBridgeClient.ParsedResponseUnchanged | src/nativeBase/js-bridge-client.js:125-153 | as the client calls it, a reply resolves iff it is a string parsing to an object or array, and then to exactly that value; every rejection is a PARSE_RES_ERR bridge error |
| JsBridgeClient.ResponseRoundTrip | src/nativeBase/js-bridge-client.js:99-106 | a reply that is `JSON.stringify(x)` for an object `x` resolves to `x`, given a host whose parse inverts stringify on `x` |
| JsBridgeClient.Client.constructor | src/nativeBase/js-bridge-client.js:32-47 | applies the defaults (`'Y'`, `'NativeContextName'`, the identity transform) and stores the configured transform on the instance; the context is exactly `ConstructedContext`; no call made yet; invariant established |
| JsBridgeClient.Client.Bridge | src/nativeBase/js-bridge-client.js:169-244 | preflight failure: reject, no native call, window unchanged. Android: one `event` call with the stringified command; a throw rejects with the raw error, a return goes through the reply check. iOS: the callback is registered, then one `postMessage`; a throw rejects raw and leaves the slot, otherwise pending. Only well-formed commands are ever sent |
| JsBridgeClient.Client.Deliver | src/nativeBase/js-bridge-client.js:214-230 | a registered callback clears its own slot and settles with the reply check of its command; any other name changes nothing; never pending |
| JsBridgeClient.AndroidHappyPath | src/nativeBase/js-bridge-client.js:184-206 | an Android `pay#start` whose reply is `{"status":"ok"}` resolves with `{status: "ok"}` |
| JsBridgeClient.IosDispatch | src/nativeBase/js-bridge-client.js:209-241 | an iOS call registers `__callback__ABCDE` for its command and stays pending |
| JsBridgeClient.IosHappyPath | src/nativeBase/js-bridge-client.js:214-230 | the first delivery resolves with the parsed object, and a second delivery to the same name finds nothing |
| JsBridgeClient.InstanceTransformIgnored | src/nativeBase/js-bridge-client.js:130-153 | a client configured with a transform that rejects everything still resolves a valid reply |
| JsBridgeClient.NotNativeModeScenario | src/nativeBase/js-bridge-client.js:246-252 | a client in `'N'` mode refuses with NOT_SUPPORT and makes no native call |
| JsBridgeClient.ScenarioCallbackName | src/nativeBase/js-bridge-client.js:210-212 | draws 0 to 4 name the callback `__callback__ABCDE` |
| JsBridgeClient.IosContextResolves | src/nativeBase/js-bridge-client.js:63-71 | on iOS the resolved context is the named handler under `webkit.messageHandlers` |
| ClearUpHeaders.DeleteEachTruthyRemoves | src/httpBase/_clear-up-headers.js:13 | visiting keys removes exactly the visited keys whose values are truthy, and changes no value |
| ClearUpHeaders.ClearedUpSpec | src/httpBase/_clear-up-headers.js:3-13 | no reserved key keeps a truthy value; reserved keys with falsy values and all other keys keep their values; nothing is added |
| ClearUpHeaders.ClearUpIdempotent | src/httpBase/_clear-up-headers.js:3-14 | clearing twice equals clearing once |
| ClearUpHeaders.ClearUpHeaders | src/httpBase/_clear-up-headers.js:2-15 | mutates its argument in place to the cleared map and returns the same object |
| ResolveHeaders.NormalizeMethod | src/httpBase/_resolve-headers.js:18 | a falsy method passes through unchanged; a string is lower-cased; any other truthy value is a TypeError |
| ResolveHeaders.Block | src/httpBase/_resolve-headers.js:29-32 | an absent block contributes nothing; an object block contributes its properties |
| ResolveHeaders.ResolveHeaders | src/httpBase/_resolve-headers.js:17-45 | succeeds iff the method is a string lower-casing to `get` or `post`; a truthy non-string is a TypeError; no reserved key with a truthy value survives |
| ResolveHeaders.HeaderPrecedence | src/httpBase/_resolve-headers.js:26-40 | per key the extras value wins, then the requested block, then `common`, then the defaults; a key is dropped only if it is reserved and its winning value is truthy |
| ResolveHeaders.OnlyRequestedBlockMerged | src/httpBase/_resolve-headers.js:32-40 | a key present only in another method's block does not reach the result |
| ResolveHeaders.MethodCaseInsensitive | src/httpBase/_resolve-headers.js:18-21 | a method and its lower-cased form give identical results (`'GET'` as `'get'`) |
| ResolveHeaders.PutAndDeleteRefused | src/httpBase/_resolve-headers.js:21-23 | `put` and `delete` are refused as invalid methods |
| ResolveHeaders.FalsyMethodRefused | src/httpBase/_resolve-headers.js:18-23 | a missing or empty method is refused as invalid |
| ResolveConfig.ResolveConfig | src/httpBase/_resolve-config.js:18-31 | the result is `{}` iff both inputs are empty; a null input with something to merge is a TypeError; any other success carries an object under `headers` |
| ResolveConfig.ConfigMerge | src/httpBase/_resolve-config.js:23-27 | when the inputs are not both empty and neither is null: succeeds iff the method is get or post; keys are the union of the inputs' keys and `headers`; other keys take extras over defaults; `headers` is the resolved headers |
| ResolveConfig.EmptyInputsSkipMethodCheck | src/httpBase/_resolve-config.js:19-21 | when neither input's spread copies a property, the result is `{}` whatever the method, even one the headers check refuses |
| ResolveConfig.DefaultReqConfig | src/httpBase/httpclient-module.js:48-54 | the client's default config always has `headers` and is never empty |
| ResolveConfig.PutAndDeleteAlwaysFail | src/httpBase/httpclient-module.js:139-160 | the client's `put` and `delete` always throw, whatever config they are given |
| ResolveConfig.GetAndPostSucceed | src/httpBase/httpclient-module.js:124-137 | the client's `get` and `post` resolve their config whenever the extra config is not null |

## Left out

- JsBridgeClient.Client.Deliver: `Pending(name)` identifies a callback, not a call. Two iOS calls that draw the same token register the same name. The second registration replaces the first callback, so the first promise never settles. The model's `Deliver` settles whichever command the slot holds, and its result does not say which call that was.
- JsBridgeClient.Client: `window` is a field of one client. In the source, `window` is shared by every client on the page, so one client can overwrite another's callback; that sharing is not modelled.
- Promise scheduling, callback timing and reentrancy are not modelled. An iOS call is `Pending` plus a later `Deliver`. There is no timeout, so a callback that is never delivered stays registered, as in the source.
- Logging (`infos`, `warns`, `info`) is left out: it only writes to the console. Failures while formatting log text are not modelled either.
- `JSON.parse` and `JSON.stringify` are uninterpreted parameters. A `JSON.stringify` that throws (cyclic values, BigInt) is not modelled.
- `Math.random` is replaced by the caller-supplied draws. `new Date()` is a natural-number timestamp.
- JsBridgeError's `cause` and the stack trace (`super(...params)`, `captureStackTrace`) are left out: an error holds the message only.
- Error messages are Chinese prose. Each is modelled by the site that raises it and the values it interpolates, not by its text.
- MobileDetect's user-agent parsing is left out: the OS alias is an input.
- The native context's `event` and `postMessage` are external. What they return or throw is a parameter, including the TypeError when the context lacks the method.
- src/nativeBase/base-module.js (`fireEvent`, `fireEventForAsync`) is not part of this model. It is a facade over `bridge` that builds `{event, action, params}`.
- src/httpBase/httpclient-module.js is left out except for the default config and the method names it passes to `resolveConfig`. Axios, the interceptors and `validateStatus` wrap a library outside this model.
- The logging-only interceptors, the logger and index.js factories are left out. The factories repeat the constructor defaults.
- Values are simplified. Numbers are integers (no NaN, fractions, BigInt or Symbol). Object properties have no order and no prototype chain; `'webkit' in window` is an own-key test. Reading a property of a string, array or function gives `undefined` (no indices, no `length`). A function is an opaque value that is never called. So an object carrying its own callable `toLowerCase` is refused by the method normalisation with a TypeError, where `_resolve-headers.js:18` would call it. And `IsEmpty` looks only at an object's own keys, where lodash `isEmpty` treats an object with a numeric `length` and a `splice` function as array-like. The callers in this model never pass such objects.
- JsValue.Lower: lower-cases ASCII letters only. Full Unicode `toLowerCase` maps no other string to `get` or `post`, so whether a method is accepted is the same; only the text of a refused method differs.
- "`defaults` and `extras` are not modified" needs no proof here: the merging functions take values, and only the fresh object is cleared in place.
