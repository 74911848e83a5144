/**
 * `resolveHeaders(method, defaults, extras)`: validates the request method
 * (get or post, in any case) and merges headers with the precedence
 * defaults < common block < block of the requested method < extras, then
 * drops the reserved block keys.
 */
module ResolveHeaders {
  import opened Wrappers
  import opened JsValue
  import opened ClearUpHeaders

  /** What the HTTP merging throws: the method error, or a TypeError from the engine. */
  datatype HttpError = InvalidMethod(verb: Value) | TypeError

  /** `method && method.toLowerCase()`: falsy methods pass through, non-strings have no `toLowerCase`. */
  function NormalizeMethod(verb: Value): (r: Result<Value, HttpError>)
    ensures r.Err? <==> Truthy(verb) && !verb.Str?
    ensures !Truthy(verb) ==> r == Ok(verb)
    ensures r.Ok? && verb.Str? ==> r.value == Str(Lower(verb.s))
  {
    if !Truthy(verb) then Ok(verb)
    else if verb.Str? then Ok(Str(Lower(verb.s)))
    else Err(TypeError)
  }

  /** `/^(get|post)$/.test(m)`: only the exact strings match. */
  predicate IsSupportedMethod(m: Value) {
    m == Str("get") || m == Str("post")
  }

  /** `{ ...(headers[key] || {}) }`: what a block of the defaults contributes. */
  function Block(headers: map<string, Value>, key: string): (b: map<string, Value>)
    ensures key !in headers ==> b == map[]
    ensures key in headers && headers[key].Obj? ==> b == headers[key].props
  {
    if key in headers && Truthy(headers[key]) then Spread(headers[key]) else Spread(Obj(map[]))
  }

  /** `{ ...defaults }`, with the parameter default `{}`. */
  function DefaultLayer(defaults: Value): map<string, Value> {
    Spread(DefaultTo(defaults, Obj(map[])))
  }

  /** `{ ...extras }`, with the parameter default `{}`. */
  function ExtrasLayer(extras: Value): map<string, Value> {
    Spread(DefaultTo(extras, Obj(map[])))
  }

  /** The merged headers before clearing: later layers win. */
  function Layered(defaults: Value, m: string, extras: Value): map<string, Value> {
    var headers := DefaultLayer(defaults);
    headers + Block(headers, "common") + Block(headers, m) + ExtrasLayer(extras)
  }

  /** `resolveHeaders(method, defaults, extras)`. */
  function ResolveHeaders(verb: Value, defaults: Value, extras: Value): (r: Result<map<string, Value>, HttpError>)
    ensures r.Ok? <==> verb.Str? && (Lower(verb.s) == "get" || Lower(verb.s) == "post")
    ensures r.Err? && r.error == TypeError <==> Truthy(verb) && !verb.Str?
    ensures r.Ok? ==> forall k :: k in r.value && k in Reserved ==> !Truthy(r.value[k])
  {
    match NormalizeMethod(verb)
    case Err(e) => Err(e)
    case Ok(m) =>
      if !IsSupportedMethod(m) then Err(InvalidMethod(m))
      else
        var merged := Layered(defaults, m.s, extras);
        ClearedUpSpec(merged);
        Ok(ClearedUp(merged))
  }

  /**
   * Per key, the result takes the extras value if there is one, else the
   * requested method's block, else the common block, else the defaults;
   * a key is dropped only when it is reserved and its winning value is
   * truthy.
   */
  lemma HeaderPrecedence(verb: Value, defaults: Value, extras: Value, k: string)
    requires ResolveHeaders(verb, defaults, extras).Ok?
    ensures var r := ResolveHeaders(verb, defaults, extras).value;
            var d := DefaultLayer(defaults);
            var c := Block(d, "common");
            var b := Block(d, Lower(verb.s));
            var e := ExtrasLayer(extras);
            var winner := if k in e then e[k] else if k in b then b[k] else if k in c then c[k] else if k in d then d[k] else Undefined;
            && (k in r <==> (k in d || k in c || k in b || k in e) && !(k in Reserved && Truthy(winner)))
            && (k in r ==> r[k] == winner)
  {
    var merged := Layered(defaults, Lower(verb.s), extras);
    DeleteEachTruthyRemoves(merged, Reserved, k);
  }

  /** Keys come only from the defaults, the common block, the requested block and the extras. */
  lemma OnlyRequestedBlockMerged(verb: Value, defaults: Value, extras: Value, k: string)
    requires ResolveHeaders(verb, defaults, extras).Ok?
    requires var d := DefaultLayer(defaults);
             k !in d && k !in Block(d, "common") && k !in Block(d, Lower(verb.s)) && k !in ExtrasLayer(extras)
    ensures k !in ResolveHeaders(verb, defaults, extras).value
  {
    HeaderPrecedence(verb, defaults, extras, k);
  }

  /** The method is case-insensitive: `'GET'` and `'get'` give the same result. */
  lemma MethodCaseInsensitive(s: string, defaults: Value, extras: Value)
    ensures ResolveHeaders(Str(s), defaults, extras) == ResolveHeaders(Str(Lower(s)), defaults, extras)
  {
    LowerIdempotent(s);
  }

  /** `put` and `delete` are refused like every method other than get and post. */
  lemma PutAndDeleteRefused(defaults: Value, extras: Value)
    ensures ResolveHeaders(Str("put"), defaults, extras) == Err(InvalidMethod(Str("put")))
    ensures ResolveHeaders(Str("delete"), defaults, extras) == Err(InvalidMethod(Str("delete")))
  {
    LowerKeepsLowerCase("put");
    LowerKeepsLowerCase("delete");
  }

  /** A missing or empty method is refused as invalid, not as a TypeError. */
  lemma FalsyMethodRefused(verb: Value, defaults: Value, extras: Value)
    requires !Truthy(verb)
    ensures ResolveHeaders(verb, defaults, extras) == Err(InvalidMethod(verb))
  {
  }
}
