/**
 * `resolveConfig(method, defaults, extras)`: an empty short-circuit, then a
 * top-level merge in which extras win, with `headers` replaced by the
 * resolved headers.
 */
module ResolveConfig {
  import opened Wrappers
  import opened JsValue
  import opened ResolveHeaders

  /** `resolveConfig(method, defaults, extras)`. */
  function ResolveConfig(verb: Value, defaults: Value, extras: Value): (r: Result<map<string, Value>, HttpError>)
    ensures r == Ok(map[]) <==> IsEmpty(DefaultTo(defaults, Obj(map[]))) && IsEmpty(DefaultTo(extras, Obj(map[])))
    ensures var d := DefaultTo(defaults, Obj(map[]));
            var e := DefaultTo(extras, Obj(map[]));
            !(IsEmpty(d) && IsEmpty(e)) && (d.Null? || e.Null?) ==> r == Err(TypeError)
    ensures r.Ok? && r.value != map[] ==> "headers" in r.value && r.value["headers"].Obj?
  {
    var d := DefaultTo(defaults, Obj(map[]));
    var e := DefaultTo(extras, Obj(map[]));
    if IsEmpty(d) && IsEmpty(e) then Ok(map[])
    // reading `.headers` of a null argument throws before resolveHeaders runs
    else if d.Null? || e.Null? then Err(TypeError)
    else
      match ResolveHeaders.ResolveHeaders(verb, Prop(d, "headers"), Prop(e, "headers"))
      case Err(err) => Err(err)
      case Ok(headers) => Ok(Layer(Spread(d), Spread(e), Obj(headers)))
  }

  /**
   * When the inputs are not both empty and neither is null, the call
   * succeeds exactly for get and post; the result's keys are the union of
   * the inputs' keys and `headers`; every other key takes the extras value
   * when present, else the defaults value; and `headers` is the resolved
   * headers, whatever either input held there.
   */
  lemma ConfigMerge(verb: Value, defaults: Value, extras: Value)
    requires var d := DefaultTo(defaults, Obj(map[]));
             var e := DefaultTo(extras, Obj(map[]));
             !(IsEmpty(d) && IsEmpty(e)) && !d.Null? && !e.Null?
    ensures var d := DefaultTo(defaults, Obj(map[]));
            var e := DefaultTo(extras, Obj(map[]));
            var r := ResolveConfig(verb, defaults, extras);
            var h := ResolveHeaders.ResolveHeaders(verb, Prop(d, "headers"), Prop(e, "headers"));
            && (r.Ok? <==> verb.Str? && (Lower(verb.s) == "get" || Lower(verb.s) == "post"))
            && (r.Ok? ==> h.Ok? && r.value.Keys == Spread(d).Keys + Spread(e).Keys + {"headers"})
            && (r.Ok? ==> r.value["headers"] == Obj(h.value))
            && (r.Ok? ==> forall k :: k in r.value && k != "headers" ==>
                  r.value[k] == if k in Spread(e) then Spread(e)[k] else Spread(d)[k])
  {
    var d := DefaultTo(defaults, Obj(map[]));
    var e := DefaultTo(extras, Obj(map[]));
    var h := ResolveHeaders.ResolveHeaders(verb, Prop(d, "headers"), Prop(e, "headers"));
    if h.Ok? {
      assert ResolveConfig(verb, defaults, extras) == Ok(Layer(Spread(d), Spread(e), Obj(h.value)));
      LayerShape(Spread(d), Spread(e), Obj(h.value));
    } else {
      assert ResolveConfig(verb, defaults, extras) == Err(h.error);
    }
  }

  /** `{ ...lower, ...upper, headers }`: the top-level merge. */
  function Layer(lower: map<string, Value>, upper: map<string, Value>, headers: Value): map<string, Value> {
    lower + upper + map["headers" := headers]
  }

  /** Upper wins over lower, and `headers` over both. */
  lemma LayerShape(lower: map<string, Value>, upper: map<string, Value>, headers: Value)
    ensures Layer(lower, upper, headers).Keys == lower.Keys + upper.Keys + {"headers"}
    ensures Layer(lower, upper, headers)["headers"] == headers
    ensures forall k :: k in Layer(lower, upper, headers) && k != "headers" ==>
              Layer(lower, upper, headers)[k] == if k in upper then upper[k] else lower[k]
  {
  }

  /**
   * With nothing to merge (neither input's spread copies a property) the
   * result is `{}`, even for a method resolveHeaders would refuse.
   */
  lemma EmptyInputsSkipMethodCheck(verb: Value, defaults: Value, extras: Value)
    requires Spread(DefaultTo(defaults, Obj(map[]))) == map[] && Spread(DefaultTo(extras, Obj(map[]))) == map[]
    ensures ResolveConfig(verb, defaults, extras) == Ok(map[])
  {
    IsEmptyIffSpreadsNothing(DefaultTo(defaults, Obj(map[])));
    IsEmptyIffSpreadsNothing(DefaultTo(extras, Obj(map[])));
  }

  /** The media type the HTTP client module puts in its default headers. */
  const FormUrlEncoded := "application/x-www-form-urlencoded"

  /**
   * The HTTP client module's `defaultReqConfig`: a `headers` object holding
   * the form content type under `contentTypeKey` and the configured default
   * headers. The key's value lives in a file that is not part of this model,
   * so it is a parameter.
   */
  function DefaultReqConfig(contentTypeKey: string, defaultHeaders: map<string, Value>): (c: Value)
    ensures c.Obj? && "headers" in c.props && !IsEmpty(c)
  {
    Obj(map["headers" := Obj(map[contentTypeKey := Str(FormUrlEncoded)] + defaultHeaders)])
  }

  /**
   * The client's `put` and `delete` pass `'put'` and `'delete'` with
   * `defaultReqConfig`, which is never empty: every such call throws.
   */
  lemma PutAndDeleteAlwaysFail(contentTypeKey: string, defaultHeaders: map<string, Value>, config: Value)
    ensures ResolveConfig(Str("put"), DefaultReqConfig(contentTypeKey, defaultHeaders), config).Err?
    ensures ResolveConfig(Str("delete"), DefaultReqConfig(contentTypeKey, defaultHeaders), config).Err?
  {
    var d := DefaultReqConfig(contentTypeKey, defaultHeaders);
    var e := DefaultTo(config, Obj(map[]));
    PutAndDeleteRefused(Prop(d, "headers"), Prop(e, "headers"));
  }

  /** The client's `get` and `post` succeed whenever the extra config is not null. */
  lemma GetAndPostSucceed(contentTypeKey: string, defaultHeaders: map<string, Value>, config: Value)
    requires !config.Null?
    ensures ResolveConfig(Str("get"), DefaultReqConfig(contentTypeKey, defaultHeaders), config).Ok?
    ensures ResolveConfig(Str("post"), DefaultReqConfig(contentTypeKey, defaultHeaders), config).Ok?
  {
    LowerKeepsLowerCase("get");
    LowerKeepsLowerCase("post");
  }
}
