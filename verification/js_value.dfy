/**
 * The slice of JavaScript's value domain that the bridge client and the
 * header/config merging touch: truthiness, lodash's `isObject` and
 * `isEmpty`, property reads, object spread and `String.prototype.toLowerCase`
 * on the method names.
 */
module JsValue {

  /** A JavaScript value. Numbers are integers; a function is opaque. */
  datatype Value =
    | Undefined
    | Null
    | Bool(b: bool)
    | Num(n: int)
    | Str(s: string)
    | Arr(items: seq<Value>)
    | Obj(props: map<string, Value>)
    | Fn

  /** JavaScript truthiness: `undefined`, `null`, `false`, `0` and `''` are falsy. */
  predicate Truthy(v: Value) {
    match v
    case Undefined => false
    case Null => false
    case Bool(b) => b
    case Num(n) => n != 0
    case Str(s) => s != ""
    case _ => true
  }

  /** lodash `isObject`: objects, arrays and functions, never `null`. */
  predicate IsObject(v: Value) {
    v.Arr? || v.Obj? || v.Fn?
  }

  /** lodash `isNull(v) || isUndefined(v)`. */
  predicate IsNil(v: Value) {
    v.Null? || v.Undefined?
  }

  /** A parameter default `x = d`: it applies to `undefined` only, not to `null`. */
  function DefaultTo(v: Value, d: Value): (r: Value)
    ensures v != Undefined ==> r == v
    ensures v == Undefined ==> r == d
  {
    if v.Undefined? then d else v
  }

  /**
   * `v[key]` for a value that is neither `null` nor `undefined`: an own
   * property of a plain object, `undefined` otherwise.
   */
  function Prop(v: Value, key: string): (r: Value)
    ensures !v.Obj? ==> r == Undefined
    ensures v.Obj? && key !in v.props ==> r == Undefined
  {
    if v.Obj? && key in v.props then v.props[key] else Undefined
  }

  /** The canonical decimal name of an array index. */
  function IndexKey(i: nat): (k: string)
    ensures |k| > 0
    ensures forall j :: 0 <= j < |k| ==> '0' <= k[j] <= '9'
  {
    var digit := ['0' + (i % 10) as char];
    if i < 10 then digit else IndexKey(i / 10) + digit
  }

  /** The own properties an array or a string spreads into an object: one per index. */
  function SpreadIndexed(items: seq<Value>): (m: map<string, Value>)
    ensures |items| > 0 ==> IndexKey(|items| - 1) in m
    ensures items == [] ==> m == map[]
  {
    if items == [] then map[]
    else SpreadIndexed(items[..|items| - 1])[IndexKey(|items| - 1) := items[|items| - 1]]
  }

  /** The characters of a string as one-character strings. */
  function Chars(s: string): (r: seq<Value>)
    ensures |r| == |s|
  {
    seq(|s|, i requires 0 <= i < |s| => Str([s[i]]))
  }

  /**
   * What `{ ...v }` copies: a plain object's properties, one entry per index
   * for arrays and strings, nothing for any other value (`null` and
   * `undefined` included).
   */
  function Spread(v: Value): map<string, Value> {
    match v
    case Obj(m) => m
    case Arr(items) => SpreadIndexed(items)
    case Str(s) => SpreadIndexed(Chars(s))
    case _ => map[]
  }

  /**
   * lodash `isEmpty`: an array or string of length 0, an object without own
   * properties; every other value (numbers and booleans included) is empty.
   */
  predicate IsEmpty(v: Value) {
    match v
    case Arr(items) => |items| == 0
    case Str(s) => |s| == 0
    case Obj(m) => |m| == 0
    case _ => true
  }

  /** `isEmpty(v)` holds exactly when spreading `v` copies nothing. */
  lemma IsEmptyIffSpreadsNothing(v: Value)
    ensures IsEmpty(v) <==> Spread(v) == map[]
  {
    match v
    case Arr(items) =>
      if |items| > 0 { assert IndexKey(|items| - 1) in Spread(v); }
    case Str(s) =>
      if |s| > 0 { assert IndexKey(|Chars(s)| - 1) in Spread(v); }
    case Obj(m) =>
      if |m| > 0 { var k :| k in m; assert k in Spread(v); }
    case _ =>
  }

  /** The lower-case form of an ASCII letter; other characters are kept. */
  function LowerChar(c: char): (r: char)
    ensures 'A' <= c <= 'Z' ==> 'a' <= r <= 'z'
    ensures !('A' <= c <= 'Z') ==> r == c
  {
    if 'A' <= c <= 'Z' then (c as int + 32) as char else c
  }

  /** `s.toLowerCase()`, character by character, on the ASCII letters. */
  function Lower(s: string): (r: string)
    ensures |r| == |s|
  {
    if s == [] then [] else [LowerChar(s[0])] + Lower(s[1..])
  }

  /** Lower-casing is idempotent. */
  lemma {:induction false} LowerIdempotent(s: string)
    ensures Lower(Lower(s)) == Lower(s)
  {
    if s != [] {
      LowerIdempotent(s[1..]);
      assert Lower(s)[1..] == Lower(s[1..]);
    }
  }

  /** Lower-casing changes no character that is not an upper-case ASCII letter. */
  lemma {:induction false} LowerKeepsLowerCase(s: string)
    requires forall i :: 0 <= i < |s| ==> !('A' <= s[i] <= 'Z')
    ensures Lower(s) == s
  {
    if s != [] {
      LowerKeepsLowerCase(s[1..]);
    }
  }
}
