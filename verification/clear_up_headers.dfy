/**
 * `_clearUpHeaders`: removes, in place, every reserved key whose value is
 * truthy, and returns the same object.
 */
module ClearUpHeaders {
  import opened JsValue

  /** The keys visited, in order: the common block and the seven method blocks. */
  const Reserved: seq<string> := ["common", "get", "post", "put", "delete", "patch", "options", "head"]

  /** `headers[prop] && delete headers[prop]` on a property map. */
  function DeleteIfTruthy(m: map<string, Value>, key: string): map<string, Value> {
    if key in m && Truthy(m[key]) then m - {key} else m
  }

  /** The property map after visiting `keys` in order. */
  function DeleteEachTruthy(m: map<string, Value>, keys: seq<string>): map<string, Value> {
    if keys == [] then m
    else DeleteIfTruthy(DeleteEachTruthy(m, keys[..|keys| - 1]), keys[|keys| - 1])
  }

  /** The property map `_clearUpHeaders` leaves behind. */
  function ClearedUp(m: map<string, Value>): map<string, Value> {
    DeleteEachTruthy(m, Reserved)
  }

  /** Visiting `keys` removes exactly the visited keys with truthy values and changes no value. */
  lemma {:induction false} DeleteEachTruthyRemoves(m: map<string, Value>, keys: seq<string>, k: string)
    ensures k in DeleteEachTruthy(m, keys) <==> k in m && !(k in keys && Truthy(m[k]))
    ensures k in DeleteEachTruthy(m, keys) ==> DeleteEachTruthy(m, keys)[k] == m[k]
  {
    if keys != [] {
      var init := keys[..|keys| - 1];
      DeleteEachTruthyRemoves(m, init, k);
      assert k in keys <==> k in init || k == keys[|keys| - 1];
    }
  }

  /**
   * After clearing, no reserved key maps to a truthy value; a reserved key
   * with a falsy value and every other key keep their values; nothing is
   * added.
   */
  lemma ClearedUpSpec(m: map<string, Value>)
    ensures forall k :: k in ClearedUp(m) ==> k in m && ClearedUp(m)[k] == m[k]
    ensures forall k :: k in ClearedUp(m) && k in Reserved ==> !Truthy(ClearedUp(m)[k])
    ensures forall k :: k in m && k in Reserved && !Truthy(m[k]) ==> k in ClearedUp(m)
    ensures forall k :: k in m && k !in Reserved ==> k in ClearedUp(m)
  {
    forall k {
      DeleteEachTruthyRemoves(m, Reserved, k);
    }
  }

  /** Clearing twice is clearing once. */
  lemma ClearUpIdempotent(m: map<string, Value>)
    ensures ClearedUp(ClearedUp(m)) == ClearedUp(m)
  {
    var once := ClearedUp(m);
    ClearedUpSpec(m);
    forall k | k in once
      ensures k in ClearedUp(once) && ClearedUp(once)[k] == once[k]
    {
      DeleteEachTruthyRemoves(once, Reserved, k);
    }
    forall k | k in ClearedUp(once) ensures k in once {
      DeleteEachTruthyRemoves(once, Reserved, k);
    }
  }

  /** A JavaScript object whose own properties a callee may change. */
  class JsObject {
    var props: map<string, Value>

    constructor (props: map<string, Value>)
      ensures this.props == props
    {
      this.props := props;
    }
  }

  /** `_clearUpHeaders(headers)`: deletes in place and returns its argument. */
  method ClearUpHeaders(headers: JsObject) returns (r: JsObject)
    modifies headers
    ensures r == headers
    ensures headers.props == ClearedUp(old(headers.props))
  {
    for i := 0 to |Reserved|
      invariant headers.props == DeleteEachTruthy(old(headers.props), Reserved[..i])
    {
      var prop := Reserved[i];
      if prop in headers.props && Truthy(headers.props[prop]) {
        headers.props := headers.props - {prop};
      }
      assert Reserved[..i + 1][..i] == Reserved[..i];
    }
    assert Reserved[..|Reserved|] == Reserved;
    r := headers;
  }
}
