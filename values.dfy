/**
 * The JSON-shaped Python values the client builds and receives: GraphQL variables,
 * request data and the `data` of an API error.
 */
module Values {
  import opened Common

  datatype Value =
    | Null
    | Bool(b: bool)
    | Int(i: int)
    | Float(f: real)
    | Str(s: string)
    | List(items: seq<Value>)
    | Object(entries: seq<(string, Value)>)

  /** Python truthiness (`if v:`): None, False, 0, 0.0 and empty containers are false. */
  predicate Truthy(v: Value)
  {
    match v
    case Null => false
    case Bool(b) => b
    case Int(i) => i != 0
    case Float(f) => f != 0.0
    case Str(s) => s != []
    case List(items) => items != []
    case Object(entries) => entries != []
  }

  /** The seven values Python treats as false in `if v:`; every other value is true. */
  lemma FalsyValues(v: Value)
    ensures !Truthy(v) <==> v in {Null, Bool(false), Int(0), Float(0.0), Str(""), List([]), Object([])}
  {
  }

  /** `d.get(key, None)` on an ordered dict: the value stored under the first entry for `key`. */
  function Get(entries: seq<(string, Value)>, key: string): (r: Option<Value>)
    ensures r.Some? <==> exists i :: 0 <= i < |entries| && entries[i].0 == key
    ensures r.Some? ==> exists i :: 0 <= i < |entries| && entries[i] == (key, r.value)
  {
    if entries == [] then None
    else if entries[0].0 == key then Some(entries[0].1)
    else
      var r := Get(entries[1..], key);
      assert forall i :: 1 <= i < |entries| ==> entries[i] == entries[1..][i - 1];
      r
  }
}
