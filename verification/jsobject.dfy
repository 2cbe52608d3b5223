/**
 * Plain JavaScript objects as the client state holds them: string keys
 * mapped to values, read with `undefined` for a missing key,
 * merged with the spread operator, and compared by `id` with `===`.
 */
module JsObject {

  /** A JavaScript value: a primitive or an array of values; `Undefined` is also what a missing key reads as. */
  datatype Value = Undefined | Null | Bool(b: bool) | Num(n: int) | Str(s: string) | Arr(items: seq<Value>)

  type Object = map<string, Value>

  /** `o[k]`. */
  function Get(o: Object, k: string): (v: Value)
    ensures k !in o ==> v == Undefined
    ensures k in o ==> v == o[k]
  {
    if k in o then o[k] else Undefined
  }

  /** JavaScript truthiness; every array, even an empty one, is truthy. */
  predicate Truthy(v: Value) {
    match v
    case Undefined => false
    case Null => false
    case Bool(b) => b
    case Num(n) => n != 0
    case Str(s) => s != ""
    case Arr(_) => true
  }

  /** `v || fallback`. */
  function Or(v: Value, fallback: Value): (r: Value)
    ensures Truthy(v) ==> r == v
    ensures !Truthy(v) ==> r == fallback
  {
    if Truthy(v) then v else fallback
  }

  /** An array of strings. */
  function Strs(xs: seq<string>): (r: Value)
    ensures r.Arr? && |r.items| == |xs| && forall i :: 0 <= i < |xs| ==> r.items[i] == Str(xs[i])
  {
    Arr(seq(|xs|, i requires 0 <= i < |xs| => Str(xs[i])))
  }

  /** `{...a, ...b}`: every key of either, the later object winning. */
  function Spread(a: Object, b: Object): (r: Object)
    ensures r.Keys == a.Keys + b.Keys
    ensures forall k :: k in b ==> r[k] == b[k]
    ensures forall k :: k in a && k !in b ==> r[k] == a[k]
  {
    a + b
  }

  /** Merging the same updates twice is merging them once. */
  lemma SpreadIdempotent(a: Object, b: Object)
    ensures Spread(Spread(a, b), b) == Spread(a, b)
  {
  }

  /** Two merges in a row are one merge of the combined updates. */
  lemma SpreadTwice(a: Object, b: Object, c: Object)
    ensures Spread(Spread(a, b), c) == Spread(a, Spread(b, c))
  {
  }

  function SpreadWith(updates: Object): Object -> Object {
    (o: Object) => Spread(o, updates)
  }

  /** `o => o.id === id`. */
  function HasId(id: Value): Object -> bool {
    (o: Object) => Get(o, "id") == id
  }

  /** `o => o.id !== id`. */
  function NotId(id: Value): Object -> bool {
    (o: Object) => Get(o, "id") != id
  }
}
