/** Plain JavaScript objects as the scrapers build and serialise them:
    string keys mapped to string, number or string-array values. */
module JsObject {

  datatype Value = Str(s: string) | Num(n: int) | StrList(items: seq<string>)

  type Object = map<string, Value>

  /** The object literal `{ ...a, ...b }`: every own key of either operand,
      with the value from `b` where both have the key. */
  function Spread(a: Object, b: Object): (r: Object)
    ensures r.Keys == a.Keys + b.Keys
    ensures forall k :: k in b ==> r[k] == b[k]
    ensures forall k :: k in a && k !in b ==> r[k] == a[k]
  {
    a + b
  }
}
