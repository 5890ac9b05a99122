/**
 * The value a host attaches to a navigation entry (`history.state`).
 * The host stores structured-cloneable, acyclic, JSON-like data; numbers are
 * modelled as unbounded integers.
 */
module Json {

  datatype Json =
    | JNull
    | JBool(b: bool)
    | JNumber(n: int)
    | JString(s: string)
    | JArray(items: seq<Json>)
    | JObject(fields: map<string, Json>)

  /**
   * Deep structural equality in the manner of `lodash/isEqual` on acyclic
   * JSON-like values: primitives compare by value, arrays by length and
   * element-wise, objects by their key sets and key-wise (key order is
   * irrelevant).
   */
  predicate DeepEqual(a: Json, b: Json)
  {
    match (a, b)
    case (JNull, JNull) => true
    case (JBool(x), JBool(y)) => x == y
    case (JNumber(x), JNumber(y)) => x == y
    case (JString(x), JString(y)) => x == y
    case (JArray(xs), JArray(ys)) =>
      |xs| == |ys| && forall i :: 0 <= i < |xs| ==> DeepEqual(xs[i], ys[i])
    case (JObject(xm), JObject(ym)) =>
      xm.Keys == ym.Keys && forall k :: k in xm ==> DeepEqual(xm[k], ym[k])
    case _ => false
  }

  /** Deep equality coincides with equality of the datatype values. */
  lemma {:induction false} DeepEqualIsEquality(a: Json, b: Json)
    ensures DeepEqual(a, b) <==> a == b
  {
    match (a, b)
    case (JArray(xs), JArray(ys)) =>
      if |xs| == |ys| {
        forall i | 0 <= i < |xs| ensures DeepEqual(xs[i], ys[i]) <==> xs[i] == ys[i] {
          DeepEqualIsEquality(xs[i], ys[i]);
        }
      }
    case (JObject(xm), JObject(ym)) =>
      forall k | k in xm && k in ym ensures DeepEqual(xm[k], ym[k]) <==> xm[k] == ym[k] {
        DeepEqualIsEquality(xm[k], ym[k]);
      }
    case _ =>
  }
}
