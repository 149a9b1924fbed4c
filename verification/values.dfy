/** Values that appear in parameter grids and in decoded JSON documents. */
module Values {
  import opened Wrappers

  /** A scalar candidate value of a grid, or a held-out value. Float
      literals such as 0.1 are exact rationals: they are only compared. */
  datatype Value = VNull | VInt(i: int) | VReal(r: real) | VBool(b: bool) | VStr(s: string)

  /** A decoded JSON document. */
  datatype Json =
    | JNull
    | JInt(i: int)
    | JReal(r: real)
    | JBool(b: bool)
    | JStr(s: string)
    | JArray(items: seq<Json>)
    | JObject(fields: map<string, Json>)

  /** A grid without its order: parameter name to candidate values. */
  type GridMap = map<string, seq<Value>>

  /** The JSON encoding of a scalar. */
  function ValueJson(v: Value): (j: Json)
    ensures !j.JArray? && !j.JObject?
  {
    match v
    case VNull => JNull
    case VInt(i) => JInt(i)
    case VReal(r) => JReal(r)
    case VBool(b) => JBool(b)
    case VStr(s) => JStr(s)
  }

  /** The scalar a JSON document denotes; arrays and objects are not scalars
      (in the original they are unhashable and cannot key a dict). */
  function AsScalar(j: Json): (r: Option<Value>)
    ensures r.None? <==> j.JArray? || j.JObject?
    ensures r.Some? ==> ValueJson(r.value) == j
  {
    match j
    case JNull => Some(VNull)
    case JInt(i) => Some(VInt(i))
    case JReal(x) => Some(VReal(x))
    case JBool(b) => Some(VBool(b))
    case JStr(s) => Some(VStr(s))
    case JArray(_) => None
    case JObject(_) => None
  }

  lemma ScalarRoundTrip(v: Value)
    ensures AsScalar(ValueJson(v)) == Some(v)
  {
  }

  /** A list of candidate values as a JSON array. */
  function ValuesJson(vs: seq<Value>): (j: Json)
    ensures j.JArray? && |j.items| == |vs|
    ensures forall i :: 0 <= i < |vs| ==> j.items[i] == ValueJson(vs[i])
  {
    JArray(seq(|vs|, i requires 0 <= i < |vs| => ValueJson(vs[i])))
  }

  /** Decodes a JSON array of scalars; anything else is not a value list. */
  function AsValues(j: Json): (r: Option<seq<Value>>)
    ensures r.Some? ==> ValuesJson(r.value) == j
  {
    if j.JArray? && forall i :: 0 <= i < |j.items| ==> AsScalar(j.items[i]).Some? then
      var vs := seq(|j.items|, i requires 0 <= i < |j.items| => AsScalar(j.items[i]).value);
      assert ValuesJson(vs).items == j.items;
      Some(vs)
    else
      None
  }

  lemma {:induction false} ValuesRoundTrip(vs: seq<Value>)
    ensures AsValues(ValuesJson(vs)) == Some(vs)
  {
    var j := ValuesJson(vs);
    forall i | 0 <= i < |vs|
      ensures AsScalar(j.items[i]) == Some(vs[i])
    {
      ScalarRoundTrip(vs[i]);
    }
    assert AsValues(j).value == vs;
  }

  /** The JSON object a grid is written as (and compared against). */
  function GridJson(g: GridMap): (j: Json)
    ensures j.JObject? && j.fields.Keys == g.Keys
    ensures forall k :: k in g ==> j.fields[k] == ValuesJson(g[k])
  {
    JObject(map k | k in g :: ValuesJson(g[k]))
  }

  /** Two grids are equal exactly when their JSON encodings are: comparing a
      template with a decoded grid is comparing the grids themselves. */
  lemma {:induction false} GridJsonInjective(a: GridMap, b: GridMap)
    ensures GridJson(a) == GridJson(b) <==> a == b
  {
    if GridJson(a) == GridJson(b) {
      assert a.Keys == b.Keys;
      forall k | k in a
        ensures a[k] == b[k]
      {
        ValuesRoundTrip(a[k]);
        ValuesRoundTrip(b[k]);
      }
    }
  }
}
