/** The JSON values that the history file and the document records are made of,
    and Python's `==` on the values `json` decodes them to. */
module JsonValue {

  datatype Json =
    | JNull
    | JBool(b: bool)
    | JInt(i: int)
    | JStr(s: string)
    | JArray(items: seq<Json>)
    | JObject(fields: map<string, Json>)

  /** Python's `bool` is a subclass of `int`: `True == 1` and `False == 0`. */
  function BoolAsInt(b: bool): int {
    if b then 1 else 0
  }

  /** Python's `==` on decoded values: lists element by element, dicts by key set
      and values (key order plays no part), and a bool equal to the int 0 or 1. */
  predicate PyEq(a: Json, b: Json)
    ensures PyEq(a, b) ==>
              (a.JNull? <==> b.JNull?) && (a.JStr? <==> b.JStr?) && (a.JArray? <==> b.JArray?) && (a.JObject? <==> b.JObject?)
    ensures !a.JArray? && !a.JObject? && a == b ==> PyEq(a, b)
  {
    match a
    case JNull => b.JNull?
    case JBool(x) => (b.JBool? && b.b == x) || (b.JInt? && b.i == BoolAsInt(x))
    case JInt(x) => (b.JInt? && b.i == x) || (b.JBool? && BoolAsInt(b.b) == x)
    case JStr(x) => b.JStr? && b.s == x
    case JArray(xs) =>
      b.JArray? && |xs| == |b.items| && forall i :: 0 <= i < |xs| ==> PyEq(xs[i], b.items[i])
    case JObject(xm) =>
      b.JObject? && xm.Keys == b.fields.Keys
      && forall k :: k in xm ==> k in b.fields && PyEq(xm[k], b.fields[k])
  }

  lemma {:induction false} PyEqReflexive(a: Json)
    ensures PyEq(a, a)
  {
    match a
    case JArray(xs) =>
      forall i | 0 <= i < |xs| ensures PyEq(xs[i], xs[i]) { PyEqReflexive(xs[i]); }
    case JObject(xm) =>
      forall k | k in xm ensures PyEq(xm[k], xm[k]) { PyEqReflexive(xm[k]); }
    case _ =>
  }

  lemma {:induction false} PyEqSymmetric(a: Json, b: Json)
    requires PyEq(a, b)
    ensures PyEq(b, a)
  {
    match a
    case JArray(xs) =>
      forall i | 0 <= i < |xs| ensures PyEq(b.items[i], xs[i]) { PyEqSymmetric(xs[i], b.items[i]); }
    case JObject(xm) =>
      forall k | k in b.fields ensures k in xm && PyEq(b.fields[k], xm[k]) {
        PyEqSymmetric(xm[k], b.fields[k]);
      }
    case _ =>
  }

  lemma {:induction false} PyEqTransitive(a: Json, b: Json, c: Json)
    requires PyEq(a, b) && PyEq(b, c)
    ensures PyEq(a, c)
  {
    match a
    case JArray(xs) =>
      forall i | 0 <= i < |xs| ensures PyEq(xs[i], c.items[i]) {
        PyEqTransitive(xs[i], b.items[i], c.items[i]);
      }
    case JObject(xm) =>
      forall k | k in xm ensures k in c.fields && PyEq(xm[k], c.fields[k]) {
        PyEqTransitive(xm[k], b.fields[k], c.fields[k]);
      }
    case _ =>
  }
}
