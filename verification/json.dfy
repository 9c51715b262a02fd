/**
 * Decoded JSON values, as `json.loads` returns them, and the equality that
 * Python's `==` / `!=` applies to them.
 */
module PyJson {

  /** A decoded JSON document. `JNull` is Python's `None`. Floats are exact reals. */
  datatype Json =
    | JNull
    | JBool(b: bool)
    | JInt(i: int)
    | JFloat(f: real)
    | JString(s: string)
    | JArray(items: seq<Json>)
    | JObject(fields: map<string, Json>)

  /** Python treats `bool`, `int` and `float` as one numeric tower. */
  predicate IsNumber(j: Json)
  {
    j.JBool? || j.JInt? || j.JFloat?
  }

  /** The numeric value Python compares: `True == 1`, `False == 0`, `1 == 1.0`. */
  function Num(j: Json): (r: real)
    requires IsNumber(j)
  {
    match j
    case JBool(b) => if b then 1.0 else 0.0
    case JInt(i) => i as real
    case JFloat(f) => f
  }

  /** The kinds of value Python's `==` keeps apart; bool, int and float are one kind. */
  function Kind(j: Json): (k: nat)
  {
    match j
    case JNull => 0
    case JBool(_) => 1
    case JInt(_) => 1
    case JFloat(_) => 1
    case JString(_) => 2
    case JArray(_) => 3
    case JObject(_) => 4
  }

  /**
   * Python's `a == b` on decoded JSON: numbers compare by value across bool, int
   * and float; lists compare element-wise in order; dicts compare by key set and
   * value, regardless of insertion order; anything else only to its own kind.
   */
  predicate PyEq(a: Json, b: Json)
    ensures PyEq(a, b) ==> Kind(a) == Kind(b)
    ensures IsNumber(a) && IsNumber(b) ==> (PyEq(a, b) <==> Num(a) == Num(b))
    ensures a.JString? && b.JString? ==> (PyEq(a, b) <==> a.s == b.s)
    ensures a.JArray? && PyEq(a, b) ==> |a.items| == |b.items|
    ensures a.JObject? && PyEq(a, b) ==> a.fields.Keys == b.fields.Keys
  {
    if IsNumber(a) || IsNumber(b) then
      IsNumber(a) && IsNumber(b) && Num(a) == Num(b)
    else
      match a
      case JNull => b.JNull?
      case JString(s) => b.JString? && b.s == s
      case JArray(xs) =>
        b.JArray? && |xs| == |b.items| && forall i :: 0 <= i < |xs| ==> PyEq(xs[i], b.items[i])
      case JObject(m) =>
        b.JObject? && m.Keys == b.fields.Keys && forall k :: k in m ==> PyEq(m[k], b.fields[k])
      case _ => false
  }

  /** Every decoded value is `==` to itself (no NaN is representable here). */
  lemma {:induction false} PyEqReflexive(a: Json)
    ensures PyEq(a, a)
  {
    match a
    case JArray(xs) =>
      forall i | 0 <= i < |xs| ensures PyEq(xs[i], xs[i]) {
        PyEqReflexive(xs[i]);
      }
    case JObject(m) =>
      forall k | k in m ensures PyEq(m[k], m[k]) {
        PyEqReflexive(m[k]);
      }
    case _ =>
  }

  /** `a == b` and `b == a` agree, so `old_value != value` does not depend on operand order. */
  lemma {:induction false} PyEqSymmetric(a: Json, b: Json)
    ensures PyEq(a, b) <==> PyEq(b, a)
  {
    if !IsNumber(a) && !IsNumber(b) {
      match a
      case JArray(xs) =>
        if b.JArray? && |xs| == |b.items| {
          forall i | 0 <= i < |xs| ensures PyEq(xs[i], b.items[i]) <==> PyEq(b.items[i], xs[i]) {
            PyEqSymmetric(xs[i], b.items[i]);
          }
        }
      case JObject(m) =>
        if b.JObject? && m.Keys == b.fields.Keys {
          forall k | k in m ensures PyEq(m[k], b.fields[k]) <==> PyEq(b.fields[k], m[k]) {
            PyEqSymmetric(m[k], b.fields[k]);
          }
        }
      case _ =>
    }
  }

  /**
   * Worked example, not a property: `==` is coarser than equality of decoded
   * values, `True == 1 == 1.0`.
   */
  lemma TrueEqualsOne()
    ensures PyEq(JBool(true), JInt(1)) && JBool(true) != JInt(1)
    ensures PyEq(JInt(1), JFloat(1.0)) && JInt(1) != JFloat(1.0)
    ensures !PyEq(JNull, JBool(false)) && !PyEq(JString("1"), JInt(1))
  {
  }
}
