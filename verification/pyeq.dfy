/**
 * Python's `==` on decoded JSON values, which `Currency.__eq__` applies to
 * each field. Booleans, integers and floats compare by numeric value
 * (`True == 1 == 1.0`), lists element-wise, and dicts by key: every key
 * bound on one side is bound on the other, to an equal value. A key's value
 * is its first binding, as `Get` reads it.
 */
module PyEquality {
  import opened Json

  predicate IsNumber(v: Json) {
    v.JBool? || v.JInt? || v.JFloat?
  }

  function NumVal(v: Json): real
    requires IsNumber(v)
  {
    match v
    case JBool(b) => if b then 1.0 else 0.0
    case JInt(i) => i as real
    case JFloat(r) => r
  }

  predicate PyEq(a: Json, b: Json)
    decreases a
  {
    if IsNumber(a) || IsNumber(b) then
      IsNumber(a) && IsNumber(b) && NumVal(a) == NumVal(b)
    else match a
      case JNull => b.JNull?
      case JStr(s) => b.JStr? && b.s == s
      case JArr(xs) =>
        && b.JArr?
        && |xs| == |b.items|
        && forall i :: 0 <= i < |xs| ==> PyEq(xs[i], b.items[i])
      case JObj(fa) =>
        && b.JObj?
        && (forall i :: 0 <= i < |fa| ==>
              var ja, jb := KeyIndex(fa, fa[i].0), KeyIndex(b.fields, fa[i].0);
              jb < |b.fields| && PyEq(fa[ja].1, b.fields[jb].1))
        && (forall j :: 0 <= j < |b.fields| ==>
              var ja, jb := KeyIndex(fa, b.fields[j].0), KeyIndex(b.fields, b.fields[j].0);
              ja < |fa| && PyEq(fa[ja].1, b.fields[jb].1))
  }

  lemma {:induction false} PyEqReflexive(a: Json)
    ensures PyEq(a, a)
    decreases a
  {
    match a
    case JArr(xs) =>
      forall i | 0 <= i < |xs| ensures PyEq(xs[i], xs[i]) {
        PyEqReflexive(xs[i]);
      }
    case JObj(fa) =>
      forall i | 0 <= i < |fa| ensures PyEq(fa[KeyIndex(fa, fa[i].0)].1, fa[KeyIndex(fa, fa[i].0)].1) {
        PyEqReflexive(fa[KeyIndex(fa, fa[i].0)].1);
      }
    case _ =>
  }

  lemma {:induction false} PyEqSymmetric(a: Json, b: Json)
    requires PyEq(a, b)
    ensures PyEq(b, a)
    decreases a
  {
    if !IsNumber(a) && !IsNumber(b) {
      match a
      case JArr(xs) =>
        forall i | 0 <= i < |xs| ensures PyEq(b.items[i], xs[i]) {
          PyEqSymmetric(xs[i], b.items[i]);
        }
      case JObj(fa) =>
        var fb := b.fields;
        forall j | 0 <= j < |fb|
          ensures PyEq(fb[KeyIndex(fb, fb[j].0)].1, fa[KeyIndex(fa, fb[j].0)].1)
        {
          PyEqSymmetric(fa[KeyIndex(fa, fb[j].0)].1, fb[KeyIndex(fb, fb[j].0)].1);
        }
        forall i | 0 <= i < |fa|
          ensures PyEq(fb[KeyIndex(fb, fa[i].0)].1, fa[KeyIndex(fa, fa[i].0)].1)
        {
          PyEqSymmetric(fa[KeyIndex(fa, fa[i].0)].1, fb[KeyIndex(fb, fa[i].0)].1);
        }
      case _ =>
    }
  }

  lemma {:induction false} PyEqTransitive(a: Json, b: Json, c: Json)
    requires PyEq(a, b) && PyEq(b, c)
    ensures PyEq(a, c)
    decreases a
  {
    if !IsNumber(a) && !IsNumber(b) && !IsNumber(c) {
      match a
      case JArr(xs) =>
        forall i | 0 <= i < |xs| ensures PyEq(xs[i], c.items[i]) {
          PyEqTransitive(xs[i], b.items[i], c.items[i]);
        }
      case JObj(fa) =>
        var fb, fc := b.fields, c.fields;
        forall i | 0 <= i < |fa|
          ensures KeyIndex(fc, fa[i].0) < |fc|
          ensures PyEq(fa[KeyIndex(fa, fa[i].0)].1, fc[KeyIndex(fc, fa[i].0)].1)
        {
          var k := fa[i].0;
          var jb := KeyIndex(fb, k);
          assert fb[jb].0 == k;
          PyEqTransitive(fa[KeyIndex(fa, k)].1, fb[jb].1, fc[KeyIndex(fc, k)].1);
        }
        forall j | 0 <= j < |fc|
          ensures KeyIndex(fa, fc[j].0) < |fa|
          ensures PyEq(fa[KeyIndex(fa, fc[j].0)].1, fc[KeyIndex(fc, fc[j].0)].1)
        {
          var k := fc[j].0;
          var jb := KeyIndex(fb, k);
          assert fb[jb].0 == k;
          PyEqTransitive(fa[KeyIndex(fa, k)].1, fb[jb].1, fc[KeyIndex(fc, k)].1);
        }
      case _ =>
    }
  }

  /** Python's `1 == 1.0` and `True == 1`: equality is not structural on numbers. */
  lemma NumericTower()
    ensures PyEq(JInt(1), JFloat(1.0))
    ensures PyEq(JBool(true), JInt(1))
    ensures !PyEq(JNull, JInt(0))
    ensures !PyEq(JStr("1"), JInt(1))
  {
  }
}
