/**
 * Raw API payloads as a JSON value tree.
 *
 * Numbers keep the integer/float distinction that Python's JSON decoder
 * makes, so that coercions such as "price fields become floats" are
 * observable. Objects are association lists; a well-formed payload has
 * unique keys (it came from a Python dict), and lookup returns the first
 * binding of a key.
 */
module Json {

  datatype Json =
    | JNull
    | JBool(b: bool)
    | JInt(i: int)
    | JFloat(r: real)
    | JStr(s: string)
    | JArr(items: seq<Json>)
    | JObj(fields: seq<(string, Json)>)

  /** A string-keyed mapping: the shape every `from_api_data` receives. */
  type Payload = seq<(string, Json)>

  /** The keys of a mapping, in order. */
  function Keys(data: Payload): (ks: seq<string>)
    ensures |ks| == |data|
    ensures forall i :: 0 <= i < |data| ==> ks[i] == data[i].0
  {
    seq(|data|, i requires 0 <= i < |data| => data[i].0)
  }

  /** Keys are pairwise distinct, as in a Python dict. */
  predicate UniqueKeys(data: Payload) {
    forall i, j :: 0 <= i < j < |data| ==> data[i].0 != data[j].0
  }

  /** `data.get(key)`: the bound value, or null (Python's `None`) when the key is missing. */
  function Get(data: Payload, key: string): Json
  {
    if |data| == 0 then JNull
    else if data[0].0 == key then data[0].1
    else Get(data[1..], key)
  }

  /** `Get` reads the first binding of the key, and null when there is none. */
  lemma {:induction false} GetIsFirstBinding(data: Payload, key: string)
    ensures Get(data, key) == (if KeyIndex(data, key) < |data| then data[KeyIndex(data, key)].1 else JNull)
  {
    if |data| > 0 && data[0].0 != key {
      GetIsFirstBinding(data[1..], key);
    }
  }

  /** One step of lookup in a mapping that starts with a known binding. */
  lemma GetCons(k: string, v: Json, rest: Payload, key: string)
    ensures Get([(k, v)] + rest, key) == if k == key then v else Get(rest, key)
  {
    assert ([(k, v)] + rest)[1..] == rest;
  }

  /** Position of the first binding of `key`, or `|data|` when it is unbound. */
  function KeyIndex(data: Payload, key: string): (r: nat)
    ensures r <= |data|
    ensures r < |data| <==> key in Keys(data)
    ensures r < |data| ==> data[r].0 == key
    ensures forall j :: 0 <= j < r ==> data[j].0 != key
  {
    if |data| == 0 then 0
    else if data[0].0 == key then 0
    else 1 + KeyIndex(data[1..], key)
  }

  /** Python truthiness (`not value` is false) of a JSON value. */
  predicate Truthy(v: Json) {
    match v
    case JNull => false
    case JBool(b) => b
    case JInt(i) => i != 0
    case JFloat(r) => r != 0.0
    case JStr(s) => |s| > 0
    case JArr(items) => |items| > 0
    case JObj(fields) => |fields| > 0
  }

  /** In a mapping with unique keys, `Get` finds the value bound at any position. */
  lemma {:induction false} GetUnique(data: Payload, i: nat)
    requires UniqueKeys(data)
    requires i < |data|
    ensures Get(data, data[i].0) == data[i].1
  {
    if i > 0 {
      assert UniqueKeys(data[1..]) by {
        forall a, b | 0 <= a < b < |data[1..]|
          ensures data[1..][a].0 != data[1..][b].0
        {
          assert data[1..][a] == data[a + 1] && data[1..][b] == data[b + 1];
        }
      }
      assert data[0].0 != data[i].0;
      GetUnique(data[1..], i - 1);
      assert data[1..][i - 1] == data[i];
    }
  }
  /** Lookup in a concatenation reads the first part when it binds the key, and the second otherwise. */
  lemma {:induction false} GetAppend(a: Payload, b: Payload, key: string)
    ensures Get(a + b, key) == if key in Keys(a) then Get(a, key) else Get(b, key)
  {
    if |a| == 0 {
      assert a + b == b;
    } else {
      assert (a + b)[0] == a[0];
      assert (a + b)[1..] == a[1..] + b;
      GetAppend(a[1..], b, key);
      assert key in Keys(a) <==> key == a[0].0 || key in Keys(a[1..]) by {
        assert Keys(a) == [a[0].0] + Keys(a[1..]);
      }
    }
  }

  /** Bindings of other keys, inserted anywhere, do not change a lookup. */
  lemma GetSkip(before: Payload, extra: Payload, after: Payload, key: string)
    requires key !in Keys(extra)
    ensures Get(before + extra + after, key) == Get(before + after, key)
  {
    assert before + extra + after == before + (extra + after);
    GetAppend(before, extra + after, key);
    GetAppend(before, after, key);
    GetAppend(extra, after, key);
  }

  /**
   * In a mapping with unique keys, replacing the value bound at one
   * position changes the lookup of that key only.
   */
  lemma {:induction false} GetReplace(data: Payload, i: nat, v: Json, key: string)
    requires UniqueKeys(data)
    requires i < |data|
    ensures UniqueKeys(data[i := (data[i].0, v)])
    ensures Get(data[i := (data[i].0, v)], key) == if key == data[i].0 then v else Get(data, key)
  {
    var data' := data[i := (data[i].0, v)];
    assert Keys(data') == Keys(data);
    if i == 0 {
      assert data'[1..] == data[1..];
      if key != data[0].0 {
        assert Get(data', key) == Get(data'[1..], key);
      }
    } else {
      assert UniqueKeys(data[1..]) by {
        forall a, b | 0 <= a < b < |data[1..]|
          ensures data[1..][a].0 != data[1..][b].0
        {
          assert data[1..][a] == data[a + 1] && data[1..][b] == data[b + 1];
        }
      }
      assert data'[1..] == data[1..][i - 1 := (data[i].0, v)];
      assert data[1..][i - 1] == data[i];
      assert data[0].0 != data[i].0;
      GetReplace(data[1..], i - 1, v, key);
    }
  }
}
