/**
 * The values `json.loads` produces, with the two Python behaviours the
 * handler relies on: truthiness (`if x`, `x or y`) and `dict.get`.
 * A dict keeps its insertion order as a list of entries; a dict Python can
 * build has distinct keys (DistinctKeys).
 */
module Json {

  import opened Options

  type Entries = seq<(string, Json)>

  datatype Json =
    | JNull
    | JBool(b: bool)
    /** A JSON number without a fraction or exponent, which `json.loads` makes an `int`. */
    | JInt(i: int)
    /** Any other JSON number, a `float`. */
    | JFloat(f: real)
    | JStr(s: string)
    | JArr(items: seq<Json>)
    | JObj(entries: Entries)

  /** The same value with every dict turned into a key-to-value map, so that insertion order is gone. */
  datatype Canonical =
    | CNull
    | CBool(b: bool)
    | CInt(i: int)
    | CFloat(f: real)
    | CStr(s: string)
    | CArr(items: seq<Canonical>)
    | CObj(fields: map<string, Canonical>)

  /** Python's `bool(j)`: None, False, 0, 0.0, '', [] and {} are false. */
  predicate Truthy(j: Json) {
    match j
    case JNull => false
    case JBool(b) => b
    case JInt(i) => i != 0
    case JFloat(f) => f != 0.0
    case JStr(s) => s != ""
    case JArr(items) => items != []
    case JObj(es) => es != []
  }

  /** Python's `a or b`: `a` when it is truthy, otherwise `b`. */
  function Or(a: Json, b: Json): (r: Json)
    ensures Truthy(r) <==> Truthy(a) || Truthy(b)
    ensures Truthy(a) ==> r == a
    ensures !Truthy(a) ==> r == b
  {
    if Truthy(a) then a else b
  }

  predicate DistinctKeys(es: Entries) {
    forall i, j :: 0 <= i < j < |es| ==> es[i].0 != es[j].0
  }

  function Keys(es: Entries): set<string> {
    set i | 0 <= i < |es| :: es[i].0
  }

  /** The position of the entry for `k` (the last one, as a dict keeps the last value), or -1. */
  function Find(es: Entries, k: string): (r: int)
    ensures -1 <= r < |es|
    ensures r >= 0 ==> es[r].0 == k && forall j :: r < j < |es| ==> es[j].0 != k
    ensures r == -1 <==> k !in Keys(es)
  {
    if es == [] then -1
    else if es[|es| - 1].0 == k then |es| - 1
    else
      var r := Find(es[..|es| - 1], k);
      assert Keys(es) == Keys(es[..|es| - 1]) + {es[|es| - 1].0};
      r
  }

  /** `d.get(k, default)`. */
  function GetOr(es: Entries, k: string, default: Json): (r: Json)
    ensures k !in Keys(es) ==> r == default
    ensures k in Keys(es) ==> exists i :: 0 <= i < |es| && es[i] == (k, r)
  {
    var i := Find(es, k);
    if i < 0 then default else es[i].1
  }

  /** `d.get(k)`: None is `JNull`. */
  function Get(es: Entries, k: string): Json {
    GetOr(es, k, JNull)
  }

  /** In a dict with distinct keys, `get` finds exactly the entries present. */
  lemma GetOrDistinct(es: Entries, k: string, v: Json, default: Json)
    requires DistinctKeys(es)
    ensures (k, v) in es ==> GetOr(es, k, default) == v
  {
    if (k, v) in es {
      var i :| 0 <= i < |es| && es[i] == (k, v);
      var r := Find(es, k);
      assert r >= 0;
      assert r == i;
    }
  }

  /** The value with insertion order forgotten at every level. */
  function Canon(j: Json): Canonical
    decreases j, 1
  {
    match j
    case JNull => CNull
    case JBool(b) => CBool(b)
    case JInt(i) => CInt(i)
    case JFloat(f) => CFloat(f)
    case JStr(s) => CStr(s)
    case JArr(items) => CArr(CanonItems(items))
    case JObj(es) => CObj(map k | k in Keys(es) :: CanonAt(j, es, Find(es, k)))
  }

  function CanonAt(j: Json, es: Entries, i: int): Canonical
    requires j == JObj(es) && 0 <= i < |es|
    decreases j, 0
  {
    Canon(es[i].1)
  }

  function CanonItems(items: seq<Json>): (r: seq<Canonical>)
    ensures |r| == |items|
    decreases items
  {
    if items == [] then [] else [Canon(items[0])] + CanonItems(items[1..])
  }

  /**
   * An `int` and a `float` of the same value stay apart in the canonical
   * form, as `json.dumps` writes `1` for one and `1.0` for the other.
   */
  lemma IntAndFloatStayApart(i: int)
    ensures Canon(JInt(i)) != Canon(JFloat(i as real))
  {
  }

  /**
   * Two dicts with distinct keys that hold the same entries in a different
   * order have the same canonical form.
   */
  lemma {:induction false} CanonReorder(es1: Entries, es2: Entries)
    requires DistinctKeys(es1) && DistinctKeys(es2)
    requires multiset(es1) == multiset(es2)
    ensures Canon(JObj(es1)) == Canon(JObj(es2))
  {
    forall e | true ensures e in es1 <==> e in es2 {
      assert e in es1 <==> e in multiset(es1);
      assert e in es2 <==> e in multiset(es2);
    }
    assert Keys(es1) == Keys(es2) by {
      forall k | k in Keys(es1) ensures k in Keys(es2) {
        var i :| 0 <= i < |es1| && es1[i].0 == k;
        assert es1[i] in es2;
      }
      forall k | k in Keys(es2) ensures k in Keys(es1) {
        var i :| 0 <= i < |es2| && es2[i].0 == k;
        assert es2[i] in es1;
      }
    }
    forall k | k in Keys(es1)
      ensures CanonAt(JObj(es1), es1, Find(es1, k)) == CanonAt(JObj(es2), es2, Find(es2, k))
    {
      var i := Find(es1, k);
      assert es1[i] in es2;
      GetOrDistinct(es2, k, es1[i].1, JNull);
    }
  }
}
