/** `get_cache_key`: the digest a validated request is cached under. */
module CacheKey {

  import opened Json
  import opened Prims
  import Utf8

  /** The text that is hashed: `f"{app_name}:{json.dumps(request, sort_keys=True)}"`. */
  function KeyText(p: Prims, request: Entries, appName: string): string {
    appName + ":" + p.dumpsSorted(Canon(JObj(request)))
  }

  /**
   * The key of a request: the SHA-256 hex digest of the UTF-8 bytes of
   * KeyText. It is a function of the app name and the request dict alone;
   * the session id is not an argument.
   */
  function Key(p: Prims, request: Entries, appName: string): string {
    p.sha256Hex(Utf8.Encode(KeyText(p, request, appName)))
  }

  /** Reordering the entries of the request dict does not change the key. */
  lemma KeyIgnoresOrder(p: Prims, request1: Entries, request2: Entries, appName: string)
    requires DistinctKeys(request1) && DistinctKeys(request2)
    requires multiset(request1) == multiset(request2)
    ensures Key(p, request1, appName) == Key(p, request2, appName)
  {
    CanonReorder(request1, request2);
  }

  /** The position of the first ':' in `t`, or |t|. */
  function ColonAt(t: string): (i: nat)
    ensures i <= |t|
  {
    if t == [] || t[0] == ':' then 0 else 1 + ColonAt(t[1..])
  }

  lemma {:induction false} ColonAtPrefix(a: string, d: string)
    requires ':' !in a
    ensures ColonAt(a + ":" + d) == |a|
  {
    if a != [] {
      assert (a + ":" + d)[1..] == a[1..] + ":" + d;
      ColonAtPrefix(a[1..], d);
    }
  }

  /**
   * The hashed text separates the app name from the serialised request: when
   * neither app name holds ':' (as no validated one does), equal texts mean
   * the same app and the same serialised request. Two requests can therefore
   * share a key only through a SHA-256 collision.
   */
  lemma KeyTextInjective(p: Prims, request1: Entries, app1: string, request2: Entries, app2: string)
    requires ':' !in app1 && ':' !in app2
    requires KeyText(p, request1, app1) == KeyText(p, request2, app2)
    ensures app1 == app2
    ensures p.dumpsSorted(Canon(JObj(request1))) == p.dumpsSorted(Canon(JObj(request2)))
  {
    var d1, d2 := p.dumpsSorted(Canon(JObj(request1))), p.dumpsSorted(Canon(JObj(request2)));
    var t := KeyText(p, request1, app1);
    ColonAtPrefix(app1, d1);
    ColonAtPrefix(app2, d2);
    assert app1 == t[..|app1|] == app2;
    assert d1 == t[|app1| + 1..] == d2;
  }
}
