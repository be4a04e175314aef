/** Worked cases of the lifecycle, stated for an arbitrary origin. */
module Scenarios {
  import opened Storage
  import opened Keys
  import opened Reconciliation
  import opened Router

  /** An upgrade from manifest {a: h1, b: h2} to {a: h1, b: h3, c: h4} with
      the core key c staged in temp: activation keeps the entry for a
      untouched, deletes the one for b and installs c's; the next GET for b
      is routed cache-first, misses, and goes to the network. */
  lemma UpgradeExample(origin: string, a: string, b: string, c: string,
                                          h1: string, h2: string, h3: string, h4: string,
                                          ra: Response, rb: Response, rc: Response, net: Network)
    requires PlainKey(a) && PlainKey(b) && PlainKey(c) && b != ROOT
    requires a != b && b != c && a != c
    requires h1 != "" && h3 != "" && h4 != "" && h2 != h3
    ensures var ua, ub, uc := RequestUrl(origin, a), RequestUrl(origin, b), RequestUrl(origin, c);
            var resources := map[a := h1, b := h3, c := h4];
            var after := Activated(map[ua := ra, ub := rb], map[uc := rc], Some(map[a := h1, b := h2]), resources, origin);
            && after == map[ua := ra, uc := rc]
            && RouteOf(Request("GET", ub), origin, resources) == CacheFirst
            && CacheFirstPlan(Lookup(after, ub), net, ub).fetched
  {
    UpgradeKeepsUnchanged(origin, a, b, c, h1, h2, h3, h4, ra, rb, rc);
    ListedKeysAreServed(map[a := h1, b := h3, c := h4], origin, b, "");
  }

  lemma UpgradeKeepsUnchanged(origin: string, a: string, b: string, c: string,
                                                 h1: string, h2: string, h3: string, h4: string,
                                                 ra: Response, rb: Response, rc: Response)
    requires a != "" && b != "" && c != ""
    requires a != b && b != c && a != c
    requires h1 != "" && h2 != h3
    ensures var ua, ub, uc := RequestUrl(origin, a), RequestUrl(origin, b), RequestUrl(origin, c);
            && Activated(map[ua := ra, ub := rb], map[uc := rc], Some(map[a := h1, b := h2]),
                         map[a := h1, b := h3, c := h4], origin) == map[ua := ra, uc := rc]
            && ub != uc
  {
    ActivationKeyRoundTrip(origin, a);
    ActivationKeyRoundTrip(origin, b);
    ActivationKeyRoundTrip(origin, c);
    UpgradeByKeys(origin, RequestUrl(origin, a), RequestUrl(origin, b), RequestUrl(origin, c),
                  a, b, c, h1, h2, h3, h4, ra, rb, rc);
  }

  /** The same upgrade for any three cached URLs with those recovered keys. */
  lemma UpgradeByKeys(origin: string, ua: Url, ub: Url, uc: Url, a: string, b: string, c: string,
                      h1: string, h2: string, h3: string, h4: string,
                      ra: Response, rb: Response, rc: Response)
    requires ActivationKey(origin, ua) == a && ActivationKey(origin, ub) == b && ActivationKey(origin, uc) == c
    requires a != b && b != c && a != c
    requires h1 != "" && h2 != h3
    ensures Activated(map[ua := ra, ub := rb], map[uc := rc], Some(map[a := h1, b := h2]),
                      map[a := h1, b := h3, c := h4], origin) == map[ua := ra, uc := rc]
    ensures ub != uc
  {
    assert ua != ub && ub != uc && ua != uc;
    var previous, resources := map[a := h1, b := h2], map[a := h1, b := h3, c := h4];
    ChangedFingerprintIsStale(a, b, c, h1, h2, h3, h4);
    KeepsOnlyUnchanged(origin, ua, ub, ra, rb, previous, resources);
    var kept := Retained(map[ua := ra, ub := rb], previous, resources, origin);
    assert Activated(map[ua := ra, ub := rb], map[uc := rc], Some(previous), resources, origin)
        == kept + map[uc := rc];
    assert kept + map[uc := rc] == map[ua := ra, uc := rc];
  }

  /** In that upgrade a keeps its fingerprint and b changes it. */
  lemma ChangedFingerprintIsStale(a: string, b: string, c: string, h1: string, h2: string, h3: string, h4: string)
    requires a != b && b != c && a != c
    requires h1 != "" && h2 != h3
    ensures !Stale(map[a := h1, b := h2], map[a := h1, b := h3, c := h4], a)
    ensures Stale(map[a := h1, b := h2], map[a := h1, b := h3, c := h4], b)
  {
  }

  /** Of two cached entries, an upgrade keeps exactly the one whose key is
      not stale. */
  lemma KeepsOnlyUnchanged(origin: string, ua: Url, ub: Url, ra: Response, rb: Response,
                           previous: Manifest, resources: Manifest)
    requires !Stale(previous, resources, ActivationKey(origin, ua))
    requires Stale(previous, resources, ActivationKey(origin, ub))
    ensures Retained(map[ua := ra, ub := rb], previous, resources, origin) == map[ua := ra]
  {
    var kept := Retained(map[ua := ra, ub := rb], previous, resources, origin);
    assert kept.Keys == {ua};
  }

  /** The fetch handler drops `origin.length + 1` characters without checking
      that the URL starts with the origin: a GET for a listed key under any
      other origin of the same length is intercepted and served cache-first. */
  lemma SameLengthOriginIntercepted(resources: Manifest, origin: string, other: string, key: string)
    requires |other| == |origin| && other != origin
    requires PlainKey(key) && key != ROOT && Managed(resources, key)
    ensures FetchKey(origin, RequestUrl(other, key)) == key
    ensures RouteOf(Request("GET", RequestUrl(other, key)), origin, resources) == CacheFirst
  {
    var url := RequestUrl(other, key);
    assert url == other + "/" + key;
    assert Tail(origin, url) == key by {
      assert url[|origin| + 1..] == key;
    }
    assert url != origin;
    assert url[..|origin|] == other;
    assert !StartsWith(url, origin + "/#") by {
      if |origin + "/#"| <= |url| {
        assert url[..|origin + "/#"|][..|origin|] == other;
        assert (origin + "/#")[..|origin|] == origin;
      }
    }
    assert IndexOf(key, VERSION_MARKER) == -1;
  }
}
