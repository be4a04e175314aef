/** The offline download: which manifest keys are fetched when the page asks
    for the whole application to be made available offline. */
module Offline {
  import opened Storage
  import opened Keys

  /** The keys the content cache already covers, recovered from its URLs as
      activation recovers them. */
  function CachedKeys(origin: string, urls: set<Url>): (keys: set<string>)
    ensures "" !in keys
    ensures forall u :: u in urls ==> ActivationKey(origin, u) in keys
    ensures forall k :: k != "" && RequestUrl(origin, k) in urls ==> k in keys
    ensures forall k :: k in keys ==> exists u :: u in urls && ActivationKey(origin, u) == k
  {
    var keys := set u | u in urls :: ActivationKey(origin, u);
    assert forall k :: k != "" && RequestUrl(origin, k) in urls ==> k in keys by {
      forall k | k != "" && RequestUrl(origin, k) in urls ensures k in keys {
        ActivationKeyRoundTrip(origin, k);
      }
    }
    keys
  }

  /** The keys of `order` not in `present`, in `order`'s order. */
  function Missing(order: seq<string>, present: set<string>): (missing: seq<string>)
    ensures forall k :: k in missing <==> k in order && k !in present
    ensures |missing| <= |order|
  {
    if order == [] then []
    else
      var last := order[|order| - 1];
      Missing(order[..|order| - 1], present) + (if last in present then [] else [last])
  }

  predicate Distinct(s: seq<string>)
  {
    forall i, j :: 0 <= i < j < |s| ==> s[i] != s[j]
  }

  /** Each missing key is requested once when the manifest lists each key once. */
  lemma {:induction false} MissingIsDistinct(order: seq<string>, present: set<string>)
    requires Distinct(order)
    ensures Distinct(Missing(order, present))
  {
    if order != [] {
      var init := order[..|order| - 1];
      var last := order[|order| - 1];
      assert Distinct(init);
      MissingIsDistinct(init, present);
      assert last !in init;
    }
  }

  /** The two loops of the offline download: collect the keys the content
      cache covers into a dictionary, then list every manifest key, in
      manifest order, that the dictionary lacks. */
  method MissingResources(origin: string, cached: set<Url>, order: seq<string>) returns (resources: seq<string>)
    ensures resources == Missing(order, CachedKeys(origin, cached))
  {
    var current: set<string> := {};
    var todo := cached;
    while todo != {}
      invariant todo <= cached
      invariant current == CachedKeys(origin, cached - todo)
      decreases todo
    {
      var u :| u in todo;
      current := current + {ActivationKey(origin, u)};
      todo := todo - {u};
    }
    assert cached - todo == cached;
    resources := [];
    var i := 0;
    while i < |order|
      invariant i <= |order|
      invariant resources == Missing(order[..i], current)
    {
      assert order[..i + 1][..i] == order[..i];
      if order[i] !in current {
        resources := resources + [order[i]];
      }
      i := i + 1;
    }
    assert order[..i] == order;
  }

  /** A manifest key that no cached URL recovers to is requested. */
  lemma UncoveredKeyRequested(origin: string, cached: set<Url>, order: seq<string>, k: string)
    requires k in order
    requires forall u :: u in cached ==> ActivationKey(origin, u) != k
    ensures k in Missing(order, CachedKeys(origin, cached))
  {
  }

  /** Once the batch is stored, the content cache covers every manifest key. */
  lemma DownloadCoversManifest(origin: string, cache: Cache, order: seq<string>, batch: Cache)
    requires forall k :: k in order ==> k != ""
    requires batch.Keys == set u | u in RequestUrls(origin, Missing(order, CachedKeys(origin, cache.Keys)))
    ensures forall k :: k in order ==> k in CachedKeys(origin, (cache + batch).Keys)
  {
    var present := CachedKeys(origin, cache.Keys);
    var missing := Missing(order, present);
    var urls := RequestUrls(origin, missing);
    var after := (cache + batch).Keys;
    forall k | k in order ensures k in CachedKeys(origin, after) {
      if k in present {
        var u :| u in cache && ActivationKey(origin, u) == k;
        assert u in after;
      } else {
        var i :| 0 <= i < |missing| && missing[i] == k;
        assert urls[i] == RequestUrl(origin, k) && urls[i] in after;
      }
    }
  }

  /** No URL the content cache already holds is among those the offline
      download requests, when every manifest key is non-empty: what it adds
      never overwrites an existing entry. */
  lemma DownloadSkipsCached(origin: string, cached: set<Url>, order: seq<string>)
    requires forall k :: k in order ==> k != ""
    ensures forall u :: u in cached ==>
              u !in RequestUrls(origin, Missing(order, CachedKeys(origin, cached)))
  {
    var missing := Missing(order, CachedKeys(origin, cached));
    var urls := RequestUrls(origin, missing);
    forall u, i | u in cached && 0 <= i < |urls| ensures urls[i] != u {
      assert missing[i] in missing;
      ActivationKeyRoundTrip(origin, missing[i]);
      assert ActivationKey(origin, urls[i]) !in CachedKeys(origin, cached);
      assert ActivationKey(origin, u) in CachedKeys(origin, cached);
    }
  }
}
