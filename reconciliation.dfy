/** The decision activation makes about the content cache: which entries an
    upgrade keeps, and what the content cache holds once activation has run. */
module Reconciliation {
  import opened Storage
  import opened Keys

  /** The test activation applies to a content entry whose recovered key is
      `key`: delete it when the new manifest does not list it (or lists it
      with a falsy fingerprint) or lists it with a fingerprint different from
      the previous manifest's, a key missing there counting as different. */
  predicate Stale(previous: Manifest, resources: Manifest, key: string)
    ensures !Stale(previous, resources, key) <==>
              && key in resources && key in previous
              && resources[key] != "" && resources[key] == previous[key]
  {
    !Managed(resources, key) || Lookup(resources, key) != Lookup(previous, key)
  }

  /** The content entries an upgrade keeps. */
  function Retained(content: Cache, previous: Manifest, resources: Manifest, origin: string): (kept: Cache)
    ensures forall u :: u in kept <==>
              && u in content
              && ActivationKey(origin, u) in resources
              && ActivationKey(origin, u) in previous
              && resources[ActivationKey(origin, u)] != ""
              && resources[ActivationKey(origin, u)] == previous[ActivationKey(origin, u)]
    ensures forall u :: u in kept ==> kept[u] == content[u]
  {
    map u | u in content && !Stale(previous, resources, ActivationKey(origin, u)) :: content[u]
  }

  /** The content URLs an upgrade deletes: exactly those it does not keep. */
  function StaleUrls(content: Cache, previous: Manifest, resources: Manifest, origin: string): (stale: set<Url>)
    ensures stale == content.Keys - Retained(content, previous, resources, origin).Keys
  {
    set u | u in content && Stale(previous, resources, ActivationKey(origin, u))
  }

  /** Content part-way through the upgrade loop: the stale entries outside
      `todo` are deleted, the rest are as they were. */
  function PartlyPruned(start: Cache, todo: set<Url>, previous: Manifest, resources: Manifest, origin: string): Cache
  {
    map u | u in start && (u in todo || !Stale(previous, resources, ActivationKey(origin, u))) :: start[u]
  }

  /** The stale URLs the upgrade loop has still to delete. */
  function StaleAmong(todo: set<Url>, previous: Manifest, resources: Manifest, origin: string): set<Url>
  {
    set u | u in todo && Stale(previous, resources, ActivationKey(origin, u))
  }

  lemma PruneBounds(start: Cache, previous: Manifest, resources: Manifest, origin: string)
    ensures PartlyPruned(start, start.Keys, previous, resources, origin) == start
    ensures PartlyPruned(start, {}, previous, resources, origin) == Retained(start, previous, resources, origin)
    ensures StaleAmong(start.Keys, previous, resources, origin) == StaleUrls(start, previous, resources, origin)
    ensures StaleAmong({}, previous, resources, origin) == {}
  {
  }

  /** One iteration of the upgrade loop: settle the entry at `u`. */
  lemma PruneStep(start: Cache, todo: set<Url>, u: Url, previous: Manifest, resources: Manifest, origin: string)
    requires u in todo
    ensures var stale := Stale(previous, resources, ActivationKey(origin, u));
            var before := PartlyPruned(start, todo, previous, resources, origin);
            var pending := StaleAmong(todo, previous, resources, origin);
            && PartlyPruned(start, todo - {u}, previous, resources, origin) == (if stale then before - {u} else before)
            && StaleAmong(todo - {u}, previous, resources, origin) == (if stale then pending - {u} else pending)
            && (stale ==> u in pending)
  {
  }

  /** Content part-way through the copy loop: the temp entries outside
      `todo` have been put over the starting content. */
  function PartlyCopied(start: Cache, staged: Cache, todo: set<Url>): Cache
  {
    start + map u | u in staged && u !in todo :: staged[u]
  }

  lemma CopyBounds(start: Cache, staged: Cache)
    ensures PartlyCopied(start, staged, staged.Keys) == start
    ensures PartlyCopied(start, staged, {}) == start + staged
  {
    assert (map u | u in staged && u !in {} :: staged[u]) == staged;
  }

  /** One iteration of the copy loop: put the temp entry at `u`. */
  lemma CopyStep(start: Cache, staged: Cache, todo: set<Url>, u: Url)
    requires u in todo && u in staged
    ensures PartlyCopied(start, staged, todo - {u}) == PartlyCopied(start, staged, todo)[u := staged[u]]
  {
  }

  /** The content cache after a successful activation, given the content and
      temp caches as activation opened them and the stored previous manifest:
      without one, exactly temp; with one, the retained entries overridden by
      every temp entry. */
  function Activated(content: Cache, temp: Cache, previous: Option<Manifest>,
                     resources: Manifest, origin: string): Cache
  {
    if previous.None? then temp else Retained(content, previous.value, resources, origin) + temp
  }

  /** What the content cache holds after activation: without a previous
      manifest exactly temp; with one, every temp entry, and otherwise only
      entries that were cached before under a key that is not stale, each of
      which survives. */
  lemma ActivatedEntries(content: Cache, temp: Cache, previous: Option<Manifest>,
                         resources: Manifest, origin: string)
    ensures var after := Activated(content, temp, previous, resources, origin);
            && (previous.None? ==> after == temp)
            && (forall u :: u in temp ==> u in after && after[u] == temp[u])
            && (previous.Some? ==> forall u :: u in after && u !in temp ==>
                  && u in content && after[u] == content[u]
                  && !Stale(previous.value, resources, ActivationKey(origin, u)))
            && (previous.Some? ==> forall u :: u in content && !Stale(previous.value, resources, ActivationKey(origin, u)) ==>
                  u in after)
  {
  }

  /** Every entry of `c` sits under a URL whose recovered key the manifest lists. */
  predicate AllManaged(c: Cache, resources: Manifest, origin: string)
  {
    forall u :: u in c ==> Managed(resources, ActivationKey(origin, u))
  }

  /** Re-activating with the manifest already stored deletes exactly the
      entries whose recovered key the manifest does not list. */
  lemma SameManifestDropsOnlyUnmanaged(content: Cache, resources: Manifest, origin: string)
    ensures Retained(content, resources, resources, origin)
         == map u | u in content && Managed(resources, ActivationKey(origin, u)) :: content[u]
  {
    var kept := Retained(content, resources, resources, origin);
    var managed := map u | u in content && Managed(resources, ActivationKey(origin, u)) :: content[u];
    assert kept.Keys == managed.Keys;
  }

  /** Activation is idempotent: once it has run, running it again with the
      manifest it stored and an empty temp cache leaves content unchanged,
      provided temp held only entries for listed keys (as install stages). */
  lemma ReactivationIsIdempotent(content: Cache, temp: Cache, previous: Option<Manifest>,
                                                    resources: Manifest, origin: string)
    requires AllManaged(temp, resources, origin)
    ensures var once := Activated(content, temp, previous, resources, origin);
            Activated(once, map[], Some(resources), resources, origin) == once
  {
    var once := Activated(content, temp, previous, resources, origin);
    assert AllManaged(once, resources, origin);
    SameManifestDropsOnlyUnmanaged(once, resources, origin);
    var twice := Activated(once, map[], Some(resources), resources, origin);
    assert twice.Keys == once.Keys;
  }

  /** The temp cache install stages holds only entries activation recognises
      as listed keys. */
  lemma StagedEntriesAreManaged(staged: Cache, core: seq<string>,
                                                   resources: Manifest, origin: string)
    requires staged.Keys == set u | u in RequestUrls(origin, core)
    requires forall k :: k in core ==> k != "" && Managed(resources, k)
    ensures AllManaged(staged, resources, origin)
  {
    var urls := RequestUrls(origin, core);
    forall u | u in staged ensures Managed(resources, ActivationKey(origin, u)) {
      var i :| 0 <= i < |urls| && urls[i] == u;
      assert core[i] in core;
      ActivationKeyRoundTrip(origin, core[i]);
    }
  }

  /** An entry lazily cached under a cache-busting URL `key?v=...` is deleted
      by the next activation whatever the manifests say, because activation
      does not strip the marker; yet the fetch handler maps that URL to `key`. */
  lemma VersionedEntryPurged(content: Cache, previous: Manifest, resources: Manifest,
                                                origin: string, key: string, v: string)
    requires PlainKey(key) && key != ROOT
    requires forall k :: k in resources ==> !Contains(k, VERSION_MARKER)
    ensures FetchKey(origin, RequestUrl(origin, key) + VERSION_MARKER + v) == key
    ensures RequestUrl(origin, key) + VERSION_MARKER + v !in Retained(content, previous, resources, origin)
  {
    FetchKeyDropsVersion(origin, key, v);
    ActivationKeyKeepsVersion(origin, key, v);
  }
}
