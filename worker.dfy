/** The service worker itself: its configuration (`RESOURCES` with its key
    order, `CORE`, the origin) and the persistent named caches it manages,
    with one method per event it handles. */
module ServiceWorker {
  import opened Storage
  import opened Keys
  import opened Reconciliation
  import opened Router
  import opened Offline

  /** The record name under which the manifest-record cache keeps the manifest. */
  const MANIFEST_RECORD: string := "manifest"

  /** The two messages the worker understands. */
  const SKIP_WAITING: string := "skipWaiting"
  const DOWNLOAD_OFFLINE: string := "downloadOffline"

  /** The previous manifest, when the manifest-record cache holds one. */
  function StoredManifest(record: Option<map<string, Manifest>>): (previous: Option<Manifest>)
    ensures previous.Some? <==> record.Some? && MANIFEST_RECORD in record.value
    ensures previous.Some? ==> previous.value == record.value[MANIFEST_RECORD]
  {
    if record.Some? && MANIFEST_RECORD in record.value then Some(record.value[MANIFEST_RECORD]) else None
  }

  /** The manifest activation saves is the one the next activation reads. */
  lemma SavedManifestReadBack(record: Option<map<string, Manifest>>, m: Manifest)
    ensures StoredManifest(Some(Opened(record)[MANIFEST_RECORD := m])) == Some(m)
  {
  }

  /** Activation's failure oracle: `fault == Some(n)` makes the n-th awaited
      cache operation of the `try` block throw (counting from 0). */
  predicate Throws(fault: Option<nat>, step: nat)
  {
    fault.Some? && fault.value == step
  }

  /** How many awaited cache operations the `try` block of activation
      performs when none throws: three opens, the manifest lookup, then either
      delete-and-reopen of content or the manifest parse, the content key
      listing and one delete per stale entry; then the temp key listing, a
      match and a put per temp entry, the temp delete and the manifest put. */
  function ActivationSteps(content: Cache, temp: Cache, previous: Option<Manifest>,
                           resources: Manifest, origin: string): nat
  {
    9 + 2 * |temp| + (if previous.None? then 0 else |StaleUrls(content, previous.value, resources, origin)|)
  }

  /** Whether the failing operation, if any, is one numbered in [lo, hi). */
  predicate InRange(fault: Option<nat>, lo: nat, hi: nat)
  {
    fault.Some? && lo <= fault.value < hi
  }

  class Worker {
    const origin: string
    const resources: Manifest       // RESOURCES: key to fingerprint
    const resourceOrder: seq<string> // Object.keys(RESOURCES)
    const core: seq<string>          // CORE

    // The three named caches; None when the cache does not exist.
    var content: Option<Cache>
    var temp: Option<Cache>
    var manifestRecord: Option<map<string, Manifest>>

    // Runtime primitives the worker invokes, recorded as flags.
    var skippedWaiting: bool
    var clientsClaimed: bool

    /** What a generated worker's constants satisfy: the key order lists
        every manifest key once, keys are plain and fingerprints non-empty,
        and the core set is drawn from the manifest. */
    ghost predicate ConfigValid()
    {
      && Distinct(resourceOrder)
      && (forall k :: k in resourceOrder <==> k in resources)
      && (forall k :: k in resources ==> PlainKey(k) && resources[k] != "")
      && (forall k :: k in core ==> k in resources)
    }

    /** A worker generation starting over whatever storage a previous one left. */
    constructor (origin: string, resources: Manifest, resourceOrder: seq<string>, core: seq<string>,
                 content: Option<Cache>, temp: Option<Cache>, manifestRecord: Option<map<string, Manifest>>)
      ensures this.origin == origin && this.resources == resources
      ensures this.resourceOrder == resourceOrder && this.core == core
      ensures this.content == content && this.temp == temp && this.manifestRecord == manifestRecord
      ensures !skippedWaiting && !clientsClaimed
    {
      this.origin := origin;
      this.resources := resources;
      this.resourceOrder := resourceOrder;
      this.core := core;
      this.content := content;
      this.temp := temp;
      this.manifestRecord := manifestRecord;
      skippedWaiting := false;
      clientsClaimed := false;
    }

    /** The install event: skip waiting, open temp and `addAll` the core set
        into it, all or nothing. The content cache is never touched. */
    method Install(net: Network) returns (staged: bool)
      modifies this
      ensures var batch := AddAll(RequestUrls(origin, core), net);
              && staged == batch.Some?
              && temp == Some(if staged then Opened(old(temp)) + batch.value else Opened(old(temp)))
      ensures staged ==> forall k :: k in core ==> RequestUrl(origin, k) in temp.value
      ensures content == old(content) && manifestRecord == old(manifestRecord)
      ensures skippedWaiting && clientsClaimed == old(clientsClaimed)
    {
      skippedWaiting := true;
      var cache := Opened(temp);
      temp := Some(cache);
      var batch := AddAll(RequestUrls(origin, core), net);
      staged := batch.Some?;
      if staged {
        temp := Some(cache + batch.value);
        RequestUrlsCover(origin, core);
      }
    }

    /** The activate event: the reconciliation of the `try` block and, when
        any of its cache operations throws, the teardown of the `catch`
        block that deletes all three caches. */
    method Activate(fault: Option<nat>) returns (activated: bool)
      modifies this
      ensures activated ==>
                && content == Some(Activated(Opened(old(content)), Opened(old(temp)),
                                             StoredManifest(old(manifestRecord)), resources, origin))
                && temp == None
                && manifestRecord == Some(Opened(old(manifestRecord))[MANIFEST_RECORD := resources])
                && StoredManifest(manifestRecord) == Some(resources)
                && clientsClaimed
      ensures !activated ==>
                && content == None && temp == None && manifestRecord == None
                && clientsClaimed == old(clientsClaimed)
      ensures activated <==>
                fault.None? || fault.value >= ActivationSteps(Opened(old(content)), Opened(old(temp)),
                                                              StoredManifest(old(manifestRecord)), resources, origin)
      ensures skippedWaiting == old(skippedWaiting)
    {
      activated := Reconcile(fault);
      if !activated {
        content := None;
        temp := None;
        manifestRecord := None;
      }
    }

    /** The `try` block of activation. Each awaited cache operation may throw,
        which ends the block early with `completed` false. */
    method Reconcile(fault: Option<nat>) returns (completed: bool)
      modifies this
      ensures completed ==>
                && content == Some(Activated(Opened(old(content)), Opened(old(temp)),
                                             StoredManifest(old(manifestRecord)), resources, origin))
                && temp == None
                && manifestRecord == Some(Opened(old(manifestRecord))[MANIFEST_RECORD := resources])
                && clientsClaimed
      ensures !completed ==> clientsClaimed == old(clientsClaimed)
      ensures completed <==>
                fault.None? || fault.value >= ActivationSteps(Opened(old(content)), Opened(old(temp)),
                                                              StoredManifest(old(manifestRecord)), resources, origin)
      ensures skippedWaiting == old(skippedWaiting)
    {
      ghost var start, staged, previous := Opened(content), Opened(temp), StoredManifest(manifestRecord);
      completed := OpenCaches(fault);
      if !completed { return; }
      var step: nat;
      if StoredManifest(manifestRecord).None? {
        completed, step := ColdStart(fault);
      } else {
        completed, step := Upgrade(fault, StoredManifest(manifestRecord).value);
      }
      if !completed { return; }
      completed := Finish(fault, step);
    }

    /** Operations 0-3: open the three caches and look up the stored manifest. */
    method OpenCaches(fault: Option<nat>) returns (completed: bool)
      modifies this`content, this`temp, this`manifestRecord
      ensures completed <==> !InRange(fault, 0, 4)
      ensures completed ==>
                && content == Some(Opened(old(content)))
                && temp == Some(Opened(old(temp)))
                && manifestRecord == Some(Opened(old(manifestRecord)))
    {
      if Throws(fault, 0) { return false; }  // caches.open(CACHE_NAME)
      content := Some(Opened(content));
      if Throws(fault, 1) { return false; }  // caches.open(TEMP)
      temp := Some(Opened(temp));
      if Throws(fault, 2) { return false; }  // caches.open(MANIFEST)
      manifestRecord := Some(Opened(manifestRecord));
      if Throws(fault, 3) { return false; }  // manifestCache.match('manifest')
      completed := true;
    }

    /** Operations from 4 without a stored manifest: delete and reopen the
        content cache, then copy temp into it. */
    method ColdStart(fault: Option<nat>) returns (completed: bool, next: nat)
      requires content.Some? && temp.Some?
      modifies this`content
      ensures completed <==> !InRange(fault, 4, 7 + 2 * |temp.value|)
      ensures completed ==> content == Some(temp.value) && next == 7 + 2 * |temp.value|
    {
      if Throws(fault, 4) { return false, 4; }  // caches.delete(CACHE_NAME)
      content := None;
      if Throws(fault, 5) { return false, 5; }  // caches.open(CACHE_NAME)
      content := Some(map[]);
      completed, next := CopyTemp(fault, 6);
      assert map[] + temp.value == temp.value;
    }

    /** Operations from 4 with a stored manifest: parse it, delete the stale
        content entries, then copy temp into content. */
    method Upgrade(fault: Option<nat>, previous: Manifest) returns (completed: bool, next: nat)
      requires content.Some? && temp.Some?
      modifies this`content
      ensures content.Some?
      ensures var steps := 3 + |StaleUrls(old(content).value, previous, resources, origin)| + 2 * |temp.value|;
              && (completed <==> !InRange(fault, 4, 4 + steps))
              && (completed ==> next == 4 + steps)
      ensures completed ==> content.value == Retained(old(content).value, previous, resources, origin) + temp.value
    {
      if Throws(fault, 4) { return false, 4; }  // manifest.json()
      completed, next := DropStale(fault, 5, previous);
      if !completed { return; }
      completed, next := CopyTemp(fault, next);
    }

    /** The last two operations: delete temp and store the new manifest;
        then claim the clients. */
    method Finish(fault: Option<nat>, step: nat) returns (completed: bool)
      requires manifestRecord.Some?
      modifies this`temp, this`manifestRecord, this`clientsClaimed
      ensures completed <==> !InRange(fault, step, step + 2)
      ensures completed ==>
                && temp == None
                && manifestRecord == Some(old(manifestRecord).value[MANIFEST_RECORD := resources])
                && clientsClaimed
      ensures !completed ==> clientsClaimed == old(clientsClaimed)
    {
      if Throws(fault, step) { return false; }  // caches.delete(TEMP)
      temp := None;
      if Throws(fault, step + 1) { return false; }  // manifestCache.put('manifest', ...)
      manifestRecord := Some(manifestRecord.value[MANIFEST_RECORD := resources]);
      clientsClaimed := true;
      completed := true;
    }

    /** The upgrade loop: delete every content entry whose recovered key is
        stale against the previous manifest. */
    method DropStale(fault: Option<nat>, step: nat, previous: Manifest) returns (completed: bool, next: nat)
      requires content.Some?
      modifies this`content
      ensures content.Some?
      ensures completed ==> content.value == Retained(old(content).value, previous, resources, origin)
      ensures var steps := 1 + |StaleUrls(old(content).value, previous, resources, origin)|;
              && (completed <==> !(fault.Some? && step <= fault.value < step + steps))
              && (completed ==> next == step + steps)
    {
      if Throws(fault, step) { return false, step; }  // contentCache.keys()
      next := step + 1;
      var start := content.value;
      var todo := start.Keys;
      PruneBounds(start, previous, resources, origin);
      ghost var pending := StaleAmong(todo, previous, resources, origin);
      while todo != {}
        invariant todo <= start.Keys
        invariant content == Some(PartlyPruned(start, todo, previous, resources, origin))
        invariant pending == StaleAmong(todo, previous, resources, origin)
        invariant step < next && next + |pending| == step + 1 + |StaleUrls(start, previous, resources, origin)|
        invariant !(fault.Some? && step <= fault.value < next)
        decreases todo
      {
        var u :| u in todo;
        PruneStep(start, todo, u, previous, resources, origin);
        var stale := Stale(previous, resources, ActivationKey(origin, u));
        if stale {
          if Throws(fault, next) { return false, next; }  // contentCache.delete(request)
          next := next + 1;
          content := Some(content.value - {u});
          pending := pending - {u};
        }
        todo := todo - {u};
      }
      completed := true;
    }

    /** Copy every temp entry into content, overwriting entries with the same URL. */
    method CopyTemp(fault: Option<nat>, step: nat) returns (completed: bool, next: nat)
      requires content.Some? && temp.Some?
      modifies this`content
      ensures content.Some?
      ensures completed ==> content.value == old(content).value + temp.value
      ensures var steps := 1 + 2 * |temp.value|;
              && (completed <==> !(fault.Some? && step <= fault.value < step + steps))
              && (completed ==> next == step + steps)
    {
      if Throws(fault, step) { return false, step; }  // tempCache.keys()
      next := step + 1;
      var start := content.value;
      var staged := temp.value;
      var todo := staged.Keys;
      CopyBounds(start, staged);
      assert |todo| == |staged|;
      while todo != {}
        invariant todo <= staged.Keys
        invariant content == Some(PartlyCopied(start, staged, todo))
        invariant step < next && next + 2 * |todo| == step + 1 + 2 * |staged|
        invariant !(fault.Some? && step <= fault.value < next)
        decreases todo
      {
        var u :| u in todo;
        CopyStep(start, staged, todo, u);
        if Throws(fault, next) { return false, next; }  // tempCache.match(request)
        next := next + 1;
        var response := staged[u];
        if Throws(fault, next) { return false, next; }  // contentCache.put(request, response)
        next := next + 1;
        content := Some(content.value[u := response]);
        todo := todo - {u};
      }
      completed := true;
    }

    /** The fetch event: route the request, then serve it online-first or
        cache-first, or leave it to the browser. */
    method HandleFetch(request: Request, net: Network) returns (answer: Answer)
      modifies this`content
      ensures RouteOf(request, origin, resources) == PassThrough ==>
                answer == Unhandled && content == old(content)
      ensures RouteOf(request, origin, resources) != PassThrough ==>
                var cache := Opened(old(content));
                var cached := Lookup(cache, request.url);
                var plan := if RouteOf(request, origin, resources) == OnlineFirst
                            then OnlineFirstPlan(cached, net, request.url)
                            else CacheFirstPlan(cached, net, request.url);
                answer == plan.answer && content == Some(Stored(cache, request.url, plan.write))
    {
      var route := RouteOf(request, origin, resources);
      if route == PassThrough {
        return Unhandled;
      }
      if route == OnlineFirst {
        answer := FetchOnlineFirst(request, net);
        return;
      }
      var cache := Opened(content);
      content := Some(cache);
      var plan := CacheFirstPlan(Lookup(cache, request.url), net, request.url);
      content := Some(Stored(cache, request.url, plan.write));
      answer := plan.answer;
    }

    /** `onlineFirst`: fetch, store whatever came back and answer with it; on
        a network error answer with the cached copy, or rethrow the error. */
    method FetchOnlineFirst(request: Request, net: Network) returns (answer: Answer)
      modifies this`content
      ensures var cache := Opened(old(content));
              var plan := OnlineFirstPlan(Lookup(cache, request.url), net, request.url);
              answer == plan.answer && content == Some(Stored(cache, request.url, plan.write))
      ensures net(request.url).NetworkError? ==> content == Some(Opened(old(content)))
    {
      var cache := Opened(content);
      content := Some(cache);
      var plan := OnlineFirstPlan(Lookup(cache, request.url), net, request.url);
      content := Some(Stored(cache, request.url, plan.write));
      answer := plan.answer;
    }

    /** The content cache once the offline download of `cache` has run: the
        batch for the missing keys added, or `cache` unchanged when any fetch
        in the batch fails. */
    function DownloadResult(cache: Cache, net: Network): Cache
    {
      var batch := AddAll(RequestUrls(origin, Missing(resourceOrder, CachedKeys(origin, cache.Keys))), net);
      if batch.Some? then cache + batch.value else cache
    }

    /** `downloadOffline`: request every manifest key the content cache does
        not cover, in manifest order, as one `addAll` batch. */
    method DownloadOffline(net: Network) returns (requested: seq<string>, added: bool)
      modifies this`content
      ensures requested == Missing(resourceOrder, CachedKeys(origin, Opened(old(content)).Keys))
      ensures Distinct(resourceOrder) ==> Distinct(requested)
      ensures var batch := AddAll(RequestUrls(origin, requested), net);
              && added == batch.Some?
              && (added ==> content == Some(Opened(old(content)) + batch.value))
      ensures content == Some(DownloadResult(Opened(old(content)), net))
      ensures ConfigValid() ==> forall u :: u in Opened(old(content)) ==>
                u in content.value && content.value[u] == Opened(old(content))[u]
      ensures ConfigValid() && added ==> forall k :: k in resources ==> k in CachedKeys(origin, content.value.Keys)
    {
      var cache := Opened(content);
      content := Some(cache);
      requested := MissingResources(origin, cache.Keys, resourceOrder);
      if Distinct(resourceOrder) {
        MissingIsDistinct(resourceOrder, CachedKeys(origin, cache.Keys));
      }
      var batch := AddAll(RequestUrls(origin, requested), net);
      added := batch.Some?;
      if added {
        content := Some(cache + batch.value);
        if ConfigValid() {
          DownloadSkipsCached(origin, cache.Keys, resourceOrder);
          DownloadCoversManifest(origin, cache, resourceOrder, batch.value);
        }
      }
    }

    /** The message event: `skipWaiting` and `downloadOffline`; anything else
        is ignored. */
    method OnMessage(data: string, net: Network)
      modifies this
      ensures data == SKIP_WAITING ==> skippedWaiting && content == old(content)
      ensures data == DOWNLOAD_OFFLINE ==> content == Some(DownloadResult(Opened(old(content)), net))
      ensures data == DOWNLOAD_OFFLINE && ConfigValid() ==>
                forall u :: u in Opened(old(content)) ==>
                  u in content.value && content.value[u] == Opened(old(content))[u]
      ensures temp == old(temp) && manifestRecord == old(manifestRecord)
      ensures clientsClaimed == old(clientsClaimed)
      ensures data != SKIP_WAITING ==> skippedWaiting == old(skippedWaiting)
      ensures data != SKIP_WAITING && data != DOWNLOAD_OFFLINE ==> content == old(content)
    {
      assert |SKIP_WAITING| != |DOWNLOAD_OFFLINE|;
      if data == SKIP_WAITING {
        skippedWaiting := true;
        return;
      }
      if data == DOWNLOAD_OFFLINE {
        var _, _ := DownloadOffline(net);
        return;
      }
    }
  }
}
