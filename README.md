# Flutter web offline cache service worker, modelled in Dafny

This project models `docs/flutter_service_worker.js`, the service worker that
Flutter generates for a web build. The worker keeps three named caches:

- **content**: the application's resources, keyed by request URL;
- **temp**: the application shell (the `CORE` list) staged at install;
- **manifest**: one record, `manifest`, holding the `RESOURCES` map (resource key to content fingerprint) that the last activation saved.

It handles four events:

- **install**: fetch the whole core set into temp, all or nothing.
- **activate**: reconcile content against the previously saved manifest.
  - Without a saved manifest (cold start), the content cache is rebuilt from temp.
  - With one (upgrade), an entry is kept only when its fingerprint did not change.
  - Temp is then copied over content, and the new manifest is saved.
  - When any awaited cache operation throws, all three caches are deleted.
- **fetch**:
  - a non-GET request, or a request whose key is not listed, goes to the browser;
  - the root document is served online-first;
  - every other listed resource is served cache-first, and a successful network response is filled in lazily.
- **message**: `skipWaiting`, or `downloadOffline`, which fetches every listed resource the content cache lacks as one batch.

Modules:

- `Storage` (`storage.dfy`): responses, caches, manifests, the network as a function from URL to fetch result, and the all-or-nothing `Cache.addAll`.
- `Keys` (`keys.dfy`): the two key derivations.
  - Activation and the offline download use `url.substring(origin.length + 1)`, with the empty tail read as `/`.
  - The fetch handler also cuts at the first `?v=` and maps the bare origin and `origin/#…` to `/`.
  - Round-trip and `?v=` lemmas relate the two derivations.
- `Reconciliation` (`reconciliation.dfy`): which content entries an upgrade keeps, and the content cache after a successful activation, as functions with lemmas (idempotence, purge of versioned entries).
- `Router` (`router.dfy`): the route of a request, and what cache-first and online-first answer and write.
- `Offline` (`offline.dfy`): the keys the offline download requests, computed by the loops of the source and specified by a function.
- `ServiceWorker` (`worker.dfy`): class `Worker`.
  - Configuration: `RESOURCES` with its key order, `CORE`, the origin.
  - State: the three caches as mutable fields, plus flags recording `skipWaiting` and `clients.claim`.
  - One method per event.
  - Activation runs step by step, with a failure oracle `fault: Option<nat>` that picks which awaited operation throws.
- `Scenarios` (`scenarios.dfy`): a worked upgrade, and a property of the fetch handler's origin handling.

A cache that does not exist is `None`. `caches.open` turns it into an empty cache (`Opened`). JavaScript truthiness of `RESOURCES[key]` is modelled: a missing key and an empty fingerprint are both falsy (`Managed`).

## Model

| member | source | states |
|---|---|---|
| Storage.AddAll | docs/flutter_service_worker.js:85-86 | `addAll` yields a batch exactly when every URL fetches with an ok response; the batch holds exactly the requested URLs, each with the response fetched for it |
| Keys.IndexFrom | docs/flutter_service_worker.js:159 | the result is -1 or an occurrence of the pattern at or after `from`, with no earlier occurrence from `from` |
| Keys.IndexOf | docs/flutter_service_worker.js:159 | `indexOf` is -1 exactly when the pattern does not occur, else the first occurrence |
| Keys.ActivationKey | docs/flutter_service_worker.js:118-121 | the key activation recovers from a URL is never empty (the empty tail becomes `/`) |
| Keys.TailIsSuffix | docs/flutter_service_worker.js:157 | `substring(origin.length + 1)` is the suffix of the URL after `origin.length + 1` characters, and empty when the URL is shorter |
| Keys.FetchKey | docs/flutter_service_worker.js:156-164 | the fetch key is non-empty and holds no `?v=`; the bare origin, `origin/#…`, an empty tail and a tail starting with `?v=` all give `/`; for every other URL the key is the tail up to its first `?v=`, or the whole tail when it has none |
| Keys.RequestUrl | docs/flutter_service_worker.js:86 | `new Request(key)` is the origin, a `/`, then the key (nothing for the root key): the tail of the URL is the key |
| Keys.RequestUrls | docs/flutter_service_worker.js:86 | the URLs of a key list are in the same order, and activation recovers each non-empty key from its URL |
| Keys.RequestUrlsCover | docs/flutter_service_worker.js:86 | the URL of every listed key is among the requested URLs |
| Keys.NoFragmentPrefix | docs/flutter_service_worker.js:162 | the URL of a key not starting with `#` never counts as an `origin/#…` fragment of the root document |
| Keys.ActivationKeyRoundTrip | docs/flutter_service_worker.js:118-121 | activation recovers every non-empty key from the URL the worker stores it under |
| Keys.FetchKeyRoundTrip | docs/flutter_service_worker.js:156-164 | the fetch handler recovers every plain manifest key from its URL |
| Keys.MarkerNotStraddled | docs/flutter_service_worker.js:159-160 | a `?v=` appended to a key free of `?v=` creates no occurrence starting inside the key |
| Keys.FetchKeyDropsVersion | docs/flutter_service_worker.js:159-161 | `key?v=…` is looked up as `key` |
| Keys.ActivationKeyKeepsVersion | docs/flutter_service_worker.js:118 | activation's key for `key?v=…` keeps the marker and the version |
| Reconciliation.Stale | docs/flutter_service_worker.js:125 | an entry is kept exactly when its key is listed now and before, with a non-empty fingerprint equal in both; a key missing from either manifest, or with an empty fingerprint, is deleted |
| Reconciliation.Retained | docs/flutter_service_worker.js:117-128 | an upgrade keeps an entry exactly when its recovered key is listed now with a truthy fingerprint equal to the previous manifest's, and keeps its response unchanged |
| Reconciliation.StaleUrls | docs/flutter_service_worker.js:125-127 | the URLs the upgrade loop deletes are exactly the content URLs it does not keep |
| Reconciliation.ActivatedEntries | docs/flutter_service_worker.js:101-134 | after activation, without a previous manifest content is exactly temp; with one, every temp entry is present with its temp response, any other entry was cached before under a key that is not stale and keeps its response, and every such entry survives |
| Reconciliation.SameManifestDropsOnlyUnmanaged | docs/flutter_service_worker.js:125 | with the previous manifest equal to the new one, exactly the entries with unlisted or falsy keys are deleted |
| Reconciliation.ReactivationIsIdempotent | docs/flutter_service_worker.js:115-137 | activating again with the saved manifest and an empty temp leaves content unchanged, when temp held only listed keys |
| Reconciliation.StagedEntriesAreManaged | docs/flutter_service_worker.js:84-86 | the entries install stages for a core set drawn from the manifest all have listed keys |
| Reconciliation.VersionedEntryPurged | docs/flutter_service_worker.js:118-127 | an entry lazily cached under `key?v=…` is deleted by every upgrade, though the fetch handler serves that URL as `key` |
| Router.RouteOf | docs/flutter_service_worker.js:153-173 | a request is answered exactly when it is a GET whose fetch key is listed with a truthy fingerprint; it is online-first exactly when that key is `/`; the bare origin and `origin/#…` go online-first when `/` is listed and to the browser otherwise |
| Router.CacheFirstPlan | docs/flutter_service_worker.js:174-187 | a cached response is returned with no fetch and no write; otherwise the fetch result is returned or its error rejected, and stored exactly when it is an ok response |
| Router.OnlineFirstPlan | docs/flutter_service_worker.js:223-241 | the network is always tried; any fetched response, ok or not, is returned and stored; on a network error the cached copy is returned, or the error rethrown, with no write |
| Router.ListedKeysAreServed | docs/flutter_service_worker.js:152-173 | a GET for a listed key's URL, with or without `?v=…`, is routed online-first for `/` and cache-first otherwise |
| Router.NotOkStoredOnlyOnline | docs/flutter_service_worker.js:180-181 | a non-ok response is never stored by lazy fill, but is stored by online-first |
| Offline.CachedKeys | docs/flutter_service_worker.js:207-213 | the recorded keys are exactly the recovered keys of the cached URLs: never empty, one for every cached URL and no other; every non-empty key whose own URL is cached is among them |
| Offline.UncoveredKeyRequested | docs/flutter_service_worker.js:207-218 | a manifest key that no cached URL recovers to is requested |
| Offline.Missing | docs/flutter_service_worker.js:214-218 | a key is requested exactly when the manifest lists it and the content cache does not cover it; never more keys than the manifest has |
| Offline.MissingIsDistinct | docs/flutter_service_worker.js:214-218 | each missing key is requested once |
| Offline.MissingResources | docs/flutter_service_worker.js:204-218 | the two loops compute exactly the missing keys, in manifest order |
| Offline.DownloadCoversManifest | docs/flutter_service_worker.js:203-220 | after a successful download, the content cache covers every manifest key |
| Offline.DownloadSkipsCached | docs/flutter_service_worker.js:207-219 | no URL already in the content cache is requested again |
| ServiceWorker.StoredManifest | docs/flutter_service_worker.js:98-101 | a previous manifest is found exactly when the manifest cache exists and holds the `manifest` record, and it is that record |
| ServiceWorker.SavedManifestReadBack | docs/flutter_service_worker.js:110 | the manifest an activation saves is the one the next activation finds |
| ServiceWorker.Worker.constructor | docs/flutter_service_worker.js:1-78 | a worker starts with its configuration over whatever caches a previous worker left |
| ServiceWorker.Worker.Install | docs/flutter_service_worker.js:81-89 | skip waiting, then the core batch is added to temp all or nothing; on success every core URL is staged; content and the manifest record are untouched |
| ServiceWorker.Worker.Activate | docs/flutter_service_worker.js:93-148 | activation succeeds exactly when no awaited operation throws; on success content is the reconciled cache, temp is gone, the manifest is saved and clients are claimed; the next activation will find the saved manifest; on failure all three caches are gone |
| ServiceWorker.Worker.Reconcile | docs/flutter_service_worker.js:95-140 | the `try` block completes exactly when the fault lies beyond its last operation, and then leaves the reconciled state |
| ServiceWorker.Worker.OpenCaches | docs/flutter_service_worker.js:96-99 | the first four operations open the three caches and look up the manifest, and complete exactly when none of them throws |
| ServiceWorker.Worker.ColdStart | docs/flutter_service_worker.js:101-108 | without a saved manifest, content is deleted, reopened and becomes exactly temp |
| ServiceWorker.Worker.Upgrade | docs/flutter_service_worker.js:115-134 | with a saved manifest, content becomes the retained entries overridden by temp |
| ServiceWorker.Worker.Finish | docs/flutter_service_worker.js:135-140 | temp is deleted, the manifest record holds the new manifest, clients are claimed |
| ServiceWorker.Worker.DropStale | docs/flutter_service_worker.js:117-128 | the upgrade loop deletes the stale entries one operation each, and leaves the retained cache |
| ServiceWorker.Worker.CopyTemp | docs/flutter_service_worker.js:131-134 | the copy loop puts every temp entry over content, two operations each |
| ServiceWorker.Worker.HandleFetch | docs/flutter_service_worker.js:152-188 | unrouted requests are left alone with content unchanged; routed ones answer and write as online-first or cache-first prescribe |
| ServiceWorker.Worker.FetchOnlineFirst | docs/flutter_service_worker.js:223-241 | answer and content follow online-first; a network error leaves content as it was |
| ServiceWorker.Worker.DownloadOffline | docs/flutter_service_worker.js:203-220 | the missing keys are requested once each, in manifest order, and added all or nothing; existing entries are kept and, on success, every manifest key is covered |
| ServiceWorker.Worker.OnMessage | docs/flutter_service_worker.js:189-200 | `skipWaiting` sets the flag; `downloadOffline` leaves content exactly as the offline download does, adding the batch for the missing keys or nothing; any other message changes nothing |
| Scenarios.UpgradeKeepsUnchanged | docs/flutter_service_worker.js:117-134 | upgrading from {a: h1, b: h2} to {a: h1, b: h3, c: h4} with c staged keeps a, deletes b and installs c |
| Scenarios.UpgradeByKeys | docs/flutter_service_worker.js:117-134 | the same upgrade for any three cached URLs whose recovered keys are a, b and c |
| Scenarios.UpgradeExample | docs/flutter_service_worker.js:117-187 | after that upgrade, a GET for b is routed cache-first, misses, and goes to the network |
| Scenarios.SameLengthOriginIntercepted | docs/flutter_service_worker.js:156-157 | the origin is not compared: a GET for a listed key under any other origin of the same length is served cache-first as that key |

## Left out

- Asynchrony and concurrency: each event runs to completion on its own. Interleaved events and the un-awaited `cache.put` of lazy fill and online-first are not modelled; the put is taken as done when the event ends.
- Failures outside activation's `try` block are not modelled: `caches.open` and `put` in install, fetch and the offline download never throw. The deletes of the `catch` block always succeed.
- The failure oracle of activation stands for any rejected promise. `console.error` is not modelled.
- `Cache.addAll` is modelled by its documented all-or-nothing effect, not by its internals. The `{'cache': 'reload'}` request option has no effect in the model.
- The manifest record is stored as the map itself: `JSON.stringify` and `manifest.json()` are taken to round-trip.
- URL resolution is simplified to concatenation: `new Request(key)` for a worker served at the origin root is `origin/` for `/`, and `origin/key` otherwise. `cache.match` compares URLs exactly.
- The concrete `RESOURCES` and `CORE` tables are configuration parameters of `Worker`. `ConfigValid` states what a generated table satisfies.
- ServiceWorker.Worker.DownloadOffline: keeping existing entries and covering every key are stated under `ConfigValid`. They depend on every key being non-empty and on the key order listing exactly the manifest keys.
- `origin` at line 208 is the worker's global origin, taken equal to `self.location.origin`.
- Properties that JavaScript objects inherit through their prototype chain are not modelled. `RESOURCES[key]` and `currentContent[key]` look up own keys only.
- The page side of messaging (`postMessage`, reloading after `skipWaiting`) is outside the worker.
