/** Values shared by the whole worker model: responses, named caches,
    manifests, and the network as seen by one event. */
module Storage {

  datatype Option<T> = None | Some(value: T)

  /** An absolute request URL. */
  type Url = string

  /** A response is opaque apart from the `ok` status flag the worker tests. */
  datatype Response = Response(ok: bool, body: string)

  /** One named cache: request URL to stored response. */
  type Cache = map<Url, Response>

  /** Resource key to content fingerprint (`RESOURCES`, or a stored previous manifest). */
  type Manifest = map<string, string>

  /** What one `fetch` yields: a rejected promise, or a response of any status. */
  datatype FetchResult = NetworkError(error: string) | Fetched(response: Response)

  /** The network oracle: what fetching each URL yields during one event. */
  type Network = Url -> FetchResult

  /** `caches.open(name)` hands back the named cache, creating it empty when absent. */
  function Opened<K, V>(c: Option<map<K, V>>): map<K, V>
  {
    if c.Some? then c.value else map[]
  }

  /** `obj[key]` on a dictionary: the value, or `undefined` as None. */
  function Lookup<K, V>(m: map<K, V>, k: K): Option<V>
  {
    if k in m then Some(m[k]) else None
  }

  /** JavaScript truthiness of `RESOURCES[key]`: an absent key and an empty
      fingerprint are both falsy. */
  predicate Managed(resources: Manifest, key: string)
  {
    key in resources && resources[key] != ""
  }

  /** A fetch that produced a response whose `ok` flag is set. */
  predicate SucceededOk(r: FetchResult)
  {
    r.Fetched? && r.response.ok
  }

  /** The effect `Cache.addAll(urls)` promises: fetch every URL; when all of
      them yield ok responses, the batch of entries to store, otherwise no
      entry at all (the promise rejects and the cache is left as it was). */
  function AddAll(urls: seq<Url>, net: Network): (batch: Option<Cache>)
    ensures batch.Some? <==> forall i :: 0 <= i < |urls| ==> SucceededOk(net(urls[i]))
    ensures batch.Some? ==> batch.value.Keys == set u | u in urls
    ensures batch.Some? ==> forall u :: u in batch.value ==> net(u) == Fetched(batch.value[u])
  {
    if urls == [] then Some(map[])
    else
      var rest := AddAll(urls[1..], net);
      var head := net(urls[0]);
      if SucceededOk(head) && rest.Some? then Some(rest.value[urls[0] := head.response])
      else None
  }
}
