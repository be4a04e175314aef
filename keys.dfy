/** How the worker turns a request URL into a resource key. Two different
    derivations exist: the fetch handler strips a `?v=` cache-busting suffix
    and folds the bare origin and `origin/#...` into the root key; activation
    and the offline download only drop the origin and map the empty key to
    the root key. */
module Keys {
  import opened Storage

  /** The root key under which the application's index document is listed. */
  const ROOT: string := "/"

  /** The cache-busting query marker cut off by the fetch handler. */
  const VERSION_MARKER: string := "?v="

  predicate OccursAt(s: string, pat: string, j: int)
  {
    0 <= j && j + |pat| <= |s| && s[j..j + |pat|] == pat
  }

  predicate Contains(s: string, pat: string)
  {
    exists j :: 0 <= j <= |s| && OccursAt(s, pat, j)
  }

  /** `s.startsWith(p)` */
  predicate StartsWith(s: string, p: string)
  {
    |p| <= |s| && s[..|p|] == p
  }

  predicate EndsWith(s: string, p: string)
  {
    |p| <= |s| && s[|s| - |p|..] == p
  }

  /** The first occurrence of `pat` in `s` at or after `from`, or -1. */
  function IndexFrom(s: string, pat: string, from: nat): (r: int)
    decreases |s| - from
    ensures r == -1 || (from <= r && OccursAt(s, pat, r))
    ensures forall j :: from <= j && (r == -1 || j < r) ==> !OccursAt(s, pat, j)
  {
    if from + |pat| > |s| then -1
    else if s[from..from + |pat|] == pat then from
    else IndexFrom(s, pat, from + 1)
  }

  /** `s.indexOf(pat)`: the first occurrence of `pat` in `s`, or -1. */
  function IndexOf(s: string, pat: string): (r: int)
    ensures r == -1 <==> !Contains(s, pat)
    ensures r != -1 ==> OccursAt(s, pat, r) && forall j :: 0 <= j < r ==> !OccursAt(s, pat, j)
  {
    IndexFrom(s, pat, 0)
  }

  /** `url.substring(origin.length + 1)`: what follows the origin and one
      separator character (empty when the URL is not that long). */
  function Tail(origin: string, url: Url): string
  {
    if |origin| + 1 <= |url| then url[|origin| + 1..] else ""
  }

  /** The tail is what is left of the URL after `origin.length + 1`
      characters, and empty for a shorter URL. */
  lemma TailIsSuffix(origin: string, url: Url)
    ensures |Tail(origin, url)| == if |origin| + 1 <= |url| then |url| - (|origin| + 1) else 0
    ensures EndsWith(url, Tail(origin, url))
  {
  }

  /** The key activation and the offline download recover from a cached
      request's URL: the tail, with the empty tail read as the root key. */
  function ActivationKey(origin: string, url: Url): (key: string)
    ensures key != ""
  {
    var tail := Tail(origin, url);
    if tail == "" then ROOT else tail
  }

  /** The key the fetch handler looks up in `RESOURCES` for a request URL. */
  function FetchKey(origin: string, url: Url): (key: string)
    ensures key != ""
    ensures !Contains(key, VERSION_MARKER)
    ensures url == origin || StartsWith(url, origin + "/#") ==> key == ROOT
    ensures Tail(origin, url) == "" || OccursAt(Tail(origin, url), VERSION_MARKER, 0) ==> key == ROOT
    ensures !(url == origin || StartsWith(url, origin + "/#") || Tail(origin, url) == ""
              || OccursAt(Tail(origin, url), VERSION_MARKER, 0)) ==>
              var tail := Tail(origin, url);
              && StartsWith(tail, key)
              && (forall j :: 0 <= j < |key| ==> !OccursAt(tail, VERSION_MARKER, j))
              && (key == tail || OccursAt(tail, VERSION_MARKER, |key|))
  {
    var tail := Tail(origin, url);
    var i := IndexOf(tail, VERSION_MARKER);
    var cut := if i == -1 then tail else tail[..i];
    assert !Contains(cut, VERSION_MARKER) by {
      if i != -1 {
        forall j | 0 <= j <= |cut| ensures !OccursAt(cut, VERSION_MARKER, j) {
          if j + 3 <= |cut| {
            assert cut == tail[..i] && j < i;
            assert cut[j..j + 3] == tail[j..j + 3];
            assert !OccursAt(tail, VERSION_MARKER, j);
          }
        }
      }
    }
    if url == origin || StartsWith(url, origin + "/#") || cut == "" then ROOT else cut
  }

  /** The absolute URL `new Request(key)` denotes for a worker served from the
      root of `origin`; the root key denotes `origin/`. */
  function RequestUrl(origin: string, key: string): (url: Url)
    ensures |origin| + 1 <= |url| && url[..|origin|] == origin && url[|origin|] == '/'
    ensures Tail(origin, url) == (if key == ROOT then "" else key)
  {
    var url := if key == ROOT then origin + "/" else origin + "/" + key;
    assert url[|origin| + 1..] == (if key == ROOT then "" else key);
    url
  }

  /** The request URLs of a list of keys, in order; activation recovers each
      non-empty key from its URL. */
  function RequestUrls(origin: string, keys: seq<string>): (urls: seq<Url>)
    ensures |urls| == |keys|
    ensures forall i :: 0 <= i < |keys| ==> urls[i] == RequestUrl(origin, keys[i])
    ensures forall i :: 0 <= i < |keys| && keys[i] != "" ==> ActivationKey(origin, urls[i]) == keys[i]
  {
    var urls := seq(|keys|, i requires 0 <= i < |keys| => RequestUrl(origin, keys[i]));
    assert forall i :: 0 <= i < |keys| && keys[i] != "" ==> ActivationKey(origin, urls[i]) == keys[i] by {
      forall i | 0 <= i < |keys| && keys[i] != "" ensures ActivationKey(origin, urls[i]) == keys[i] {
        ActivationKeyRoundTrip(origin, keys[i]);
      }
    }
    urls
  }

  lemma RequestUrlsCover(origin: string, keys: seq<string>)
    ensures forall k :: k in keys ==> RequestUrl(origin, k) in RequestUrls(origin, keys)
  {
    forall k | k in keys ensures RequestUrl(origin, k) in RequestUrls(origin, keys) {
      var i :| 0 <= i < |keys| && keys[i] == k;
      assert RequestUrls(origin, keys)[i] == RequestUrl(origin, k);
    }
  }

  /** A key as it appears in `RESOURCES`: the root key, or a relative path
      that is not empty, carries no `?v=` marker and does not start with `#`. */
  predicate PlainKey(key: string)
  {
    key == ROOT || (key != "" && key[0] != '#' && !Contains(key, VERSION_MARKER))
  }

  lemma TailOfRequestUrl(origin: string, key: string, suffix: string)
    ensures Tail(origin, RequestUrl(origin, key) + suffix) == (if key == ROOT then "" else key) + suffix
  {
    var url := RequestUrl(origin, key) + suffix;
    var rest := (if key == ROOT then "" else key) + suffix;
    assert url == origin + "/" + rest;
    assert url[|origin| + 1..] == rest;
  }

  /** The URL of a key that does not start with `#` is not an in-page
      fragment of the root document, whatever follows it. */
  lemma NoFragmentPrefix(origin: string, key: string, suffix: string)
    requires key != "" && key != ROOT && key[0] != '#'
    ensures !StartsWith(RequestUrl(origin, key) + suffix, origin + "/#")
  {
    var url := RequestUrl(origin, key) + suffix;
    assert url == origin + "/" + (key + suffix);
    var p := origin + "/#";
    assert url[|origin| + 1] == key[0] != '#' == p[|origin| + 1];
    if |p| <= |url| {
      assert url[..|p|][|origin| + 1] == url[|origin| + 1];
    }
  }

  /** Activation recovers the key of every entry the worker stores under a
      manifest key's own URL. */
  lemma ActivationKeyRoundTrip(origin: string, key: string)
    requires key != ""
    ensures ActivationKey(origin, RequestUrl(origin, key)) == key
  {
    TailOfRequestUrl(origin, key, "");
    assert RequestUrl(origin, key) + "" == RequestUrl(origin, key);
  }

  /** The fetch handler derives a plain key back from the URL it denotes. */
  lemma FetchKeyRoundTrip(origin: string, key: string)
    requires PlainKey(key)
    ensures FetchKey(origin, RequestUrl(origin, key)) == key
  {
    var url := RequestUrl(origin, key);
    TailOfRequestUrl(origin, key, "");
    assert url + "" == url;
    if key != ROOT {
      assert url != origin;
      assert IndexOf(key, VERSION_MARKER) == -1;
      NoFragmentPrefix(origin, key, "");
    }
  }

  /** `?v=` never overlaps itself: an occurrence starting inside `key`
      that reaches into an appended marker is impossible. */
  lemma MarkerNotStraddled(key: string, v: string, j: int)
    requires 0 <= j < |key|
    requires !Contains(key, VERSION_MARKER)
    ensures !OccursAt(key + VERSION_MARKER + v, VERSION_MARKER, j)
  {
    var s := key + VERSION_MARKER + v;
    if j + 3 <= |key| {
      assert s[j..j + 3] == key[j..j + 3];
      assert !OccursAt(key, VERSION_MARKER, j);
    } else if j + 2 == |key| {
      assert s[j + 2] == '?' != VERSION_MARKER[2];
      if j + 3 <= |s| {
        assert s[j..j + 3][2] == s[j + 2];
      }
    } else {
      assert s[j + 1] == '?' != VERSION_MARKER[1];
      if j + 3 <= |s| {
        assert s[j..j + 3][1] == s[j + 1];
      }
    }
  }

  /** The fetch handler maps a cache-busting URL `key?v=...` to the key itself. */
  lemma FetchKeyDropsVersion(origin: string, key: string, v: string)
    requires PlainKey(key)
    ensures FetchKey(origin, RequestUrl(origin, key) + VERSION_MARKER + v) == key
  {
    var url := RequestUrl(origin, key) + VERSION_MARKER + v;
    var bare := if key == ROOT then "" else key;
    TailOfRequestUrl(origin, key, VERSION_MARKER + v);
    var tail := Tail(origin, url);
    assert tail == bare + VERSION_MARKER + v;
    assert OccursAt(tail, VERSION_MARKER, |bare|) by {
      assert tail[|bare|..|bare| + 3] == VERSION_MARKER;
    }
    if key != ROOT {
      forall j | 0 <= j < |key| ensures !OccursAt(tail, VERSION_MARKER, j) {
        MarkerNotStraddled(key, v, j);
      }
      assert IndexOf(tail, VERSION_MARKER) == |key|;
      assert tail[..|key|] == key;
      assert url != origin;
      NoFragmentPrefix(origin, key, VERSION_MARKER + v);
      assert RequestUrl(origin, key) + (VERSION_MARKER + v) == url;
    } else {
      assert IndexOf(tail, VERSION_MARKER) == 0;
    }
  }

  /** Activation, in contrast, keeps the `?v=` suffix in the recovered key. */
  lemma ActivationKeyKeepsVersion(origin: string, key: string, v: string)
    requires key != "" && key != ROOT
    ensures ActivationKey(origin, RequestUrl(origin, key) + VERSION_MARKER + v) == key + VERSION_MARKER + v
    ensures Contains(ActivationKey(origin, RequestUrl(origin, key) + VERSION_MARKER + v), VERSION_MARKER)
  {
    TailOfRequestUrl(origin, key, VERSION_MARKER + v);
    var k := key + VERSION_MARKER + v;
    assert key + (VERSION_MARKER + v) == k;
    assert k[|key|..|key| + 3] == VERSION_MARKER;
    assert OccursAt(k, VERSION_MARKER, |key|);
  }
}
