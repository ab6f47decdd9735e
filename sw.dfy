/**
 * The service worker: which requests it intercepts and with which strategy,
 * the cache storage those strategies read and fill, the clean-up on
 * activation, and the push and notification-click handlers.
 * The network is a parameter: `None` where `fetch` rejects (including the
 * external strategy's five-second abort). Cache storage is a sequence of
 * named caches in creation order, each mapping a request URL to a response.
 */
module ServiceWorker {
  import opened Wrappers
  import opened Text
  import opened Browser

  const CacheName := "portfolio-pwa-v1.0.0"
  const CachePrefix := "portfolio-pwa-"
  const OfflineUrl := "/offline.html"
  const StaticCacheUrls: seq<string> := ["/", "/offline.html", "/manifest.json", "/favicon.svg"]

  const StaticCache := CacheName + "-static"
  const DynamicCache := CacheName + "-dynamic"
  const ImagesCache := CacheName + "-images"
  const ApiCache := CacheName + "-api"

  datatype Response = Response(status: nat, statusText: string, body: string, headers: map<string, string>)

  /** `response.ok`: a status in 200..299. */
  predicate IsOk(r: Response)
  {
    200 <= r.status <= 299
  }

  /** `new Response(text, { status })`: a plain-text body. */
  function TextResponse(body: string, status: nat): Response
  {
    Response(status, "", body, map["Content-Type" := "text/plain;charset=UTF-8"])
  }

  const OfflineApiBody := "{\"error\":\"Network unavailable\",\"message\":\"This feature requires an internet connection\",\"offline\":true}"

  /** The answer to an API request with neither network nor cached copy. */
  const OfflineApiResponse := Response(503, "Service Unavailable", OfflineApiBody,
    map["Content-Type" := "application/json", "Cache-Control" := "no-cache"])

  const PlaceholderSvg := "<svg width=\"400\" height=\"300\" xmlns=\"http://www.w3.org/2000/svg\"><rect width=\"100%\" height=\"100%\" fill=\"#1a1a1a\"/><text x=\"50%\" y=\"50%\" text-anchor=\"middle\" fill=\"#666\" font-family=\"Arial\" font-size=\"18\">Image Unavailable</text></svg>"

  /** The answer to an image request with neither cached copy nor network. */
  const PlaceholderImage := Response(200, "", PlaceholderSvg,
    map["Content-Type" := "image/svg+xml", "Cache-Control" := "no-cache"])

  // ---------------------------------------------------------------------------
  // Routing

  /** A request as the fetch listener sees it; `sameOrigin` is the comparison of its origin with the worker's. */
  datatype Request = Request(url: string, verb: string, sameOrigin: bool, destination: string, mode: string)

  datatype Strategy = ApiStrategy | ImageStrategy | StaticStrategy | ExternalStrategy

  /**
   * The fetch listener's choice: nothing for a non-GET request; for a
   * same-origin one the API strategy when the URL contains `/api/`, else the
   * image strategy for images, else the static one; the external strategy
   * for any other origin.
   */
  function Route(req: Request): (s: Option<Strategy>)
    ensures s.None? <==> req.verb != "GET"
    ensures s == Some(ApiStrategy) <==> req.verb == "GET" && req.sameOrigin && Contains(req.url, "/api/")
    ensures s == Some(ImageStrategy) <==> (
      req.verb == "GET" && req.sameOrigin && !Contains(req.url, "/api/") && req.destination == "image")
    ensures s == Some(StaticStrategy) <==> (
      req.verb == "GET" && req.sameOrigin && !Contains(req.url, "/api/") && req.destination != "image")
    ensures s == Some(ExternalStrategy) <==> req.verb == "GET" && !req.sameOrigin
  {
    if req.verb != "GET" then None
    else if req.sameOrigin then
      if Contains(req.url, "/api/") then Some(ApiStrategy)
      else if req.destination == "image" then Some(ImageStrategy)
      else Some(StaticStrategy)
    else Some(ExternalStrategy)
  }

  /** The `/api/` test comes first: an image served from under `/api/` takes the API strategy. */
  lemma ApiBeforeImage(req: Request)
    requires req.verb == "GET" && req.sameOrigin && req.destination == "image"
    requires StartsWith(req.url, "/api/")
    ensures Route(req) == Some(ApiStrategy)
  {
    ContainsAt(req.url, "/api/", 0);
  }

  // ---------------------------------------------------------------------------
  // Cache storage

  datatype NamedCache = NamedCache(name: string, entries: map<string, Response>)

  /** `caches.open(name)` as far as reading goes: the first cache with that name, if any. */
  function CacheNamed(cs: seq<NamedCache>, name: string): (r: Option<map<string, Response>>)
    ensures r.None? <==> forall i :: 0 <= i < |cs| ==> cs[i].name != name
    ensures r.Some? ==> exists i :: 0 <= i < |cs| && cs[i].name == name && cs[i].entries == r.value
  {
    if cs == [] then None
    else if cs[0].name == name then Some(cs[0].entries)
    else CacheNamed(cs[1..], name)
  }

  /** `caches.open(name)`: the cache is created, empty and last, when it does not exist yet. */
  function OpenIn(cs: seq<NamedCache>, name: string): (r: seq<NamedCache>)
    ensures CacheNamed(r, name) == Some(CacheNamed(cs, name).GetOr(map[]))
    ensures forall n :: n != name ==> CacheNamed(r, n) == CacheNamed(cs, n)
  {
    if cs == [] then [NamedCache(name, map[])]
    else if cs[0].name == name then cs
    else [cs[0]] + OpenIn(cs[1..], name)
  }

  /** `caches.open(name)` then `cache.put(url, response)`: only that cache changes, and only at `url`. */
  function PutIn(cs: seq<NamedCache>, name: string, url: string, resp: Response): (r: seq<NamedCache>)
    ensures CacheNamed(r, name) == Some(CacheNamed(cs, name).GetOr(map[])[url := resp])
    ensures forall n :: n != name ==> CacheNamed(r, n) == CacheNamed(cs, n)
  {
    if cs == [] then [NamedCache(name, map[url := resp])]
    else if cs[0].name == name then [cs[0].(entries := cs[0].entries[url := resp])] + cs[1..]
    else [cs[0]] + PutIn(cs[1..], name, url, resp)
  }

  /** `caches.match(url)`: the entry of the first cache, in creation order, that holds the URL. */
  function MatchIn(cs: seq<NamedCache>, url: string): (r: Option<Response>)
    ensures r.None? <==> forall i :: 0 <= i < |cs| ==> url !in cs[i].entries
    ensures r.Some? ==> exists i :: (0 <= i < |cs| && url in cs[i].entries && r.value == cs[i].entries[url]
      && forall j :: 0 <= j < i ==> url !in cs[j].entries)
  {
    if cs == [] then None
    else if url in cs[0].entries then Some(cs[0].entries[url])
    else MatchIn(cs[1..], url)
  }

  /**
   * Once a response was put under a URL, a lookup of that URL finds some response,
   * and finds that one when no cache held the URL before.
   */
  lemma {:induction false} PutThenMatch(cs: seq<NamedCache>, name: string, url: string, resp: Response)
    ensures MatchIn(PutIn(cs, name, url, resp), url).Some?
    ensures MatchIn(cs, url).None? ==> MatchIn(PutIn(cs, name, url, resp), url) == Some(resp)
  {
    if cs != [] && cs[0].name != name && url !in cs[0].entries {
      PutThenMatch(cs[1..], name, url, resp);
      assert PutIn(cs, name, url, resp)[1..] == PutIn(cs[1..], name, url, resp);
    }
  }

  // ---------------------------------------------------------------------------
  // Activation

  function Own(): set<string>
  {
    {CacheName, StaticCache, DynamicCache, ImagesCache, ApiCache}
  }

  /** The deletion test of the activate listener as written: the prefix, and not the bare version name. */
  predicate StaleAsWritten(name: string)
  {
    StartsWith(name, CachePrefix) && name != CacheName
  }

  lemma PrefixExtends(s: string, prefix: string, more: string)
    requires StartsWith(s, prefix)
    ensures StartsWith(s + more, prefix)
  {
    assert (s + more)[..|prefix|] == s[..|prefix|];
  }

  /** As written, activation deletes the four caches the worker itself fills, the static one just installed included. */
  lemma OwnCachesDeletedAsWritten()
    ensures StaleAsWritten(StaticCache) && StaleAsWritten(DynamicCache)
    ensures StaleAsWritten(ImagesCache) && StaleAsWritten(ApiCache)
    ensures !StaleAsWritten(CacheName)
  {
    assert CacheName[..|CachePrefix|] == CachePrefix;
    PrefixExtends(CacheName, CachePrefix, "-static");
    PrefixExtends(CacheName, CachePrefix, "-dynamic");
    PrefixExtends(CacheName, CachePrefix, "-images");
    PrefixExtends(CacheName, CachePrefix, "-api");
  }

  /** The evidently intended test: a cache of this application that belongs to no current cache name. */
  predicate Stale(name: string)
  {
    StartsWith(name, CachePrefix) && name !in Own()
  }

  /** The intended test differs from the written one exactly on the four current caches. */
  lemma StaleAgrees(name: string)
    ensures Stale(name) <==> StaleAsWritten(name) && name !in {StaticCache, DynamicCache, ImagesCache, ApiCache}
    ensures !Stale(StaticCache) && !Stale(DynamicCache) && !Stale(ImagesCache) && !Stale(ApiCache)
    ensures StaleAsWritten(StaticCache) && StaleAsWritten(ApiCache)
  {
    OwnCachesDeletedAsWritten();
  }

  /** The caches kept by an activation that deletes those `stale` picks, in their order. */
  function Survivors(cs: seq<NamedCache>, stale: string -> bool): (r: seq<NamedCache>)
    ensures |r| <= |cs|
    ensures forall c :: c in r <==> c in cs && !stale(c.name)
  {
    if cs == [] then []
    else (if stale(cs[0].name) then [] else [cs[0]]) + Survivors(cs[1..], stale)
  }

  lemma {:induction false} SurvivorsAppend(cs: seq<NamedCache>, c: NamedCache, stale: string -> bool)
    ensures Survivors(cs + [c], stale) == Survivors(cs, stale) + (if stale(c.name) then [] else [c])
  {
    if cs != [] {
      assert (cs + [c])[1..] == cs[1..] + [c];
      SurvivorsAppend(cs[1..], c, stale);
    }
  }

  /** As written, no static cache survives activation: the offline page installed with it is gone. */
  lemma StaticCacheLostAsWritten(cs: seq<NamedCache>)
    ensures CacheNamed(Survivors(cs, StaleAsWritten), StaticCache).None?
    ensures CacheNamed(Survivors(cs, StaleAsWritten), ApiCache).None?
  {
    OwnCachesDeletedAsWritten();
  }

  // ---------------------------------------------------------------------------
  // Push and notification clicks

  /** The properties of a push message's JSON the handler reads. */
  datatype PushPayload = PushPayload(body: Option<string>, url: Option<string>, tag: Option<string>)

  datatype Action = Action(action: string, title: string, icon: string)

  datatype NotificationOptions = NotificationOptions(
    body: string, icon: string, badge: string, vibrate: seq<nat>,
    url: string, timestamp: int, actions: seq<Action>,
    requireInteraction: bool, tag: string)

  /** The notification shown when a push carries nothing usable. */
  function DefaultOptions(now: int): NotificationOptions
  {
    NotificationOptions(
      "Check out the latest updates to our portfolio!", "/icons/icon-192x192.png", "/icons/badge-72x72.png",
      [200, 100, 200], "/", now,
      [Action("view", "View Updates", "/icons/action-view.png"),
       Action("dismiss", "Dismiss", "/icons/action-dismiss.png")],
      false, "portfolio-update")
  }

  /**
   * The push listener's options, given the message text (`None` without data)
   * and `json()` (`None` where it throws): body, URL and tag each replaced by
   * the payload's when truthy; everything else the defaults.
   */
  function PushOptions(data: Option<string>, parse: string -> Option<PushPayload>, now: int): (o: NotificationOptions)
    ensures data.None? || parse(data.value).None? ==> o == DefaultOptions(now)
    ensures data.Some? && parse(data.value).Some? ==> (
      var p := parse(data.value).value;
      o == DefaultOptions(now).(body := OrElse(p.body, DefaultOptions(now).body),
                                url := OrElse(p.url, "/"),
                                tag := OrElse(p.tag, DefaultOptions(now).tag)))
    ensures o.body != "" && o.url != "" && o.tag != ""
  {
    var options := DefaultOptions(now);
    if data.None? then options
    else match parse(data.value)
      case None => options
      case Some(p) =>
        options.(body := OrElse(p.body, options.body), url := OrElse(p.url, options.url), tag := OrElse(p.tag, options.tag))
  }

  /** What a notification click does: nothing, focus the i-th open window, open a window, or nothing for lack of `openWindow`. */
  datatype ClickOutcome = Ignored | Focus(index: nat) | OpenWindow(url: string) | NoWindow

  /** The first window whose URL contains `url`, or `|clients|`. */
  function FirstContaining(clients: seq<string>, url: string): (i: nat)
    ensures i <= |clients|
    ensures forall j :: 0 <= j < i ==> !Contains(clients[j], url)
    ensures i < |clients| ==> Contains(clients[i], url)
  {
    if clients == [] then 0
    else if Contains(clients[0], url) then 0
    else 1 + FirstContaining(clients[1..], url)
  }

  /**
   * The notification-click listener: only the `view` action or a click on the
   * body (no action) acts; the target is the notification's URL, `/` without
   * one; an open window showing it is focused, else one is opened.
   */
  function NotificationClick(action: string, dataUrl: Option<string>, clients: seq<string>, canOpen: bool): (r: ClickOutcome)
    ensures r.Ignored? <==> action != "view" && action != ""
    ensures r.Focus? ==> r.index < |clients| && Contains(clients[r.index], OrElse(dataUrl, "/"))
    ensures r.OpenWindow? ==> (r.url == OrElse(dataUrl, "/") && r.url != ""
      && forall j :: 0 <= j < |clients| ==> !Contains(clients[j], r.url))
    ensures r.NoWindow? ==> !canOpen
  {
    if action != "view" && action != "" then Ignored
    else
      var url := OrElse(dataUrl, "/");
      var i := FirstContaining(clients, url);
      if i < |clients| then Focus(i)
      else if canOpen then OpenWindow(url)
      else NoWindow
  }

  /** Clicking the body of a pushed notification with no window open opens the URL the push carried, or `/`. */
  lemma ClickOpensPushedUrl(data: Option<string>, parse: string -> Option<PushPayload>, now: int)
    ensures NotificationClick("", Some(PushOptions(data, parse, now).url), [], true)
      == OpenWindow(PushOptions(data, parse, now).url)
  {
  }

  // ---------------------------------------------------------------------------
  // The worker and its strategies

  /** Storing URL `k`'s response keeps the responses of the URLs before it. */
  lemma StoredStep(urls: seq<string>, k: nat, m: map<string, Response>, fetch: string -> Option<Response>)
    requires k < |urls| && forall u :: u in urls ==> fetch(u).Some?
    requires forall j :: 0 <= j < k ==> urls[j] in m && m[urls[j]] == fetch(urls[j]).value
    ensures var m' := m[urls[k] := fetch(urls[k]).value];
      forall j :: 0 <= j < k + 1 ==> urls[j] in m' && m'[urls[j]] == fetch(urls[j]).value
  {
  }

  // ---------------------------------------------------------------------------
  // The four strategies, as relations between the caches before and after a
  // request and its answer

  /**
   * Network first for API requests: the network's answer whatever its status,
   * stored in the API cache when OK; without network the cached copy, else the
   * offline 503 JSON.
   */
  predicate ApiServed(before: seq<NamedCache>, after: seq<NamedCache>, url: string, network: Option<Response>, r: Response)
  {
    match network
    case Some(resp) => r == resp && after == (if IsOk(resp) then PutIn(before, ApiCache, url, resp) else before)
    case None => after == before && r == MatchIn(before, url).GetOr(OfflineApiResponse)
  }

  /**
   * Cache first for images: a cached copy is returned as is, with the network
   * not consulted; otherwise the network's answer, stored in the images cache
   * when OK, or the placeholder SVG without network.
   */
  predicate ImageServed(before: seq<NamedCache>, after: seq<NamedCache>, url: string, network: Option<Response>, r: Response)
  {
    if MatchIn(before, url).Some? then r == MatchIn(before, url).value && after == before
    else match network
      case None => r == PlaceholderImage && after == before
      case Some(resp) => r == resp && after == (if IsOk(resp) then PutIn(before, ImagesCache, url, resp) else before)
  }

  /**
   * Stale-while-revalidate for pages and assets: the dynamic cache is refreshed
   * with the network's OK answer (the state once the background update is done);
   * the answer is the cached copy, else the network's, else for a navigation the
   * cached offline page or a 503 "Offline", and a 503 for anything else.
   */
  predicate StaticServed(before: seq<NamedCache>, after: seq<NamedCache>, url: string, navigate: bool,
                         network: Option<Response>, r: Response)
  {
    after == (if network.Some? && IsOk(network.value) then PutIn(before, DynamicCache, url, network.value) else before)
    && r == (if MatchIn(before, url).Some? then MatchIn(before, url).value
             else if network.Some? then network.value
             else if navigate then MatchIn(before, OfflineUrl).GetOr(TextResponse("Offline", 503))
             else TextResponse("Resource unavailable offline", 503))
  }

  /** Other origins: the network's answer, never stored; without it the cached copy or a 503. */
  predicate ExternalServed(cs: seq<NamedCache>, url: string, network: Option<Response>, r: Response)
  {
    r == (if network.Some? then network.value
          else MatchIn(cs, url).GetOr(TextResponse("External resource unavailable", 503)))
  }

  /**
   * An API answer stored while online is served from the caches offline, instead of
   * the 503 JSON, and is that stored answer when no cache held the URL before.
   */
  lemma ApiKeptForOffline(cs0: seq<NamedCache>, cs1: seq<NamedCache>, cs2: seq<NamedCache>, url: string,
                          resp: Response, r1: Response, r2: Response)
    requires IsOk(resp) && ApiServed(cs0, cs1, url, Some(resp), r1) && ApiServed(cs1, cs2, url, None, r2)
    ensures cs2 == cs1 && MatchIn(cs1, url).Some? && r2 == MatchIn(cs1, url).value
    ensures MatchIn(cs0, url).None? ==> r2 == resp
  {
    PutThenMatch(cs0, ApiCache, url, resp);
  }

  /** An image stored once is served from the cache from then on, without the network or the placeholder. */
  lemma ImageKeptForOffline(cs0: seq<NamedCache>, cs1: seq<NamedCache>, cs2: seq<NamedCache>, url: string,
                            network1: Option<Response>, network2: Option<Response>, r1: Response, r2: Response)
    requires network1.Some? && IsOk(network1.value)
    requires ImageServed(cs0, cs1, url, network1, r1) && ImageServed(cs1, cs2, url, network2, r2)
    ensures cs2 == cs1 && MatchIn(cs1, url).Some? && r2 == MatchIn(cs1, url).value
  {
    if MatchIn(cs0, url).None? {
      PutThenMatch(cs0, ImagesCache, url, network1.value);
    }
  }

  class Worker {
    var caches: seq<NamedCache>

    constructor ()
      ensures caches == []
    {
      caches := [];
    }

    function Match(url: string): Option<Response>
      reads this
    {
      MatchIn(caches, url)
    }

    /**
     * The install listener: the static cache is opened, and every static URL
     * stored in it when all of them fetch with an OK status (`addAll` stores
     * nothing otherwise). No other cache changes.
     */
    method Install(fetch: string -> Option<Response>)
      modifies this
      ensures CacheNamed(caches, StaticCache).Some?
      ensures (forall u :: u in StaticCacheUrls ==> fetch(u).Some? && IsOk(fetch(u).value)) ==>
        (forall u :: u in StaticCacheUrls ==> (u in CacheNamed(caches, StaticCache).value
          && CacheNamed(caches, StaticCache).value[u] == fetch(u).value))
      ensures !(forall u :: u in StaticCacheUrls ==> fetch(u).Some? && IsOk(fetch(u).value)) ==>
        caches == OpenIn(old(caches), StaticCache)
      ensures forall n :: n != StaticCache ==> CacheNamed(caches, n) == CacheNamed(old(caches), n)
    {
      caches := OpenIn(caches, StaticCache);
      var ok := AllFetched(StaticCacheUrls, fetch);
      if ok {
        StoreAll(StaticCacheUrls, fetch);
      }
    }

    /** The fetching half of `addAll`: whether every URL answered with an OK status. */
    static method AllFetched(urls: seq<string>, fetch: string -> Option<Response>) returns (ok: bool)
      ensures ok <==> forall u :: u in urls ==> fetch(u).Some? && IsOk(fetch(u).value)
    {
      var i := 0;
      while i < |urls|
        invariant 0 <= i <= |urls|
        invariant forall j :: 0 <= j < i ==> fetch(urls[j]).Some? && IsOk(fetch(urls[j]).value)
      {
        var r := fetch(urls[i]);
        if r.None? || !IsOk(r.value) {
          return false;
        }
        i := i + 1;
      }
      return true;
    }

    /** The storing half of `addAll`: every URL's response is put in the open static cache. */
    method StoreAll(urls: seq<string>, fetch: string -> Option<Response>)
      requires CacheNamed(caches, StaticCache).Some?
      requires forall u :: u in urls ==> fetch(u).Some?
      modifies this
      ensures CacheNamed(caches, StaticCache).Some?
      ensures forall u :: u in urls ==> (u in CacheNamed(caches, StaticCache).value
        && CacheNamed(caches, StaticCache).value[u] == fetch(u).value)
      ensures forall n :: n != StaticCache ==> CacheNamed(caches, n) == CacheNamed(old(caches), n)
    {
      var cs := caches;
      ghost var m := CacheNamed(cs, StaticCache).value;
      var k := 0;
      while k < |urls|
        invariant 0 <= k <= |urls|
        invariant CacheNamed(cs, StaticCache) == Some(m)
        invariant forall j :: 0 <= j < k ==> urls[j] in m && m[urls[j]] == fetch(urls[j]).value
        invariant forall n :: n != StaticCache ==> CacheNamed(cs, n) == CacheNamed(old(caches), n)
      {
        var url := urls[k];
        StoredStep(urls, k, m, fetch);
        cs := PutIn(cs, StaticCache, url, fetch(url).value);
        m := m[url := fetch(url).value];
        k := k + 1;
      }
      caches := cs;
      forall u | u in urls
        ensures u in m && m[u] == fetch(u).value
      {
        var j :| 0 <= j < |urls| && urls[j] == u;
      }
    }

    /** The activate listener, with the intended deletion test: every stale cache is deleted and the rest kept in order. */
    method Activate()
      modifies this
      ensures caches == Survivors(old(caches), Stale)
      ensures forall c :: c in old(caches) && c.name in Own() ==> c in caches
      ensures forall c :: c in caches ==> !Stale(c.name)
    {
      var kept := [];
      var i := 0;
      while i < |caches|
        invariant 0 <= i <= |caches|
        invariant caches == old(caches)
        invariant kept == Survivors(caches[..i], Stale)
      {
        assert caches[..i + 1] == caches[..i] + [caches[i]];
        SurvivorsAppend(caches[..i], caches[i], Stale);
        if !Stale(caches[i].name) {
          kept := kept + [caches[i]];
        }
        i := i + 1;
      }
      assert caches[..i] == caches;
      caches := kept;
    }

    /**
     * Network first for API requests: the network's answer whatever its
     * status, stored in the API cache when OK; without network the cached
     * copy, else the offline 503 JSON.
     */
    method HandleApi(url: string, network: Option<Response>) returns (r: Response)
      modifies this
      ensures ApiServed(old(caches), caches, url, network, r)
      ensures network.Some? && IsOk(network.value) ==> Match(url).Some?
    {
      if network.Some? {
        if IsOk(network.value) {
          PutThenMatch(caches, ApiCache, url, network.value);
          caches := PutIn(caches, ApiCache, url, network.value);
        }
        return network.value;
      }
      var cached := Match(url);
      if cached.Some? {
        return cached.value;
      }
      r := OfflineApiResponse;
    }

    /**
     * Cache first for images: a cached copy is returned as is, with the
     * network not consulted; otherwise the network's answer, stored in the
     * images cache when OK, or the placeholder SVG without network.
     */
    method HandleImage(url: string, network: Option<Response>) returns (r: Response)
      modifies this
      ensures ImageServed(old(caches), caches, url, network, r)
      ensures network.Some? && IsOk(network.value) ==> Match(url).Some?
    {
      var cached := Match(url);
      if cached.Some? {
        return cached.value;
      }
      if network.None? {
        return PlaceholderImage;
      }
      if IsOk(network.value) {
        PutThenMatch(caches, ImagesCache, url, network.value);
        caches := PutIn(caches, ImagesCache, url, network.value);
      }
      r := network.value;
    }

    /**
     * Stale-while-revalidate for pages and assets: a cached copy is returned
     * at once, and the dynamic cache refreshed with the network's OK answer
     * (the state once the background update is done); otherwise the network's
     * answer, stored when OK; without either, for a navigation the cached
     * offline page or a 503 "Offline", and a 503 for anything else.
     */
    method HandleStatic(url: string, navigate: bool, network: Option<Response>) returns (r: Response)
      modifies this
      ensures StaticServed(old(caches), caches, url, navigate, network, r)
      ensures network.Some? && IsOk(network.value) ==> Match(url).Some?
    {
      var cached := Match(url);
      if network.Some? && IsOk(network.value) {
        PutThenMatch(caches, DynamicCache, url, network.value);
        caches := PutIn(caches, DynamicCache, url, network.value);
      }
      if cached.Some? {
        return cached.value;
      }
      if network.Some? {
        return network.value;
      }
      if navigate {
        var offline := Match(OfflineUrl);
        r := if offline.Some? then offline.value else TextResponse("Offline", 503);
      } else {
        r := TextResponse("Resource unavailable offline", 503);
      }
    }

    /** Other origins: the network's answer, never stored; without it the cached copy or a 503. */
    method HandleExternal(url: string, network: Option<Response>) returns (r: Response)
      ensures ExternalServed(caches, url, network, r)
    {
      if network.Some? {
        return network.value;
      }
      var cached := Match(url);
      r := if cached.Some? then cached.value else TextResponse("External resource unavailable", 503);
    }

    /** The fetch listener: a response exactly for GET requests, from the strategy `Route` picks. */
    method HandleFetch(req: Request, network: Option<Response>) returns (handled: Option<Response>)
      modifies this
      ensures handled.None? <==> req.verb != "GET"
      ensures handled.None? ==> caches == old(caches)
      ensures Route(req) == Some(ApiStrategy) ==> ApiServed(old(caches), caches, req.url, network, handled.value)
      ensures Route(req) == Some(ImageStrategy) ==> ImageServed(old(caches), caches, req.url, network, handled.value)
      ensures Route(req) == Some(StaticStrategy) ==>
        StaticServed(old(caches), caches, req.url, req.mode == "navigate", network, handled.value)
      ensures Route(req) == Some(ExternalStrategy) ==>
        caches == old(caches) && ExternalServed(caches, req.url, network, handled.value)
    {
      var strategy := Route(req);
      if strategy.None? {
        return None;
      }
      var r;
      match strategy.value {
        case ApiStrategy => r := HandleApi(req.url, network);
        case ImageStrategy => r := HandleImage(req.url, network);
        case StaticStrategy => r := HandleStatic(req.url, req.mode == "navigate", network);
        case ExternalStrategy => r := HandleExternal(req.url, network);
      }
      handled := Some(r);
    }
  }

  /**
   * With the intended activation test, the offline page installed by the
   * worker survives activation, so an offline navigation to an uncached page
   * is answered with it.
   */
  lemma OfflinePageSurvivesActivate(cs: seq<NamedCache>)
    requires CacheNamed(cs, StaticCache).Some? && OfflineUrl in CacheNamed(cs, StaticCache).value
    ensures MatchIn(Survivors(cs, Stale), OfflineUrl).Some?
  {
    var i :| 0 <= i < |cs| && cs[i].name == StaticCache && OfflineUrl in cs[i].entries;
    StaleAgrees(StaticCache);
    assert cs[i] in Survivors(cs, Stale);
  }
}
