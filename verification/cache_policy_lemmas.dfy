/** Properties of the service worker's fetch handler: the classifier's priorities on concrete
    URLs, the behaviour of each cache strategy across consecutive requests, and the invariant
    that every cache holds only entries of its own kind. */
module CachePolicyLemmas {
  import opened Values
  import opened Text
  import opened Http
  import opened CachePolicy

  // ---------------------------------------------------------------------------------------
  // Classification

  /** Matching is case-insensitive: a URL and its lower-case form are classified alike. */
  lemma ClassifyIgnoresCase(url: string, origin: string, selfOrigin: string)
    ensures Classify(Request(ToLower(url), origin), selfOrigin) == Classify(Request(url, origin), selfOrigin)
  {
    ToLowerIdempotent(url);
  }

  /** The origin only decides between the shell cache and no response: API and media
      requests are claimed from any origin. */
  lemma OriginDecidesOnlyShell(url: string, o1: string, o2: string, selfOrigin: string)
    ensures Classify(Request(url, o1), selfOrigin) in {ApiPolicy, MediaPolicy}
            ==> Classify(Request(url, o2), selfOrigin) == Classify(Request(url, o1), selfOrigin)
    ensures Classify(Request(url, o1), selfOrigin) == ShellPolicy
            ==> Classify(Request(url, o2), selfOrigin) == (if o2 == selfOrigin then ShellPolicy else Passthrough)
  {
  }

  /** An extension inside the query string claims the request for the media cache, whatever
      the origin. */
  lemma QueryStringExtensionMatches(origin: string, selfOrigin: string)
    ensures Classify(Request("https://x.nl/play?f=a.mp3", origin), selfOrigin) == MediaPolicy
  {
    var url := "https://x.nl/play?f=a.mp3";
    assert ToLower(url) == url by { LowerQueryUrl(); }
    assert !IsApiUrl(url) by { NotApiWithout(url, 'w'); }
    assert IsMediaUrl(url) by { MediaQueryUrl(); }
    ClassifiedAs(Request(url, origin), selfOrigin);
  }

  lemma LowerQueryUrl()
    ensures ToLower("https://x.nl/play?f=a.mp3") == "https://x.nl/play?f=a.mp3"
  {
  }

  lemma MediaQueryUrl()
    ensures IsMediaUrl("https://x.nl/play?f=a.mp3")
  {
    var url := "https://x.nl/play?f=a.mp3";
    assert url[21..25] == ".mp3";
    MediaAt(url, 0, 21);
  }

  /** Upper-case URLs are lower-cased before matching. */
  lemma UpperCaseExtensionMatches(origin: string, selfOrigin: string)
    ensures Classify(Request("HTTPS://X.NL/A.MP3", origin), selfOrigin) == MediaPolicy
  {
    var lower := "https://x.nl/a.mp3";
    assert ToLower("HTTPS://X.NL/A.MP3") == lower by { LowerUpperUrl(); }
    assert !IsApiUrl(lower) by { NotApiWithout(lower, 'w'); }
    assert IsMediaUrl(lower) by { MediaUpperUrl(); }
    ClassifiedAs(Request("HTTPS://X.NL/A.MP3", origin), selfOrigin);
  }

  lemma LowerUpperUrl()
    ensures ToLower("HTTPS://X.NL/A.MP3") == "https://x.nl/a.mp3"
  {
  }

  lemma MediaUpperUrl()
    ensures IsMediaUrl("https://x.nl/a.mp3")
  {
    var lower := "https://x.nl/a.mp3";
    assert lower[14..18] == ".mp3";
    MediaAt(lower, 0, 14);
  }

  /** `.json` contains `.js`: a same-origin JSON file goes to the shell cache. */
  lemma JsonCountsAsShell(selfOrigin: string)
    ensures Classify(Request(JSON_URL, selfOrigin), selfOrigin) == ShellPolicy
  {
    assert ToLower(JSON_URL) == JSON_URL by { LowerJsonUrl(); }
    assert !IsApiUrl(JSON_URL) && !IsMediaUrl(JSON_URL) by {
      JsonUrlLacks();
      NotApiWithout(JSON_URL, 'w');
      NotMediaWithout(JSON_URL);
    }
    assert IsShellUrl(JSON_URL) by { ShellJsonUrl(); }
    ClassifiedAs(Request(JSON_URL, selfOrigin), selfOrigin);
  }

  const JSON_URL: string := "https://x.nl/d.json"

  lemma LowerJsonUrl()
    ensures ToLower(JSON_URL) == JSON_URL
  {
  }

  lemma JsonUrlLacks()
    ensures 'w' !in JSON_URL && 'm' !in JSON_URL && 'g' !in JSON_URL
  {
    assert 'w' !in JSON_URL;
    assert 'm' !in JSON_URL;
    assert 'g' !in JSON_URL;
  }

  lemma ShellJsonUrl()
    ensures IsShellUrl(JSON_URL)
  {
    assert JSON_URL[14..17] == ".js";
    assert OccursAt(JSON_URL, SHELL_FILE_TYPES[0], 14);
  }

  /** A stylesheet of another origin is left to the browser. */
  lemma CrossOriginStylesheetPassesThrough(origin: string, selfOrigin: string)
    requires origin != selfOrigin
    ensures Classify(Request(CSS_URL, origin), selfOrigin) == Passthrough
  {
    assert ToLower(CSS_URL) == CSS_URL by { LowerCssUrl(); }
    assert !IsApiUrl(CSS_URL) && !IsMediaUrl(CSS_URL) by {
      CssUrlLacks();
      NotApiWithout(CSS_URL, 'w');
      NotMediaWithout(CSS_URL);
    }
    ClassifiedAs(Request(CSS_URL, origin), selfOrigin);
  }

  const CSS_URL: string := "https://c.nl/a.css"

  lemma LowerCssUrl()
    ensures ToLower(CSS_URL) == CSS_URL
  {
  }

  lemma CssUrlLacks()
    ensures 'w' !in CSS_URL && 'm' !in CSS_URL && 'g' !in CSS_URL
  {
    assert 'w' !in CSS_URL;
    assert 'm' !in CSS_URL;
    assert 'g' !in CSS_URL;
  }

  /** An API URL goes to the API cache even when it also carries a media extension. */
  lemma ApiBeatsMedia(origin: string, selfOrigin: string)
    ensures Classify(Request(API_URL, origin), selfOrigin) == ApiPolicy
  {
    assert ToLower(API_URL) == API_URL by { LowerApiUrl(); }
    assert IsApiUrl(API_URL) by {
      OccursInMiddle(API_HOST, API_PATTERNS[1], API_QUERY);
    }
    ClassifiedAs(Request(API_URL, origin), selfOrigin);
  }

  const API_HOST: string := "https://x.nl"
  const API_QUERY: string := "?s=a.jpg"
  /** `https://x.nl/wp-json/wp/v2/media?s=a.jpg` */
  const API_URL: string := API_HOST + API_PATTERNS[1] + API_QUERY

  lemma LowerApiUrl()
    ensures ToLower(API_URL) == API_URL
  {
    ToLowerConcat(API_HOST + API_PATTERNS[1], API_QUERY);
    ToLowerConcat(API_HOST, API_PATTERNS[1]);
    assert ToLower(API_HOST) == API_HOST;
    assert ToLower(API_PATTERNS[1]) == API_PATTERNS[1];
    assert ToLower(API_QUERY) == API_QUERY;
  }

  /** The classifier's rules, restated for the lower-cased URL of any request. */
  lemma ClassifiedAs(req: Request, selfOrigin: string)
    ensures IsApiUrl(ToLower(req.url)) ==> Classify(req, selfOrigin) == ApiPolicy
    ensures !IsApiUrl(ToLower(req.url)) && IsMediaUrl(ToLower(req.url)) ==> Classify(req, selfOrigin) == MediaPolicy
    ensures (!IsApiUrl(ToLower(req.url)) && !IsMediaUrl(ToLower(req.url)) && IsShellUrl(ToLower(req.url))
             && req.origin == selfOrigin) ==> Classify(req, selfOrigin) == ShellPolicy
    ensures !IsApiUrl(ToLower(req.url)) && !IsMediaUrl(ToLower(req.url)) && req.origin != selfOrigin
            ==> Classify(req, selfOrigin) == Passthrough
  {
  }

  /** A URL lacking a character that both API patterns contain is not an API URL. */
  lemma NotApiWithout(lower: string, c: char)
    requires c in API_PATTERNS[0] && c in API_PATTERNS[1] && c !in lower
    ensures !IsApiUrl(lower)
  {
    forall k | 0 <= k < |API_PATTERNS| ensures !Includes(lower, API_PATTERNS[k]) {
      MissingCharExcludes(lower, API_PATTERNS[k], c);
    }
  }

  /** Every media extension contains `m`, `w` or `g`: a URL without all three is not a
      media URL. */
  lemma NotMediaWithout(lower: string)
    requires 'm' !in lower && 'w' !in lower && 'g' !in lower
    ensures !IsMediaUrl(lower)
  {
    forall k | 0 <= k < |MEDIA_FILE_TYPES| ensures !Includes(lower, MEDIA_FILE_TYPES[k]) {
      if k == 0 || k == 2 {
        MissingCharExcludes(lower, MEDIA_FILE_TYPES[k], 'm');
      } else if k == 1 || k == 3 {
        MissingCharExcludes(lower, MEDIA_FILE_TYPES[k], 'w');
      } else {
        MissingCharExcludes(lower, MEDIA_FILE_TYPES[k], 'g');
      }
    }
  }

  /** An occurrence of the `k`-th media extension makes a media URL. */
  lemma MediaAt(lower: string, k: int, i: int)
    requires 0 <= k < |MEDIA_FILE_TYPES| && OccursAt(lower, MEDIA_FILE_TYPES[k], i)
    ensures IsMediaUrl(lower)
  {
  }

  // ---------------------------------------------------------------------------------------
  // API strategy (stale-while-revalidate)

  /** A hit is answered from the cache whatever the network does. */
  lemma ApiHitIgnoresNetwork(store: Store, key: string, n1: Net, n2: Net)
    requires key in store
    ensures ApiRespond(store, key, n1) == ApiRespond(store, key, n2) == Served(store[key])
  {
  }

  /** Stale-while-revalidate across two requests: the first is answered with the stale
      entry, the response that arrives meanwhile answers the second. */
  lemma ApiServesStaleThenFresh(store: Store, key: string, latest: Response, n2: Net)
    requires key in store
    ensures ApiRespond(store, key, NetResponse(latest)) == Served(store[key])
    ensures ApiRespond(ApiRevalidate(store, key, NetResponse(latest)), key, n2) == Served(latest)
  {
  }

  /** An error response overwrites a good entry: the revalidation does not look at `ok`. */
  lemma ApiStoresErrorResponses(store: Store, key: string, err: Response)
    requires !err.ok
    ensures key in ApiRevalidate(store, key, NetResponse(err))
    ensures ApiRevalidate(store, key, NetResponse(err))[key] == err
  {
  }

  /** Offline with nothing cached, the page receives `undefined`, not an error. */
  lemma ApiOfflineMissIsUndefined(store: Store, key: string)
    requires key !in store
    ensures ApiRespond(store, key, NetFailure) == ServedUndefined
    ensures ApiRevalidate(store, key, NetFailure) == store
  {
  }

  // ---------------------------------------------------------------------------------------
  // Media strategy

  /** A cached entry without an audio `Content-Type` (an image, a video) is never served:
      the reply depends on the network alone, and offline the entry is gone. */
  lemma MediaNonAudioNeverFromCache(store: Store, key: string, net: Net)
    requires key in store && !IsAudioType(store[key].contentType)
    ensures MediaStrategy(store, key, net).0 == (if net.NetResponse? then Served(net.response) else Rejected)
    ensures net.NetFailure? ==> key !in MediaStrategy(store, key, net).1
  {
  }

  /** Two requests for the same image both go to the network: storing it does not make the
      second request a hit. */
  lemma MediaImagesRefetchedEveryTime(store: Store, key: string, img1: Response, next: Net)
    requires key !in store || !IsAudioType(store[key].contentType)
    requires !IsAudioType(img1.contentType)
    ensures var after := MediaStrategy(store, key, NetResponse(img1)).1;
            key in after && after[key] == img1 &&
            MediaStrategy(after, key, next).0 == (if next.NetResponse? then Served(next.response) else Rejected)
  {
    var after := MediaStrategy(store, key, NetResponse(img1)).1;
    assert after == store[key := img1];
  }

  /** Once an audio response is stored, later requests are served from the cache, offline
      included, and the cache no longer changes. */
  lemma MediaAudioCachedAfterFetch(store: Store, key: string, a: Response, next: Net)
    requires IsAudioType(a.contentType)
    ensures var after := MediaStrategy(store, key, NetResponse(a)).1;
            key in after && IsAudioType(after[key].contentType) &&
            MediaStrategy(after, key, next) == (Served(after[key]), after)
  {
  }

  /** A miss stores whatever the network returned, failed or not, audio or not. */
  lemma MediaMissStoresAnything(store: Store, key: string, resp: Response)
    requires key !in store
    ensures MediaStrategy(store, key, NetResponse(resp)) == (Served(resp), store[key := resp])
  {
  }

  // ---------------------------------------------------------------------------------------
  // Shell strategy

  /** After one successful fetch, the shell file is served from the cache, offline too, and
      the cache keeps the first response even when the network has a newer one. */
  lemma ShellCacheFirstForever(store: Store, key: string, first: Response, next: Net)
    requires key !in store
    ensures var after := ShellStrategy(store, key, NetResponse(first)).1;
            ShellStrategy(after, key, next) == (Served(first), after)
  {
  }

  /** A miss stores the network response without looking at its status. */
  lemma ShellStoresErrorResponses(store: Store, key: string, err: Response)
    requires key !in store && !err.ok
    ensures ShellStrategy(store, key, NetResponse(err)).1 == store[key := err]
  {
  }

  // ---------------------------------------------------------------------------------------
  // The three caches stay apart

  /** Every entry of every cache is one its own strategy would claim, with `originOf` the
      URL parser's origin. */
  ghost predicate Segregated(c: Caches, selfOrigin: string, originOf: string -> string) {
    && (forall k :: k in c.api ==> Classify(Request(k, originOf(k)), selfOrigin) == ApiPolicy)
    && (forall k :: k in c.media ==> Classify(Request(k, originOf(k)), selfOrigin) == MediaPolicy)
    && (forall k :: k in c.shell ==> Classify(Request(k, originOf(k)), selfOrigin) == ShellPolicy)
  }

  /** Segregated caches never share a key. */
  lemma SegregatedDisjoint(c: Caches, selfOrigin: string, originOf: string -> string)
    requires Segregated(c, selfOrigin, originOf)
    ensures c.api.Keys !! c.media.Keys && c.api.Keys !! c.shell.Keys && c.media.Keys !! c.shell.Keys
  {
  }

  /** The fetch handler keeps the caches segregated. */
  lemma HandleFetchKeepsSegregated(req: Request, selfOrigin: string, originOf: string -> string,
                                   c: Caches, net: Net)
    requires Segregated(c, selfOrigin, originOf)
    requires req.origin == originOf(req.url)
    ensures Segregated(HandleFetch(req, selfOrigin, c, net).1, selfOrigin, originOf)
  {
    var r := HandleFetch(req, selfOrigin, c, net).1;
    assert Classify(Request(req.url, originOf(req.url)), selfOrigin) == Classify(req, selfOrigin) by {
      assert req == Request(req.url, originOf(req.url));
    }
    StaysClaimed(c.api, r.api, req.url, selfOrigin, originOf, ApiPolicy);
    StaysClaimed(c.media, r.media, req.url, selfOrigin, originOf, MediaPolicy);
    StaysClaimed(c.shell, r.shell, req.url, selfOrigin, originOf, ShellPolicy);
  }

  /** A store whose keys all belong to policy `want` keeps that property when at most the
      key `url` is added, and only when `url` itself belongs to `want`. */
  lemma StaysClaimed(before: Store, after: Store, url: string, selfOrigin: string,
                     originOf: string -> string, want: Policy)
    requires forall k :: k in before ==> Classify(Request(k, originOf(k)), selfOrigin) == want
    requires after.Keys <= before.Keys + {url}
    requires url in after && url !in before ==> Classify(Request(url, originOf(url)), selfOrigin) == want
    ensures forall k :: k in after ==> Classify(Request(k, originOf(k)), selfOrigin) == want
  {
  }

  /** A request of no policy leaves every cache as it was and is not answered. */
  lemma PassthroughTouchesNothing(req: Request, selfOrigin: string, c: Caches, net: Net)
    requires Classify(req, selfOrigin) == Passthrough
    ensures HandleFetch(req, selfOrigin, c, net) == (NotHandled, c)
  {
  }
}
