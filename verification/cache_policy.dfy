/** The fetch handler of `public/service-worker.js`: a priority-ordered classifier over the
    lower-cased request URL and three cache strategies over three named caches.

    A network fetch is a parameter (`Net`): a response of any status, or a failure. The
    background revalidation of the API strategy is a separate, later step: `ApiRespond`
    is what the page receives, `ApiRevalidate` is the write that lands afterwards. */
module CachePolicy {
  import opened Values
  import opened Text
  import opened Http

  const MEDIA_CACHE: string := "audio-tour-media"
  const SHELL_CACHE: string := "audio-tour-shell"
  const API_CACHE: string := "audio-tour-api"

  const API_PATTERNS: seq<string> := ["/wp-json/wp/v2/audio_tour", "/wp-json/wp/v2/media"]
  const MEDIA_FILE_TYPES: seq<string> := [".mp3", ".wav", ".mp4", ".webm", ".jpg", ".jpeg", ".png", ".gif", ".svg"]
  const SHELL_FILE_TYPES: seq<string> := [".js", ".css", ".html"]

  /** An intercepted request: its URL and the origin the URL parser reports for it. */
  datatype Request = Request(url: string, origin: string)

  /** The outcome of `fetch(event.request)`. */
  datatype Net = NetResponse(response: Response) | NetFailure

  /** The strategy that claims a request; `Passthrough` means no `respondWith` call. */
  datatype Policy = ApiPolicy | MediaPolicy | ShellPolicy | Passthrough

  /** What the page receives: a response, a promise that resolved to `undefined`, a
      rejected promise, or the browser's own handling. */
  datatype Reply = Served(response: Response) | ServedUndefined | Rejected | NotHandled

  /** A cache store: request URL to stored response. */
  type Store = map<string, Response>

  /** The three named caches. */
  datatype Caches = Caches(shell: Store, media: Store, api: Store)

  /** `patterns.some((p) => url.includes(p))` */
  function IncludesAny(url: string, patterns: seq<string>): (r: bool)
    ensures r <==> exists k :: 0 <= k < |patterns| && Includes(url, patterns[k])
  {
    if |patterns| == 0 then false
    else
      assert forall k :: 0 < k < |patterns| ==> patterns[k] == patterns[1..][k - 1];
      Includes(url, patterns[0]) || IncludesAny(url, patterns[1..])
  }

  predicate IsApiUrl(lower: string) { IncludesAny(lower, API_PATTERNS) }
  predicate IsMediaUrl(lower: string) { IncludesAny(lower, MEDIA_FILE_TYPES) }
  predicate IsShellUrl(lower: string) { IncludesAny(lower, SHELL_FILE_TYPES) }

  /** The fetch handler's decision: API first, then media, then same-origin shell files,
      otherwise no response; every test is a substring test on the lower-cased URL. */
  function Classify(req: Request, selfOrigin: string): (p: Policy)
    ensures p == ApiPolicy <==> IsApiUrl(ToLower(req.url))
    ensures p == MediaPolicy <==> !IsApiUrl(ToLower(req.url)) && IsMediaUrl(ToLower(req.url))
    ensures p == ShellPolicy <==> !IsApiUrl(ToLower(req.url)) && !IsMediaUrl(ToLower(req.url))
                                  && IsShellUrl(ToLower(req.url)) && req.origin == selfOrigin
  {
    var url := ToLower(req.url);
    if IsApiUrl(url) then ApiPolicy
    else if IsMediaUrl(url) then MediaPolicy
    else if IsShellUrl(url) && req.origin == selfOrigin then ShellPolicy
    else Passthrough
  }

  /** The response the API strategy gives the page: the cached entry when there is one,
      else the network response, else (network failure, nothing cached) `undefined`. */
  function ApiRespond(store: Store, key: string, net: Net): (r: Reply)
    ensures key in store ==> r == Served(store[key])
    ensures key !in store && net.NetResponse? ==> r == Served(net.response)
    ensures key !in store && net.NetFailure? ==> r == ServedUndefined
  {
    if key in store then Served(store[key])
    else match net
      case NetResponse(resp) => Served(resp)
      case NetFailure => ServedUndefined
  }

  /** The background write of the API strategy: any response that arrives overwrites the
      entry, whatever its status; a failure writes nothing. */
  function ApiRevalidate(store: Store, key: string, net: Net): (r: Store)
    ensures net.NetResponse? ==> r == store[key := net.response]
    ensures net.NetFailure? ==> r == store
  {
    match net
    case NetResponse(resp) => store[key := resp]
    case NetFailure => store
  }

  /** The media strategy: a cached entry with an audio `Content-Type` is served and the
      store left alone; any other entry is deleted; then the network response is stored
      and served, or, on failure, the reply is a rejection with the entry gone. */
  function MediaStrategy(store: Store, key: string, net: Net): (r: (Reply, Store))
    ensures key in store && IsAudioType(store[key].contentType) ==> r == (Served(store[key]), store)
    ensures !(key in store && IsAudioType(store[key].contentType)) && net.NetResponse? ==>
      r == (Served(net.response), store[key := net.response])
    ensures !(key in store && IsAudioType(store[key].contentType)) && net.NetFailure? ==>
      r == (Rejected, store - {key})
  {
    if key in store && IsAudioType(store[key].contentType) then (Served(store[key]), store)
    else
      var cleared := store - {key};
      match net
      case NetResponse(resp) =>
        assert cleared[key := resp] == store[key := resp];
        (Served(resp), cleared[key := resp])
      case NetFailure => (Rejected, cleared)
  }

  /** The shell strategy: cache first; on a miss the network response is stored and
      served, and a failure is a rejection. */
  function ShellStrategy(store: Store, key: string, net: Net): (r: (Reply, Store))
    ensures key in store ==> r == (Served(store[key]), store)
    ensures key !in store && net.NetResponse? ==> r == (Served(net.response), store[key := net.response])
    ensures key !in store && net.NetFailure? ==> r == (Rejected, store)
  {
    if key in store then (Served(store[key]), store)
    else match net
      case NetResponse(resp) => (Served(resp), store[key := resp])
      case NetFailure => (Rejected, store)
  }

  /** The fetch handler for one request: classify, then run that strategy on its own
      named cache, with the API revalidation applied after the reply. */
  function HandleFetch(req: Request, selfOrigin: string, c: Caches, net: Net): (r: (Reply, Caches))
    ensures Classify(req, selfOrigin) != ApiPolicy ==> r.1.api == c.api
    ensures Classify(req, selfOrigin) != MediaPolicy ==> r.1.media == c.media
    ensures Classify(req, selfOrigin) != ShellPolicy ==> r.1.shell == c.shell
    ensures Classify(req, selfOrigin) == Passthrough <==> r.0 == NotHandled
    ensures r.1.api.Keys <= c.api.Keys + {req.url}
    ensures r.1.media.Keys <= c.media.Keys + {req.url}
    ensures r.1.shell.Keys <= c.shell.Keys + {req.url}
    ensures forall k :: k != req.url && k in c.api ==> k in r.1.api && r.1.api[k] == c.api[k]
    ensures forall k :: k != req.url && k in c.media ==> k in r.1.media && r.1.media[k] == c.media[k]
    ensures forall k :: k != req.url && k in c.shell ==> k in r.1.shell && r.1.shell[k] == c.shell[k]
  {
    match Classify(req, selfOrigin)
    case ApiPolicy =>
      (ApiRespond(c.api, req.url, net), c.(api := ApiRevalidate(c.api, req.url, net)))
    case MediaPolicy =>
      var (reply, store) := MediaStrategy(c.media, req.url, net);
      (reply, c.(media := store))
    case ShellPolicy =>
      var (reply, store) := ShellStrategy(c.shell, req.url, net);
      (reply, c.(shell := store))
    case Passthrough => (NotHandled, c)
  }

  /** The name of the cache each policy opens. */
  function CacheName(p: Policy): (name: Option<string>)
    ensures p == Passthrough <==> name.None?
    ensures p == ApiPolicy ==> name == Some("audio-tour-api")
    ensures p == MediaPolicy ==> name == Some("audio-tour-media")
    ensures p == ShellPolicy ==> name == Some("audio-tour-shell")
  {
    match p
    case ApiPolicy => Some(API_CACHE)
    case MediaPolicy => Some(MEDIA_CACHE)
    case ShellPolicy => Some(SHELL_CACHE)
    case Passthrough => None
  }

  /** The three policies open three different caches, so no entry is ever shared between
      them and the caches can be modelled as separate stores. */
  lemma CacheNamesDistinct(p: Policy, q: Policy)
    requires p != q && p != Passthrough && q != Passthrough
    ensures CacheName(p).Some? && CacheName(q).Some?
    ensures CacheName(p).value != CacheName(q).value
  {
    assert API_CACHE[13] != MEDIA_CACHE[13] && MEDIA_CACHE[11] != SHELL_CACHE[11] && API_CACHE[11] != SHELL_CACHE[11];
  }
}
