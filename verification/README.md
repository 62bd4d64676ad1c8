# Audio tour: a Dafny model of its decision logic

The audio tour app is a React front end for a WordPress backend. Visitors browse tour
items in three sections ("Ons verhaal", "Over het Kantoor", "Onze filosofie"). They play
one item's audio at a time or run a guided tour that plays every item with audio in
section order. A service worker caches API answers, media files and the app shell.

This project models the four pieces of that app that make decisions:

- **The tour sequencer** of `AudioTourList.jsx`, in modules `TourQueue`, `Sequencer` and
  `SequencerLemmas`:
  - tour records are grouped into the three sections, and only `ons_verhaal` is sorted by
    name;
  - the play queue is built from the grouping;
  - the tour button starts, pauses and resumes the tour;
  - the `ended` listener advances the tour;
  - the `error` listener refreshes the source once and retries; the refresh accepts only
    `audio/*` responses;
  - single-item play stops every other element.

  The React state, the registry of audio elements and the attached listener pair form
  one immutable `State`. Every user action and media event is an `Event`. `Next` runs the
  handler, then each effect whose dependency list changed, in declaration order: the
  listener effect, then the step effect. So resuming a paused tour rewinds the current
  item to position 0, because the step effect fires on the change of `tourPlaying`.
- **The request-cache policy** of `service-worker.js`, in modules `CachePolicy` and
  `CachePolicyLemmas`:
  - a priority classifier over the lower-cased URL: API, then media, then same-origin
    shell files, otherwise no response. Each test is a substring test, so `.json` counts
    as `.js` and an extension in the query string counts;
  - the stale-while-revalidate API strategy. Its background write is a separate, later
    step (`ApiRevalidate`);
  - the media strategy, which serves only cached entries with an `audio/` content type.
    Cached images and videos are therefore evicted and fetched again on every request;
  - the cache-first shell strategy.

  Each strategy works on its own map, and the network outcome is a parameter.
- **Media resolution** of `apiCalls.js`, in module `MediaResolution`:
  - the numeric media ids are collected without duplicates, in first-occurrence order;
  - one lookup request is made at the API base with a single trailing `/wp/v2` stripped;
  - the answers form an id-to-media map, where a later record with the same id wins;
  - every `visuals`/`audio` field resolves to a map hit, the inline object it already
    was, or `null`;
  - a failed lookup, or a record without `acf`, rejects the whole load.
- **The card decision tables** of `AudioTourCard.jsx`, in module `TourCard`: `isVideo`,
  the play button's text and enabled state, the click, the video playback mode, the hover
  and `ended` transitions, and which cards register an audio element.

Shared building blocks:

| module | contents |
|---|---|
| `Values` | optional values and JavaScript truthiness |
| `Text` | `startsWith`, `endsWith`, `includes` and ASCII `toLowerCase` on `seq<char>` |
| `Seqs` | `filter` and `[...new Set(xs)]` |
| `Http` | responses and the shared `audio/` content-type test |
| `TourData` | the WordPress records |

Exclusive playback is enforced only by single-item play. Starting or resuming the tour
does not stop an element that single-item play started. `SequencerLemmas.StartLeavesOtherAudioPlaying`
exhibits a state in which two elements play at once.

## Model

| member | source | states |
|---|---|---|
| Values.OrEmpty | frontEndAudioTour/public/service-worker.js:51 | the empty-string fallback of a header: a missing or empty value becomes the empty string, a non-empty one is kept |
| Text.Includes | frontEndAudioTour/public/service-worker.js:45 | `includes` holds exactly when the substring occurs at some position |
| Text.ToLower | frontEndAudioTour/public/service-worker.js:20 | lower-casing keeps the length and lower-cases each character (ASCII letters only) |
| Text.ToLowerIdempotent | frontEndAudioTour/public/service-worker.js:20 | lower-casing an already lower-cased URL changes nothing |
| Text.MissingCharExcludes | frontEndAudioTour/public/service-worker.js:45 | a string that lacks some character of a pattern does not include the pattern |
| Http.IsAudioType | frontEndAudioTour/public/service-worker.js:51-52 | a missing or empty Content-Type never passes; a present one passes exactly when its first six characters are `audio/`, case-sensitively |
| Http.AudioTypeExamples | frontEndAudioTour/src/assets/AudioTourList.jsx:149-150 | `audio/mpeg` passes; `text/html` and `Audio/MPEG` (case-sensitive) do not |
| Seqs.Filter | frontEndAudioTour/src/assets/AudioTourList.jsx:126-128 | the filtered list holds exactly the elements satisfying the predicate and is no longer than the input |
| Seqs.FilterConcat | frontEndAudioTour/src/assets/AudioTourList.jsx:126-128 | filtering the concatenated sections equals concatenating the filtered sections |
| Seqs.Dedup | frontEndAudioTour/src/utils/apiCalls.js:16-22 | `[...new Set(xs)]` has no duplicates and has exactly the elements of `xs` |
| Seqs.DedupPrefix | frontEndAudioTour/src/utils/apiCalls.js:16-22 | first-occurrence order: deduplicating a prefix gives a prefix of the deduplicated whole |
| Seqs.DedupOfDedups | frontEndAudioTour/src/utils/apiCalls.js:32 | deduplicating two deduplicated lists concatenated equals deduplicating the raw concatenation |
| Seqs.DedupWithSet | frontEndAudioTour/src/utils/apiCalls.js:17 | a single pass with a seen-set computes the same list as the first-occurrence definition |
| MediaResolution.NumericIds | frontEndAudioTour/src/utils/apiCalls.js:18-20 | the kept values are exactly the numbers found in that field of some record; non-numbers are dropped |
| MediaResolution.SlotIds | frontEndAudioTour/src/utils/apiCalls.js:16-29 | `visualsIds`/`audioIds` hold each numeric id of their field exactly once and nothing else |
| MediaResolution.SlotIdsPrefix | frontEndAudioTour/src/utils/apiCalls.js:16-29 | ids are in first-occurrence order: the ids of a prefix of the records come first, in order |
| MediaResolution.AllMediaIds | frontEndAudioTour/src/utils/apiCalls.js:32 | `allMediaIds` has no duplicates and holds exactly the ids of `visualsIds` and `audioIds` |
| MediaResolution.AllMediaIdsSpec | frontEndAudioTour/src/utils/apiCalls.js:32 | `allMediaIds` is the deduplication of all numeric visuals ids followed by all numeric audio ids; it is distinct and holds exactly the ids occurring in either field |
| MediaResolution.ApiBase | frontEndAudioTour/src/utils/apiCalls.js:34 | a base ending in `/wp/v2` loses exactly that suffix; any other base is unchanged |
| MediaResolution.ApiBaseStripsOnce | frontEndAudioTour/src/utils/apiCalls.js:34 | only one trailing `/wp/v2` is removed, even when it is doubled |
| MediaResolution.MediaEndpointUnderBase | frontEndAudioTour/src/utils/apiCalls.js:34-36 | the media endpoint is `<base>/media` for a `/wp/v2` base and `<base>/wp/v2/media` otherwise |
| MediaResolution.MediaLookupRequest | frontEndAudioTour/src/utils/apiCalls.js:33-37 | the lookup is issued iff there is a numeric id; it asks for all of them, 100 per page, at the stripped base |
| MediaResolution.MediaMap | frontEndAudioTour/src/utils/apiCalls.js:39-44 | the map's keys are exactly the ids of the lookup's answer |
| MediaResolution.LaterRecordWins | frontEndAudioTour/src/utils/apiCalls.js:39-44 | with duplicate ids in the answer, the entry is built from the last record of that id |
| MediaResolution.Resolve | frontEndAudioTour/src/utils/apiCalls.js:50-60 | the result is `null` or an object; a mapped id becomes the map entry plus `id`; a complete inline object is kept; every other value becomes `null` |
| MediaResolution.ResolveTour | frontEndAudioTour/src/utils/apiCalls.js:48-83 | a record resolves iff it has `acf` (reading `tour.acf.visuals` otherwise throws); id and title are kept |
| MediaResolution.AttachMedia | frontEndAudioTour/src/utils/apiCalls.js:48-83 | the loader fails iff some record lacks `acf`; otherwise the output has the input's length and order, record by record |
| MediaResolution.AttachKeepsOtherFields | frontEndAudioTour/src/utils/apiCalls.js:75-82 | only `acf.visuals` and `acf.audio` of each record differ from the input |
| MediaResolution.LoadTours | frontEndAudioTour/src/utils/apiCalls.js:31-83 | the lookup is issued iff some record has a numeric media field, for all ids at the stripped base; the load succeeds iff every record has `acf` and, when a lookup was issued, its answer is a list; the output has one record per input record |
| MediaResolution.LoadedField | frontEndAudioTour/src/utils/apiCalls.js:39-82 | in a successful load, a numeric field the answer holds becomes `{url, mime_type, id}` from the last answer record with that id; a numeric field the answer lacks, an incomplete object and any other value become `null`; a complete object is kept; nothing else of the record changes |
| TourQueue.SectionOf | frontEndAudioTour/src/assets/AudioTourList.jsx:61-63 | a record belongs to a section iff its `sectie` is one of the three key names |
| TourQueue.ItemOf | frontEndAudioTour/src/assets/AudioTourList.jsx:64-72 | the item keeps the record id, takes the section label, uses `naam` when truthy, else the title; its audio is the `url` of an audio object and absent for any other audio value; visuals, `functie` and `beschrijving` are copied |
| TourQueue.Collect | frontEndAudioTour/src/assets/AudioTourList.jsx:61-74 | a section has at most one item per record, each carrying the section's label |
| TourQueue.CollectMembers | frontEndAudioTour/src/assets/AudioTourList.jsx:61-74 | a section holds exactly the items of the records with that `sectie` |
| TourQueue.CollectConcat | frontEndAudioTour/src/assets/AudioTourList.jsx:61-74 | sections keep record order: collecting over concatenated records concatenates |
| TourQueue.Insert | frontEndAudioTour/src/assets/AudioTourList.jsx:75-77 | inserting into a name-sorted list keeps it sorted and adds exactly the one item |
| TourQueue.SortByName | frontEndAudioTour/src/assets/AudioTourList.jsx:75-77 | the sort result is sorted by the collation and is a permutation of the input |
| TourQueue.GroupTours | frontEndAudioTour/src/assets/AudioTourList.jsx:56-77 | `ons_verhaal` is a sorted permutation of its records' items; the other two sections keep record order exactly |
| TourQueue.BuildQueue | frontEndAudioTour/src/assets/AudioTourList.jsx:126-128 | every queued item has audio |
| TourQueue.QueueBySection | frontEndAudioTour/src/assets/AudioTourList.jsx:126-128 | the queue is the audio-bearing items of each section, concatenated in `SECTION_ORDER` |
| TourQueue.QueueMembers | frontEndAudioTour/src/assets/AudioTourList.jsx:56-128 | an item is queued iff it has audio and some record of one of the three sections produces it; other sections never appear |
| TourQueue.QueueExample | frontEndAudioTour/src/assets/AudioTourList.jsx:126-128 | sections `[x without audio]`, `[y]`, `[z]` give the queue `[y, z]` |
| Sequencer.RefreshAudioSrc | frontEndAudioTour/src/assets/AudioTourList.jsx:143-157 | a fresh source exists iff the request completed with an ok response whose Content-Type starts with `audio/`; a thrown request yields none |
| Sequencer.ListenerEffect | frontEndAudioTour/src/assets/AudioTourList.jsx:160-206 | a new listener pair with a cleared retry flag is attached iff the tour is playing or paused and the current item's audio is registered |
| Sequencer.StepEffect | frontEndAudioTour/src/assets/AudioTourList.jsx:209-219 | when not playing or past the end nothing changes; otherwise the current item becomes active and its registered element plays from 0, with every other element untouched; flags, queue, step and listener are never changed |
| Sequencer.Commit | frontEndAudioTour/src/assets/AudioTourList.jsx:160-219 | the handler's queue, step and pause flag survive the effects; with unchanged dependencies nothing runs; a changed listener dependency leaves a listener iff the tour is under way with a registered current item; a changed step dependency while playing makes the current item active |
| Sequencer.TourStart | frontEndAudioTour/src/assets/AudioTourList.jsx:101-140 | a playing tour pauses, a paused tour resumes, both at the same queue and step; from idle an empty queue changes nothing and a non-empty one plays its first item from step 0; no element is registered or removed |
| Sequencer.HandleEnded | frontEndAudioTour/src/assets/AudioTourList.jsx:173-181 | paused: nothing changes; before the last step: the step grows by one and, when playing, the next item is active and its element restarts from 0; at the last step: the tour stops and no item is active |
| Sequencer.OnError | frontEndAudioTour/src/assets/AudioTourList.jsx:183-197 | an error on an element without the listener changes nothing; a second error of the pair is `handleEnded`; the first error with a good refresh and a successful `play()` keeps the tour, marks the pair and plays the fresh source from 0 |
| Sequencer.HandlePlay | frontEndAudioTour/src/assets/AudioTourList.jsx:80-98 | single play stops and rewinds every other element and toggles the item; tour flags, queue, step and listener are untouched; a missing handle changes only the others |
| Sequencer.TourButtonLabel | frontEndAudioTour/src/assets/AudioTourList.jsx:253-257 | "Tour pauzeren" iff the tour is audible, "Tour hervatten" iff paused, "Tour starten" iff idle |
| SequencerLemmas.InitValid | frontEndAudioTour/src/assets/AudioTourList.jsx:17-21 | the initial state satisfies the sequencer invariant |
| SequencerLemmas.CommitValid | frontEndAudioTour/src/assets/AudioTourList.jsx:160-219 | running the effects on a consistent handler result gives a valid state |
| SequencerLemmas.NextValid | frontEndAudioTour/src/assets/AudioTourList.jsx:80-219 | every event keeps the invariant: never playing and paused at once, the step inside the queue, queued items with audio, the listener on the current registered item |
| SequencerLemmas.RunValid | frontEndAudioTour/src/assets/AudioTourList.jsx:80-219 | every state reached by any sequence of events is valid |
| SequencerLemmas.StartWithEmptyQueue | frontEndAudioTour/src/assets/AudioTourList.jsx:126-129 | starting from idle with no audio item changes no state |
| SequencerLemmas.StartFromIdle | frontEndAudioTour/src/assets/AudioTourList.jsx:126-139 | a start sets the new queue, step 0, playing, not paused and the first item active; that item is rewound and played; other elements are untouched |
| SequencerLemmas.PauseTour | frontEndAudioTour/src/assets/AudioTourList.jsx:102-112 | pausing sets not playing and paused, keeps queue, step and active item, and pauses the current element in place |
| SequencerLemmas.ResumeTour | frontEndAudioTour/src/assets/AudioTourList.jsx:114-125 | resuming sets playing and not paused with queue and step kept; the step effect rewinds the current element to 0 |
| SequencerLemmas.PauseThenResume | frontEndAudioTour/src/assets/AudioTourList.jsx:209-219 | pause then resume keeps queue and step but not the position: the item restarts from 0 |
| SequencerLemmas.EndedAdvancesOrFinishes | frontEndAudioTour/src/assets/AudioTourList.jsx:173-219 | `ended` while not paused advances the step by exactly one and plays the next registered item from 0; after the last step it stops the tour and clears the active item |
| SequencerLemmas.EndedWhilePaused | frontEndAudioTour/src/assets/AudioTourList.jsx:174 | `ended` while paused changes nothing but the ended element |
| SequencerLemmas.ErrorSkipsLikeEnded | frontEndAudioTour/src/assets/AudioTourList.jsx:183-197 | a second error, a failed refresh or a rejected retry `play()` moves the tour exactly as `ended` does |
| SequencerLemmas.HandleEndedSeesOnlyTheView | frontEndAudioTour/src/assets/AudioTourList.jsx:173-181 | how `handleEnded` moves the tour depends only on the tour flags, queue, step and active item |
| SequencerLemmas.ErrorRetriesOnce | frontEndAudioTour/src/assets/AudioTourList.jsx:171-197 | the first error with a good refresh reloads and plays the fresh source from 0 and marks the pair; the pair's next error skips like `ended` |
| SequencerLemmas.PlaySingleIsExclusive | frontEndAudioTour/src/assets/AudioTourList.jsx:80-98 | after single play at most one registered element is playing |
| SequencerLemmas.PlaySingleTwice | frontEndAudioTour/src/assets/AudioTourList.jsx:80-98 | pressing play twice on a registered, non-playing item ends with every element paused and none active |
| SequencerLemmas.StartLeavesOtherAudioPlaying | frontEndAudioTour/src/assets/AudioTourList.jsx:126-139 | starting the tour does not stop an element that single play started: two elements play at once |
| SequencerLemmas.StepNeverSkips | frontEndAudioTour/src/assets/AudioTourList.jsx:173-181 | while the tour is under way no event replaces the queue, and the step stays or grows by one |
| SequencerLemmas.TourButtonLabelMatchesAction | frontEndAudioTour/src/assets/AudioTourList.jsx:253-257 | "Tour pauzeren", "Tour hervatten" and "Tour starten" each show exactly when pressing pauses, resumes or starts, respectively |
| CachePolicy.IncludesAny | frontEndAudioTour/public/service-worker.js:45 | `patterns.some(p => url.includes(p))` holds iff some pattern occurs in the URL |
| CachePolicy.Classify | frontEndAudioTour/public/service-worker.js:25-68 | API iff an API pattern matches; media iff no API pattern and a media extension matches; shell iff neither, a shell extension and the same origin; otherwise no response |
| CachePolicy.ApiRespond | frontEndAudioTour/public/service-worker.js:31-38 | a hit answers with the cached entry; a miss answers with the network response, or `undefined` when the network fails |
| CachePolicy.ApiRevalidate | frontEndAudioTour/public/service-worker.js:32-36 | any arriving response overwrites the entry; a failure writes nothing |
| CachePolicy.MediaStrategy | frontEndAudioTour/public/service-worker.js:47-58 | an audio hit is served with the cache unchanged; otherwise the entry is dropped and the network response stored and served; on failure the reply is rejected and the entry is gone |
| CachePolicy.ShellStrategy | frontEndAudioTour/public/service-worker.js:70-75 | a hit is served with the cache unchanged; a miss stores and serves the network response or is rejected |
| CachePolicy.HandleFetch | frontEndAudioTour/public/service-worker.js:19-80 | only the chosen policy's cache changes, only at the request's key; no reply exactly when no policy applies |
| CachePolicy.CacheName | frontEndAudioTour/public/service-worker.js:1-3 | API opens `audio-tour-api`, media `audio-tour-media`, shell `audio-tour-shell`; passthrough opens none |
| CachePolicy.CacheNamesDistinct | frontEndAudioTour/public/service-worker.js:1-3 | the three policies open three different caches |
| CachePolicyLemmas.ClassifyIgnoresCase | frontEndAudioTour/public/service-worker.js:20 | a URL and its lower-case form are classified alike |
| CachePolicyLemmas.OriginDecidesOnlyShell | frontEndAudioTour/public/service-worker.js:65-68 | the origin affects only the choice between the shell cache and no response |
| CachePolicyLemmas.QueryStringExtensionMatches | frontEndAudioTour/public/service-worker.js:45 | `https://x.nl/play?f=a.mp3` is claimed by the media cache from any origin |
| CachePolicyLemmas.UpperCaseExtensionMatches | frontEndAudioTour/public/service-worker.js:20 | `HTTPS://X.NL/A.MP3` is classified as media |
| CachePolicyLemmas.JsonCountsAsShell | frontEndAudioTour/public/service-worker.js:66 | a same-origin `d.json` goes to the shell cache because it contains `.js` |
| CachePolicyLemmas.CrossOriginStylesheetPassesThrough | frontEndAudioTour/public/service-worker.js:65-68 | a `.css` file of another origin is not answered |
| CachePolicyLemmas.ApiBeatsMedia | frontEndAudioTour/public/service-worker.js:25-28 | an API URL carrying `.jpg` is still handled by the API policy |
| CachePolicyLemmas.ApiHitIgnoresNetwork | frontEndAudioTour/public/service-worker.js:38 | a hit's answer does not depend on the network outcome |
| CachePolicyLemmas.ApiServesStaleThenFresh | frontEndAudioTour/public/service-worker.js:31-38 | the first request gets the stale entry; after the revalidation the next one gets the new response |
| CachePolicyLemmas.ApiStoresErrorResponses | frontEndAudioTour/public/service-worker.js:33-35 | a non-ok response overwrites the entry |
| CachePolicyLemmas.ApiOfflineMissIsUndefined | frontEndAudioTour/public/service-worker.js:37-38 | offline with no entry, the page gets `undefined` and the cache is unchanged |
| CachePolicyLemmas.MediaNonAudioNeverFromCache | frontEndAudioTour/public/service-worker.js:49-58 | a cached non-audio entry is never served: the reply depends on the network alone, and offline the entry is deleted |
| CachePolicyLemmas.MediaImagesRefetchedEveryTime | frontEndAudioTour/public/service-worker.js:48-58 | after storing an image, the next request for it still goes to the network |
| CachePolicyLemmas.MediaAudioCachedAfterFetch | frontEndAudioTour/public/service-worker.js:48-57 | after storing an audio response, later requests are served from the cache whatever the network does |
| CachePolicyLemmas.MediaMissStoresAnything | frontEndAudioTour/public/service-worker.js:56-57 | a miss stores and serves the network response without checking status or type |
| CachePolicyLemmas.ShellCacheFirstForever | frontEndAudioTour/public/service-worker.js:71-75 | after one stored response, the shell entry is served forever and never refreshed |
| CachePolicyLemmas.ShellStoresErrorResponses | frontEndAudioTour/public/service-worker.js:73-74 | a shell miss stores a non-ok response |
| CachePolicyLemmas.SegregatedDisjoint | frontEndAudioTour/public/service-worker.js:1-3 | segregated caches never share a key |
| CachePolicyLemmas.HandleFetchKeepsSegregated | frontEndAudioTour/public/service-worker.js:19-80 | each cache holds only entries its own policy claims, and the fetch handler keeps it that way |
| CachePolicyLemmas.PassthroughTouchesNothing | frontEndAudioTour/public/service-worker.js:64-80 | a request of no policy gets no reply and changes no cache |
| TourCard.PropsOf | frontEndAudioTour/src/assets/pageElements/AudioTourSection.jsx:19-20 | a card is active iff `playingIndex` is its id; it sees the tour as playing iff the tour plays and is not paused |
| TourCard.IsVideo | frontEndAudioTour/src/assets/pageElements/AudioTourCard.jsx:15-18 | only an object whose MIME type starts with `video`, case-sensitively, is a video; a number, `null` or any other value is not |
| TourCard.IsVideoExamples | frontEndAudioTour/src/assets/pageElements/AudioTourCard.jsx:15-18 | `video/mp4` is a video; `image/png` and `Video/MP4` are not |
| TourCard.ButtonOf | frontEndAudioTour/src/assets/pageElements/AudioTourCard.jsx:70-79 | the text is "Niet beschikbaar" iff the item has no audio; the button is disabled iff active during the tour, or inactive without audio |
| TourCard.ButtonTable | frontEndAudioTour/src/assets/pageElements/AudioTourCard.jsx:70-79 | gives each row of the text and enabled-state table, including the enabled "Niet beschikbaar" of an active item without audio outside the tour |
| TourCard.BannerMatchesButton | frontEndAudioTour/src/assets/pageElements/AudioTourCard.jsx:118-120 | for an item with audio, the now-playing banner shows iff the button reads "Speelt af" |
| TourCard.Click | frontEndAudioTour/src/assets/pageElements/AudioTourCard.jsx:65-68 | a disabled button or an item without audio changes nothing; otherwise the click is single-item play |
| TourCard.NoAudioClickIsNoOp | frontEndAudioTour/src/assets/pageElements/AudioTourCard.jsx:65-68 | clicking a card without audio never changes the state |
| TourCard.TourItemLocked | frontEndAudioTour/src/assets/pageElements/AudioTourCard.jsx:73-75 | while the tour is audible the active card's button is disabled and a click does nothing |
| TourCard.PauseButtonPauses | frontEndAudioTour/src/assets/pageElements/AudioTourCard.jsx:76-78 | "Pauzeer" on a playing element pauses it, clears the active item and stops every other element |
| TourCard.PauseButtonOnPausedTourPlays | frontEndAudioTour/src/assets/pageElements/AudioTourCard.jsx:76-78 | on the active item of a paused tour, "Pauzeer" starts the audio instead of pausing it |
| TourCard.VideoModeOf | frontEndAudioTour/src/assets/pageElements/AudioTourCard.jsx:28-38 | the video loops iff the card is active during the tour; it plays once iff otherwise hovered; else it is stopped |
| TourCard.ApplyVideoMode | frontEndAudioTour/src/assets/pageElements/AudioTourCard.jsx:28-38 | paused iff stopped, looping iff loop-play; a stop rewinds and playing keeps the position |
| TourCard.SyncVideo | frontEndAudioTour/src/assets/pageElements/AudioTourCard.jsx:24-41 | the effect drives only a video, into the mode of the current props and hover flag |
| TourCard.MouseEnter | frontEndAudioTour/src/assets/pageElements/AudioTourCard.jsx:59-63 | hover is set except on the active card of an audible tour, where it is unchanged |
| TourCard.VideoEnded | frontEndAudioTour/src/assets/pageElements/AudioTourCard.jsx:47-52 | `ended` without hover changes nothing; with hover it clears the flag |
| TourCard.HoverPlaysOnce | frontEndAudioTour/src/assets/pageElements/AudioTourCard.jsx:59-63 | hovering a video (outside the tour's active card) plays it once, without loop, from its current position |
| TourCard.HoverRunEndsStopped | frontEndAudioTour/src/assets/pageElements/AudioTourCard.jsx:47-52 | the hover run ends paused, rewound, not looping and not hovered |
| TourCard.TourVideoIgnoresHover | frontEndAudioTour/src/assets/pageElements/AudioTourCard.jsx:28-30 | on the active card of an audible tour, hovering changes nothing and the video loops |
| TourCard.AudioRegistration | frontEndAudioTour/src/assets/pageElements/AudioTourCard.jsx:20-22 | a card registers its element iff it has audio; existing registrations are kept |
| TourCard.QueueRegistered | frontEndAudioTour/src/assets/pageElements/AudioTourCard.jsx:147-154 | mounting the cards of a queue registers an element for every queued item |

## Left out

- React rendering, JSX markup, the description toggle, and the scroll-and-focus effect
  (`AudioTourList.jsx:222-231`): presentation with no decision content.
- Media preloading (`AudioTourList.jsx:31-53`), `fetch`, blobs, `URL.createObjectURL` and
  the `Date.now()` cache-buster: browser I/O. The refresh and network outcomes are
  parameters (`RefreshFetch`, `Net`).
- The two record requests of `fetchAudioTours` (`apiCalls.js:6-13`), the `X-WP-Total`
  count and HTTP errors on them: network I/O. The model starts from the records
  received. The lookup answer's truncation at 100 records per page is not modelled; the
  answer is any list of records, or `None` for every way the lookup can fail (a network
  failure, an error object instead of a list, invalid JSON), which all reject the whole
  load because `mediaRes.ok` is never checked.
- Real asynchrony: the background API revalidation, the awaited refresh in `handleError`
  and races between events. Each event and each background write is one sequential step.
- TourQueue.SortByName: `localeCompare("nl", {sensitivity: "base"})` is an abstract total
  preorder on names. The contract states sortedness and permutation, not stability.
- Text.ToLower: only ASCII letters are lower-cased; JavaScript's full Unicode case
  mapping is not modelled.
- URL parsing: `new URL(url).origin` is a field of `Request` (or the `originOf`
  parameter of the segregation invariant), not computed from the URL.
- The cache key is the request URL. The request method, `Vary` headers and a failing
  `cache.put` are not modelled.
- `play()` is taken to succeed except in the retry of `handleError`, where its rejection
  is the `retryPlays` parameter. A swallowed rejection of the video `play()` is also
  taken to succeed.
- JavaScript numbers are integers here: non-integer ids and `NaN` do not arise.
- Section keys are looked up among the three names only. A `sectie` such as
  `"constructor"` would hit an inherited property of the `grouped` object in JavaScript
  and make `push` throw.
- React dependency lists compare by reference; the model compares by value. The one
  operation that replaces the queue (start from idle) always changes `tourPlaying` too,
  so both effects fire either way.
- `handleAudioRef` overwrites the registry entry on every render. The model registers an
  element once, because a card's element stays the same object across renders.
- A video `ended` event while looping does not occur; only hover runs end.
- `main.jsx` (service-worker registration), `copy404.js` (build glue), `App.jsx`,
  `LoadingBar.jsx` and `AudioTourSection.jsx` (beyond the two props it computes for
  each card) are not part of this model.
