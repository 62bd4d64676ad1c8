/** The tour sequencer of `AudioTourList.jsx` as a state machine.

    The React state (`tourPlaying`, `tourPaused`, `tourQueue`, `tourStep`, `playingIndex`),
    the registry of audio elements (`audioRefs`) and the `ended`/`error` listener that the
    listener effect attaches are one immutable `State`. Every user action and media event is
    an `Event`; `Next` applies its handler and then the effects whose dependencies changed,
    in declaration order: the listener effect, then the step effect. The network answer of
    the refresh and the outcome of the retried `play()` are event parameters. */
module Sequencer {
  import opened Values
  import opened Http
  import opened TourQueue

  /** An audio element as the sequencer sees it: `paused`, `currentTime`, `src`. */
  datatype Handle = Handle(paused: bool, position: nat, src: string)

  /** The listener pair attached to the current item's audio element: the id of that item
      and the closure's `retried` flag. A new pair (with `retried` false) is attached every
      time the listener effect runs. */
  datatype Listener = Listener(target: int, retried: bool)

  datatype State = State(
    tourPlaying: bool,
    tourPaused: bool,
    tourQueue: seq<Item>,
    tourStep: nat,
    playingIndex: Option<int>,
    audio: map<int, Handle>,
    listener: Option<Listener>)

  /** The state after the first render: idle, empty queue, nothing registered. */
  const Init: State := State(false, false, [], 0, None, map[], None)

  /** `audio.pause()` */
  function Pause(h: Handle): Handle { h.(paused := true) }

  /** `audio.play()`, assumed to start playback. */
  function Play(h: Handle): Handle { h.(paused := false) }

  /** `audio.pause(); audio.currentTime = 0` */
  function Stop(h: Handle): Handle { h.(paused := true, position := 0) }

  /** `audio.currentTime = 0; audio.play()` */
  function Restart(h: Handle): Handle { h.(paused := false, position := 0) }

  /** Apply `f` to the handle of `id` when one is registered (`if (audio) ...`). */
  function Update(audio: map<int, Handle>, id: int, f: Handle -> Handle): (r: map<int, Handle>)
    ensures r.Keys == audio.Keys
    ensures id in audio ==> r[id] == f(audio[id])
    ensures forall k :: k in audio && k != id ==> r[k] == audio[k]
  {
    if id in audio then audio[id := f(audio[id])] else audio
  }

  /** `tourQueue[tourStep]`, absent when the step is out of range. */
  function CurrentItem(s: State): (r: Option<Item>)
    ensures r.Some? <==> s.tourStep < |s.tourQueue|
    ensures r.Some? ==> r.value == s.tourQueue[s.tourStep]
  {
    if s.tourStep < |s.tourQueue| then Some(s.tourQueue[s.tourStep]) else None
  }

  /** `tourPlaying && !tourPaused`, the `isTourPlaying` the cards receive. */
  predicate TourAudible(s: State) {
    s.tourPlaying && !s.tourPaused
  }

  /** The refresh request's outcome: it threw (bad URL, network failure), or it completed
      with a response whose body became the object URL `objectUrl`. */
  datatype RefreshFetch = FetchThrew | FetchDone(response: Response, objectUrl: string)

  /** `refreshAudioSrc`: a fresh source only for an ok response whose `Content-Type`
      starts with `audio/`; `null` for everything else, a thrown request included. */
  function RefreshAudioSrc(f: RefreshFetch): (src: Option<string>)
    ensures src.Some? <==> f.FetchDone? && f.response.ok && IsAudioType(f.response.contentType)
    ensures src.Some? ==> src.value == f.objectUrl
  {
    match f
    case FetchThrew => None
    case FetchDone(r, url) =>
      if !r.ok || !IsAudioType(r.contentType) then None else Some(url)
  }

  /** The listener effect (the one on `[tourPlaying, tourPaused, tourQueue, tourStep]`):
      remove the old listener pair and, while the tour is playing or paused, attach a new one
      to the current item's registered audio; a step past the end stops the tour. */
  function ListenerEffect(s: State): (r: State)
    ensures r.tourQueue == s.tourQueue && r.tourStep == s.tourStep && r.audio == s.audio
    ensures r.tourPaused == s.tourPaused
    ensures r.listener.Some? <==> (s.tourPlaying || s.tourPaused) && CurrentItem(s).Some?
                                   && CurrentItem(s).value.id in s.audio
    ensures r.listener.Some? ==> r.listener.value == Listener(CurrentItem(s).value.id, false)
  {
    if (!s.tourPlaying && !s.tourPaused) || |s.tourQueue| == 0 then
      s.(listener := None)
    else if s.tourStep >= |s.tourQueue| then
      s.(tourPlaying := false, playingIndex := None, listener := None)
    else if s.tourQueue[s.tourStep].id !in s.audio then
      s.(listener := None)
    else
      s.(listener := Some(Listener(s.tourQueue[s.tourStep].id, false)))
  }

  /** The step effect (the one on `[tourStep, tourPlaying, tourQueue]`): while the tour
      plays, the current item becomes active and its audio restarts from position zero. */
  function StepEffect(s: State): (r: State)
    ensures r.tourPlaying == s.tourPlaying && r.tourPaused == s.tourPaused
    ensures r.tourQueue == s.tourQueue && r.tourStep == s.tourStep && r.listener == s.listener
    ensures r.audio.Keys == s.audio.Keys
    ensures !s.tourPlaying || s.tourStep >= |s.tourQueue| ==> r == s
    ensures s.tourPlaying && s.tourStep < |s.tourQueue| ==>
      var id := s.tourQueue[s.tourStep].id;
      && r.playingIndex == Some(id)
      && (id in s.audio ==> r.audio[id] == s.audio[id].(paused := false, position := 0))
      && (forall k :: k in s.audio && k != id ==> r.audio[k] == s.audio[k])
  {
    if !s.tourPlaying || |s.tourQueue| == 0 || s.tourStep >= |s.tourQueue| then s
    else
      var id := s.tourQueue[s.tourStep].id;
      s.(playingIndex := Some(id), audio := Update(s.audio, id, Restart))
  }

  /** The dependency list of the listener effect. */
  function ListenerDeps(s: State): (bool, bool, seq<Item>, nat) {
    (s.tourPlaying, s.tourPaused, s.tourQueue, s.tourStep)
  }

  /** The dependency list of the step effect. */
  function StepDeps(s: State): (nat, bool, seq<Item>) {
    (s.tourStep, s.tourPlaying, s.tourQueue)
  }

  /** Commit the state a handler produced: run each effect whose dependency list changed,
      the listener effect first, then the step effect. The handler's queue, step and pause
      flag survive; nothing changed means nothing runs; a changed listener dependency
      re-attaches exactly when the current item has registered audio; a changed step
      dependency while playing activates the current item. */
  function Commit(prev: State, next: State): (r: State)
    ensures r.tourQueue == next.tourQueue && r.tourStep == next.tourStep && r.tourPaused == next.tourPaused
    ensures r.audio.Keys == next.audio.Keys
    ensures r.tourPlaying ==> next.tourPlaying
    ensures ListenerDeps(prev) == ListenerDeps(next) ==> r == next
    ensures ListenerDeps(prev) != ListenerDeps(next) ==>
      (r.listener.Some? <==> (next.tourPlaying || next.tourPaused) && next.tourStep < |next.tourQueue|
                             && next.tourQueue[next.tourStep].id in next.audio)
    ensures StepDeps(prev) != StepDeps(next) && next.tourPlaying && next.tourStep < |next.tourQueue| ==>
      r.tourPlaying && r.playingIndex == Some(next.tourQueue[next.tourStep].id)
  {
    var afterListener := if ListenerDeps(prev) != ListenerDeps(next) then ListenerEffect(next) else next;
    if StepDeps(prev) != StepDeps(next) then StepEffect(afterListener) else afterListener
  }


  /** `handleTourStart` with the queue built from the current grouping `g`. */
  function TourStart(s: State, g: Grouped): (r: State)
    ensures r.audio.Keys == s.audio.Keys
    ensures TourAudible(s) ==>
      !r.tourPlaying && r.tourPaused && r.tourQueue == s.tourQueue && r.tourStep == s.tourStep
    ensures s.tourPaused ==> !r.tourPaused && r.tourQueue == s.tourQueue && r.tourStep == s.tourStep
    ensures s.tourPaused && s.tourStep < |s.tourQueue| ==> TourAudible(r)
    ensures !s.tourPlaying && !s.tourPaused && |BuildQueue(g)| == 0 ==> r == s
    ensures !s.tourPlaying && !s.tourPaused && |BuildQueue(g)| > 0 ==>
      && r.tourQueue == BuildQueue(g) && r.tourStep == 0 && TourAudible(r)
      && r.playingIndex == Some(BuildQueue(g)[0].id)
  {
    if s.tourPlaying && !s.tourPaused then
      var audio :=
        match CurrentItem(s)
        case Some(it) =>
          if it.id in s.audio && !s.audio[it.id].paused then Update(s.audio, it.id, Pause) else s.audio
        case None => s.audio;
      Commit(s, s.(tourPaused := true, tourPlaying := false, audio := audio))
    else if s.tourPaused then
      var audio :=
        match CurrentItem(s)
        case Some(it) =>
          if it.id in s.audio && s.audio[it.id].paused then Update(s.audio, it.id, Play) else s.audio
        case None => s.audio;
      Commit(s, s.(tourPaused := false, tourPlaying := true, audio := audio))
    else
      var queue := BuildQueue(g);
      if |queue| == 0 then s
      else
        var id := queue[0].id;
        Commit(s, s.(tourQueue := queue, tourStep := 0, tourPlaying := true, tourPaused := false,
                     playingIndex := Some(id), audio := Update(s.audio, id, Restart)))
  }

  /** The `handleEnded` closure: advance one step, or finish after the last one; nothing
      while the tour is paused. */
  function HandleEnded(s: State): (r: State)
    ensures r.tourQueue == s.tourQueue && r.tourPaused == s.tourPaused && r.audio.Keys == s.audio.Keys
    ensures s.tourPaused ==> r == s
    ensures !s.tourPaused && s.tourStep + 1 < |s.tourQueue| ==>
      r.tourStep == s.tourStep + 1 && r.tourPlaying == s.tourPlaying
    ensures !s.tourPaused && s.tourStep + 1 < |s.tourQueue| && s.tourPlaying ==>
      var id := s.tourQueue[s.tourStep + 1].id;
      && r.playingIndex == Some(id)
      && (id in s.audio ==> r.audio[id] == s.audio[id].(paused := false, position := 0))
    ensures !s.tourPaused && s.tourStep + 1 >= |s.tourQueue| ==>
      r.tourStep == s.tourStep && !r.tourPlaying && r.playingIndex == None
  {
    if s.tourPaused then s
    else if s.tourStep + 1 < |s.tourQueue| then Commit(s, s.(tourStep := s.tourStep + 1))
    else Commit(s, s.(tourPlaying := false, playingIndex := None))
  }

  /** Whether the listener pair is attached to the audio of item `id`. */
  predicate ListensTo(s: State, id: int) {
    s.listener.Some? && s.listener.value.target == id
  }

  /** The `ended` event of the audio of item `id`: the element pauses at its end, and the
      tour reacts when its listener is attached there. */
  function OnEnded(s: State, id: int): State {
    var s1 := s.(audio := Update(s.audio, id, Pause));
    if ListensTo(s, id) then HandleEnded(s1) else s1
  }

  /** The `error` event of the audio of item `id` (`handleError`): the first error of a
      listener pair refreshes the source and retries `play()`; a failed refresh, a
      rejected retry, or any later error of the same pair is handled as `ended`. */
  function OnError(s: State, id: int, refresh: RefreshFetch, retryPlays: bool): (r: State)
    ensures r.tourQueue == s.tourQueue && r.audio.Keys == s.audio.Keys
    ensures !ListensTo(s, id) ==> r == s
    ensures ListensTo(s, id) && s.listener.value.retried ==> r == HandleEnded(s)
    ensures ListensTo(s, id) && !s.listener.value.retried && RefreshAudioSrc(refresh).Some? && retryPlays ==>
      && (r.tourPlaying, r.tourPaused, r.tourStep, r.playingIndex)
         == (s.tourPlaying, s.tourPaused, s.tourStep, s.playingIndex)
      && r.listener == Some(Listener(id, true))
      && (id in s.audio ==> r.audio[id] == Handle(false, 0, RefreshAudioSrc(refresh).value))
      && (forall k :: k in s.audio && k != id ==> r.audio[k] == s.audio[k])
  {
    if !ListensTo(s, id) then s
    else if s.listener.value.retried then HandleEnded(s)
    else
      var s1 := s.(listener := Some(s.listener.value.(retried := true)));
      match RefreshAudioSrc(refresh)
      case None => HandleEnded(s1)
      case Some(src) =>
        var loaded := Update(s1.audio, id, (h: Handle) => Handle(true, 0, src));
        if retryPlays then s1.(audio := Update(loaded, id, Play))
        else HandleEnded(s1.(audio := loaded))
  }

  /** `handlePlay(id)`: stop every other registered audio, then toggle `id`. */
  function HandlePlay(s: State, id: int): (r: State)
    ensures (r.tourPlaying, r.tourPaused, r.tourQueue, r.tourStep, r.listener)
            == (s.tourPlaying, s.tourPaused, s.tourQueue, s.tourStep, s.listener)
    ensures r.audio.Keys == s.audio.Keys
    ensures forall k :: k in s.audio && k != id ==> r.audio[k] == s.audio[k].(paused := true, position := 0)
    ensures id !in s.audio ==> r.playingIndex == s.playingIndex
    ensures id in s.audio && s.playingIndex == Some(id) && !s.audio[id].paused ==>
      r.playingIndex == None && r.audio[id] == s.audio[id].(paused := true)
    ensures id in s.audio && !(s.playingIndex == Some(id) && !s.audio[id].paused) ==>
      r.playingIndex == Some(id) && r.audio[id] == s.audio[id].(paused := false)
  {
    var others := map k | k in s.audio :: if k != id then Stop(s.audio[k]) else s.audio[k];
    if id !in s.audio then s.(audio := others)
    else if s.playingIndex == Some(id) && !s.audio[id].paused then
      s.(audio := others[id := Pause(s.audio[id])], playingIndex := None)
    else
      s.(audio := others[id := Play(s.audio[id])], playingIndex := Some(id))
  }

  /** `handleAudioRef(id, el)` for a newly mounted card's audio element. */
  function RegisterAudio(s: State, id: int, src: string): State {
    if id in s.audio then s else s.(audio := s.audio[id := Handle(true, 0, src)])
  }

  /** Playback moves a playing element's position. */
  function Progress(s: State, id: int, position: nat): State {
    if id in s.audio && !s.audio[id].paused then
      s.(audio := Update(s.audio, id, (h: Handle) => h.(position := position)))
    else s
  }

  datatype Event =
    | TourButton(grouped: Grouped)
    | AudioEnded(id: int)
    | AudioError(id: int, refresh: RefreshFetch, retryPlays: bool)
    | PlaySingle(id: int)
    | Register(id: int, src: string)
    | TimeUpdate(id: int, position: nat)

  function Next(s: State, e: Event): State {
    match e
    case TourButton(g) => TourStart(s, g)
    case AudioEnded(id) => OnEnded(s, id)
    case AudioError(id, f, ok) => OnError(s, id, f, ok)
    case PlaySingle(id) => HandlePlay(s, id)
    case Register(id, src) => RegisterAudio(s, id, src)
    case TimeUpdate(id, p) => Progress(s, id, p)
  }

  /** The tour button's text: it names what pressing the button does next. */
  function TourButtonLabel(s: State): (text: string)
    ensures text == "Tour pauzeren" <==> TourAudible(s)
    ensures text == "Tour hervatten" <==> s.tourPaused
    ensures text == "Tour starten" <==> !s.tourPlaying && !s.tourPaused
  {
    if s.tourPlaying && !s.tourPaused then "Tour pauzeren"
    else if s.tourPaused then "Tour hervatten"
    else "Tour starten"
  }
}
