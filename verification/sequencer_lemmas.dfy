/** Properties of the tour sequencer: the invariant every reachable state keeps, and what
    each event does to the tour (`AudioTourList.jsx`). */
module SequencerLemmas {
  import opened Values
  import opened TourData
  import opened TourQueue
  import opened Sequencer

  /** What every reachable state satisfies: never playing and paused at once; an empty
      queue means an idle tour; the step indexes the queue; queued items have audio; and an
      attached listener sits on the current item's registered audio. */
  ghost predicate Valid(s: State) {
    && !(s.tourPlaying && s.tourPaused)
    && (|s.tourQueue| == 0 ==> !s.tourPlaying && !s.tourPaused && s.listener.None?)
    && (|s.tourQueue| > 0 ==> s.tourStep < |s.tourQueue|)
    && (forall x :: x in s.tourQueue ==> HasAudio(x))
    && (s.listener.Some? ==>
          && (s.tourPlaying || s.tourPaused)
          && CurrentItem(s).Some?
          && s.listener.value.target == CurrentItem(s).value.id
          && s.listener.value.target in s.audio)
  }

  /** The tour as the user sees it: flags, queue, step and active item. */
  function TourView(s: State): (bool, bool, seq<Item>, nat, Option<int>) {
    (s.tourPlaying, s.tourPaused, s.tourQueue, s.tourStep, s.playingIndex)
  }

  /** Apply a sequence of events in order. */
  function Run(s: State, events: seq<Event>): State
    decreases |events|
  {
    if |events| == 0 then s else Run(Next(s, events[0]), events[1..])
  }

  lemma InitValid()
    ensures Valid(Init)
  {
  }

  /** Committing a state whose queue/step/flags are consistent yields a valid state. */
  lemma CommitValid(prev: State, next: State)
    requires !(next.tourPlaying && next.tourPaused)
    requires |next.tourQueue| == 0 ==> !next.tourPlaying && !next.tourPaused && next.listener.None?
    requires |next.tourQueue| > 0 ==> next.tourStep < |next.tourQueue|
    requires forall x :: x in next.tourQueue ==> HasAudio(x)
    requires next.listener.Some? ==> Valid(next)
    ensures Valid(Commit(prev, next))
  {
  }

  /** Every event keeps the invariant. */
  lemma NextValid(s: State, e: Event)
    requires Valid(s)
    ensures Valid(Next(s, e))
  {
    match e
    case TourButton(g) => TourStartValid(s, g);
    case AudioEnded(id) => OnEndedValid(s, id);
    case AudioError(id, f, ok) => OnErrorValid(s, id, f, ok);
    case PlaySingle(id) => HandlePlayValid(s, id);
    case Register(id, src) =>
    case TimeUpdate(id, p) =>
  }

  lemma TourStartValid(s: State, g: Grouped)
    requires Valid(s)
    ensures Valid(TourStart(s, g))
  {
  }

  lemma OnEndedValid(s: State, id: int)
    requires Valid(s)
    ensures Valid(OnEnded(s, id))
  {
  }

  lemma OnErrorValid(s: State, id: int, f: RefreshFetch, retryPlays: bool)
    requires Valid(s)
    ensures Valid(OnError(s, id, f, retryPlays))
  {
    if ListensTo(s, id) {
      var s1 := s.(listener := Some(s.listener.value.(retried := true)));
      HandleEndedValid(s);
      HandleEndedValid(s1);
      if RefreshAudioSrc(f).Some? {
        var loaded := Update(s1.audio, id, (h: Handle) => Handle(true, 0, RefreshAudioSrc(f).value));
        HandleEndedValid(s1.(audio := loaded));
      }
    }
  }

  lemma HandleEndedValid(s: State)
    requires Valid(s)
    ensures Valid(HandleEnded(s))
    ensures HandleEnded(s).tourQueue == s.tourQueue
    ensures HandleEnded(s).tourStep == s.tourStep || HandleEnded(s).tourStep == s.tourStep + 1
  {
  }

  lemma HandlePlayValid(s: State, id: int)
    requires Valid(s)
    ensures Valid(HandlePlay(s, id))
  {
  }

  /** Every state reached from the initial one by any events is valid. */
  lemma {:induction false} RunValid(s: State, events: seq<Event>)
    requires Valid(s)
    ensures Valid(Run(s, events))
    decreases |events|
  {
    if |events| > 0 {
      NextValid(s, events[0]);
      RunValid(Next(s, events[0]), events[1..]);
    }
  }

  /** Starting from idle when no section item has audio changes nothing at all. */
  lemma StartWithEmptyQueue(s: State, g: Grouped)
    requires !s.tourPlaying && !s.tourPaused && |BuildQueue(g)| == 0
    ensures Next(s, TourButton(g)) == s
  {
  }

  /** Starting from idle with a non-empty queue: the new queue at step 0, playing and not
      paused, the first item active, its audio rewound and playing, every other audio
      element left as it was. */
  lemma StartFromIdle(s: State, g: Grouped)
    requires !s.tourPlaying && !s.tourPaused && |BuildQueue(g)| > 0
    ensures var r := Next(s, TourButton(g)); var id := BuildQueue(g)[0].id;
      && r.tourQueue == BuildQueue(g) && r.tourStep == 0
      && r.tourPlaying && !r.tourPaused
      && r.playingIndex == Some(id)
      && r.audio.Keys == s.audio.Keys
      && (id in s.audio ==> !r.audio[id].paused && r.audio[id].position == 0
                            && r.audio[id].src == s.audio[id].src)
      && (forall k :: k in s.audio && k != id ==> r.audio[k] == s.audio[k])
      && (r.listener.Some? <==> id in s.audio)
      && (r.listener.Some? ==> r.listener.value == Listener(id, false))
  {
  }

  /** Pause while the tour plays: not playing, paused, queue, step and active item kept,
      the current item's audio paused where it was. */
  lemma PauseTour(s: State, g: Grouped)
    requires Valid(s) && s.tourPlaying && !s.tourPaused
    ensures var r := Next(s, TourButton(g)); var id := s.tourQueue[s.tourStep].id;
      && !r.tourPlaying && r.tourPaused
      && r.tourQueue == s.tourQueue && r.tourStep == s.tourStep
      && r.playingIndex == s.playingIndex
      && (id in s.audio ==> r.audio[id] == s.audio[id].(paused := true))
      && (forall k :: k in s.audio && k != id ==> r.audio[k] == s.audio[k])
  {
  }

  /** Resume a paused tour: playing again with the same queue and step, the current item
      active, and its audio restarted from position zero (the step effect rewinds it). */
  lemma ResumeTour(s: State, g: Grouped)
    requires Valid(s) && s.tourPaused
    ensures var r := Next(s, TourButton(g)); var id := s.tourQueue[s.tourStep].id;
      && r.tourPlaying && !r.tourPaused
      && r.tourQueue == s.tourQueue && r.tourStep == s.tourStep
      && r.playingIndex == Some(id)
      && (id in s.audio ==> r.audio[id] == s.audio[id].(paused := false, position := 0))
      && (forall k :: k in s.audio && k != id ==> r.audio[k] == s.audio[k])
  {
  }

  /** Pause followed by resume keeps the queue and the step but not the position: the
      current item plays again from the start. */
  lemma PauseThenResume(s: State, g1: Grouped, g2: Grouped)
    requires Valid(s) && s.tourPlaying && !s.tourPaused
    ensures var r := Next(Next(s, TourButton(g1)), TourButton(g2)); var id := s.tourQueue[s.tourStep].id;
      && TourAudible(r)
      && r.tourQueue == s.tourQueue && r.tourStep == s.tourStep
      && (id in s.audio ==> r.audio[id].position == 0 && !r.audio[id].paused)
  {
    PauseTour(s, g1);
    NextValid(s, TourButton(g1));
    ResumeTour(Next(s, TourButton(g1)), g2);
  }

  /** `ended` on the tour's current audio while not paused: one step forward, with the
      next item active and its registered audio playing from position zero, or, after the
      last step, the tour stops and no item is active. */
  lemma EndedAdvancesOrFinishes(s: State, id: int)
    requires Valid(s) && ListensTo(s, id) && !s.tourPaused
    ensures var r := Next(s, AudioEnded(id));
      && r.tourQueue == s.tourQueue
      && (s.tourStep + 1 < |s.tourQueue| ==>
            var next := s.tourQueue[s.tourStep + 1].id;
            && r.tourStep == s.tourStep + 1 && TourAudible(r)
            && r.playingIndex == Some(next)
            && (next in s.audio ==> !r.audio[next].paused && r.audio[next].position == 0
                                    && r.audio[next].src == s.audio[next].src))
      && (s.tourStep + 1 >= |s.tourQueue| ==>
            r.tourStep == s.tourStep && !r.tourPlaying && !r.tourPaused && r.playingIndex == None)
  {
  }

  /** `ended` while the tour is paused changes nothing but the ended element itself. */
  lemma EndedWhilePaused(s: State, id: int)
    requires s.tourPaused
    ensures Next(s, AudioEnded(id)) == s.(audio := Update(s.audio, id, Pause))
  {
  }

  /** An error that is not retried — a second error of the same listener pair, a failed
      refresh, or a rejected retried `play()` — moves the tour exactly as `ended` does. */
  lemma ErrorSkipsLikeEnded(s: State, id: int, refresh: RefreshFetch, retryPlays: bool)
    requires ListensTo(s, id)
    requires s.listener.value.retried || RefreshAudioSrc(refresh).None? || !retryPlays
    ensures TourView(Next(s, AudioError(id, refresh, retryPlays))) == TourView(Next(s, AudioEnded(id)))
  {
    var ended := s.(audio := Update(s.audio, id, Pause));
    HandleEndedSeesOnlyTheView(ended, s);
    if !s.listener.value.retried {
      var s1 := s.(listener := Some(s.listener.value.(retried := true)));
      HandleEndedSeesOnlyTheView(ended, s1);
      match RefreshAudioSrc(refresh)
      case None =>
      case Some(src) =>
        var loaded := Update(s1.audio, id, (h: Handle) => Handle(true, 0, src));
        HandleEndedSeesOnlyTheView(ended, s1.(audio := loaded));
    }
  }

  /** How `handleEnded` moves the tour depends on nothing but the tour itself. */
  lemma HandleEndedSeesOnlyTheView(a: State, b: State)
    requires TourView(a) == TourView(b)
    ensures TourView(HandleEnded(a)) == TourView(HandleEnded(b))
  {
    if a.tourPaused {
    } else if a.tourStep + 1 < |a.tourQueue| {
      var a', b' := a.(tourStep := a.tourStep + 1), b.(tourStep := b.tourStep + 1);
      assert TourView(ListenerEffect(a')) == TourView(ListenerEffect(b'));
    } else {
      var a', b' := a.(tourPlaying := false, playingIndex := None), b.(tourPlaying := false, playingIndex := None);
      assert TourView(ListenerEffect(a')) == TourView(ListenerEffect(b'));
    }
  }

  /** The first error of a listener pair with a good refresh and a successful `play()`:
      the tour stays where it is, the element plays the fresh source from zero, and the
      pair is marked — so every later error of the pair skips like `ended`. */
  lemma ErrorRetriesOnce(s: State, id: int, refresh: RefreshFetch, refresh2: RefreshFetch, retryPlays2: bool)
    requires Valid(s) && ListensTo(s, id) && !s.listener.value.retried
    requires RefreshAudioSrc(refresh).Some?
    ensures var r := Next(s, AudioError(id, refresh, true));
      && TourView(r) == TourView(s)
      && r.audio[id] == Handle(false, 0, RefreshAudioSrc(refresh).value)
      && ListensTo(r, id) && r.listener.value.retried
      && TourView(Next(r, AudioError(id, refresh2, retryPlays2))) == TourView(Next(r, AudioEnded(id)))
  {
    var r := Next(s, AudioError(id, refresh, true));
    ErrorSkipsLikeEnded(r, id, refresh2, retryPlays2);
  }

  /** At most one registered element is playing. */
  ghost predicate AtMostOneAudible(s: State) {
    forall a, b :: a in s.audio && b in s.audio && !s.audio[a].paused && !s.audio[b].paused ==> a == b
  }

  /** Single-item play always leaves at most one element playing. */
  lemma PlaySingleIsExclusive(s: State, id: int)
    ensures AtMostOneAudible(Next(s, PlaySingle(id)))
  {
  }

  /** Pressing a card's button twice on a registered item that was not playing ends with
      that item paused, no item active, and every other element stopped. */
  lemma PlaySingleTwice(s: State, id: int)
    requires id in s.audio && !(s.playingIndex == Some(id) && !s.audio[id].paused)
    ensures var r := Next(Next(s, PlaySingle(id)), PlaySingle(id));
      && r.playingIndex == None && r.audio[id].paused
      && (forall k :: k in s.audio ==> r.audio[k].paused)
  {
  }

  /** Exclusivity is enforced by single-item play only: starting the tour does not stop an
      element that single-item play started, so two elements play at once. */
  lemma StartLeavesOtherAudioPlaying()
    ensures
      var first := Item(2, "Anna", Null, Some("anna.mp3"), "Ons verhaal", None, None);
      var s := Init.(audio := map[1 := Handle(false, 7, "bob.mp3"), 2 := Handle(true, 0, "anna.mp3")],
                     playingIndex := Some(1));
      var r := Next(s, TourButton(Grouped([first], [], [])));
      !r.audio[1].paused && !r.audio[2].paused && !AtMostOneAudible(r)
  {
    var first := Item(2, "Anna", Null, Some("anna.mp3"), "Ons verhaal", None, None);
    var g := Grouped([first], [], []);
    assert Section(g, SECTION_ORDER[0]) + Section(g, SECTION_ORDER[1]) + Section(g, SECTION_ORDER[2]) == [first];
    assert HasAudio(first);
    assert BuildQueue(g) == [first];
  }

  /** While a tour is under way (playing or paused) no event replaces the queue, and the
      step either stays or moves forward by exactly one. */
  lemma StepNeverSkips(s: State, e: Event)
    requires Valid(s) && (s.tourPlaying || s.tourPaused)
    ensures Next(s, e).tourQueue == s.tourQueue
    ensures Next(s, e).tourStep == s.tourStep || Next(s, e).tourStep == s.tourStep + 1
  {
    match e
    case TourButton(g) => TourStartKeepsQueue(s, g);
    case AudioEnded(id) => HandleEndedValid(s.(audio := Update(s.audio, id, Pause)));
    case AudioError(id, f, ok) => OnErrorKeepsQueue(s, id, f, ok);
    case _ =>
  }

  lemma TourStartKeepsQueue(s: State, g: Grouped)
    requires Valid(s) && (s.tourPlaying || s.tourPaused)
    ensures TourStart(s, g).tourQueue == s.tourQueue && TourStart(s, g).tourStep == s.tourStep
  {
    if s.tourPaused { ResumeTour(s, g); } else { PauseTour(s, g); }
  }

  lemma OnErrorKeepsQueue(s: State, id: int, f: RefreshFetch, retryPlays: bool)
    requires Valid(s)
    ensures OnError(s, id, f, retryPlays).tourQueue == s.tourQueue
    ensures OnError(s, id, f, retryPlays).tourStep in {s.tourStep, s.tourStep + 1}
  {
    if ListensTo(s, id) {
      var s1 := s.(listener := Some(s.listener.value.(retried := true)));
      HandleEndedValid(s);
      HandleEndedValid(s1);
      if RefreshAudioSrc(f).Some? {
        var loaded := Update(s1.audio, id, (h: Handle) => Handle(true, 0, RefreshAudioSrc(f).value));
        HandleEndedValid(s1.(audio := loaded));
      }
    }
  }

  /** The tour button's label names what pressing it does: "Tour pauzeren" pauses a
      playing tour, "Tour hervatten" resumes at the same step, "Tour starten" starts at
      step 0 (or does nothing without audio items). */
  lemma TourButtonLabelMatchesAction(s: State, g: Grouped)
    requires Valid(s)
    ensures var r := Next(s, TourButton(g));
      && (TourButtonLabel(s) == "Tour pauzeren" <==> TourAudible(s))
      && (TourButtonLabel(s) == "Tour pauzeren" ==> r.tourPaused && r.tourStep == s.tourStep)
      && (TourButtonLabel(s) == "Tour hervatten" <==> s.tourPaused)
      && (TourButtonLabel(s) == "Tour hervatten" ==> TourAudible(r) && r.tourStep == s.tourStep)
      && (TourButtonLabel(s) == "Tour starten" <==> !s.tourPlaying && !s.tourPaused)
      && (TourButtonLabel(s) == "Tour starten" ==>
            (if |BuildQueue(g)| == 0 then r == s else TourAudible(r) && r.tourStep == 0))
  {
    if TourAudible(s) {
      PauseTour(s, g);
    } else if s.tourPaused {
      ResumeTour(s, g);
    } else if |BuildQueue(g)| > 0 {
      StartFromIdle(s, g);
    }
  }
}
