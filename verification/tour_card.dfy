/** The decision tables of `AudioTourCard.jsx`: whether the visuals are a video, the play
    button's label and enabled state, the video's playback mode, the hover transitions, and
    which cards register an audio element with the sequencer. */
module TourCard {
  import opened Values
  import opened Text
  import opened TourData
  import opened TourQueue
  import opened Sequencer

  /** The props a card receives: its item, whether it is the active item (`playingIndex ===
      item.id`) and whether the tour is audible (`tourPlaying && !tourPaused`). */
  datatype Props = Props(item: Item, isActive: bool, isTourPlaying: bool)

  /** The props the list passes to the card of `item` in state `s`. */
  function PropsOf(s: State, item: Item): (p: Props)
    ensures p.item == item
    ensures p.isActive <==> s.playingIndex == Some(item.id)
    ensures p.isTourPlaying <==> s.tourPlaying && !s.tourPaused
  {
    Props(item, s.playingIndex == Some(item.id), TourAudible(s))
  }

  const VIDEO_PREFIX: string := "video"

  /** `visuals && visuals.mime_type && visuals.mime_type.startsWith("video")`: only an object
      whose MIME type begins with `video` (case-sensitively, no `/` required) is a video; a
      number, `null` or any other value is not. */
  predicate IsVideo(visuals: Field): (r: bool)
    ensures !visuals.Obj? ==> !r
    ensures visuals.Obj? ==> (r <==>
      && visuals.ref.mimeType.Some? && |visuals.ref.mimeType.value| >= |VIDEO_PREFIX|
      && visuals.ref.mimeType.value[..|VIDEO_PREFIX|] == VIDEO_PREFIX)
  {
    visuals.Obj? && Truthy(visuals.ref.mimeType) && StartsWith(visuals.ref.mimeType.value, VIDEO_PREFIX)
  }

  /** Examples: `video/mp4` is a video; `image/png` and `Video/MP4` are not. */
  lemma IsVideoExamples(url: Option<string>, id: Option<int>)
    ensures IsVideo(Obj(MediaRef(url, Some("video/mp4"), id)))
    ensures !IsVideo(Obj(MediaRef(url, Some("image/png"), id)))
    ensures !IsVideo(Obj(MediaRef(url, Some("Video/MP4"), id)))
  {
    assert "image/png"[0] != VIDEO_PREFIX[0];
    assert "Video/MP4"[0] != VIDEO_PREFIX[0];
  }

  /** The play button: its text and whether it is disabled. */
  datatype Button = Button(text: string, disabled: bool)

  const NOT_AVAILABLE: string := "Niet beschikbaar"
  const PLAYING: string := "Speelt af"
  const PAUSE: string := "Pauzeer"
  const PLAY: string := "Afspelen"

  /** The card's button logic (`buttonText`/`buttonDisabled`) and the text the button
      renders, which shows "Niet beschikbaar" for an item without audio. */
  function ButtonOf(p: Props): (b: Button)
    ensures b.text == NOT_AVAILABLE <==> !HasAudio(p.item)
    ensures b.disabled <==> (p.isActive && p.isTourPlaying) || (!p.isActive && !HasAudio(p.item))
  {
    var (caption, disabled) :=
      if p.isActive && p.isTourPlaying then (PLAYING, true)
      else if p.isActive then (PAUSE, false)
      else (PLAY, !HasAudio(p.item));
    Button(if HasAudio(p.item) then caption else NOT_AVAILABLE, disabled)
  }

  /** The four rows of the button table for an item with audio, and the two for one
      without: inactive items without audio are disabled, but an active one without audio
      outside the tour shows an enabled "Niet beschikbaar". */
  lemma ButtonTable(p: Props)
    ensures HasAudio(p.item) && p.isActive && p.isTourPlaying ==> ButtonOf(p) == Button(PLAYING, true)
    ensures HasAudio(p.item) && p.isActive && !p.isTourPlaying ==> ButtonOf(p) == Button(PAUSE, false)
    ensures HasAudio(p.item) && !p.isActive ==> ButtonOf(p) == Button(PLAY, false)
    ensures !HasAudio(p.item) && !p.isActive ==> ButtonOf(p) == Button(NOT_AVAILABLE, true)
    ensures !HasAudio(p.item) && p.isActive && !p.isTourPlaying ==> ButtonOf(p) == Button(NOT_AVAILABLE, false)
  {
  }

  /** The "Nu aan het spelen (tour)" banner shows exactly when the button reads "Speelt
      af" for an item with audio. */
  predicate ShowsNowPlaying(p: Props) {
    p.isTourPlaying && p.isActive
  }

  lemma BannerMatchesButton(p: Props)
    requires HasAudio(p.item)
    ensures ShowsNowPlaying(p) <==> ButtonOf(p).text == PLAYING
  {
  }

  /** A click on the play button: a disabled button does not fire, and `handleButtonClick`
      returns early for an item without audio; otherwise the list's `handlePlay` runs. */
  function Click(s: State, item: Item): (r: State)
    ensures ButtonOf(PropsOf(s, item)).disabled || !HasAudio(item) ==> r == s
    ensures !ButtonOf(PropsOf(s, item)).disabled && HasAudio(item) ==> r == HandlePlay(s, item.id)
  {
    if ButtonOf(PropsOf(s, item)).disabled || !HasAudio(item) then s
    else HandlePlay(s, item.id)
  }

  /** Clicking a card without audio never changes the state, enabled or not. */
  lemma NoAudioClickIsNoOp(s: State, item: Item)
    requires !HasAudio(item)
    ensures Click(s, item) == s
  {
  }

  /** While the tour is audible, the active card's button is disabled: the tour item cannot
      be toggled from its card. */
  lemma TourItemLocked(s: State, item: Item)
    requires TourAudible(s) && s.playingIndex == Some(item.id)
    ensures ButtonOf(PropsOf(s, item)) == Button(if HasAudio(item) then PLAYING else NOT_AVAILABLE, true)
    ensures Click(s, item) == s
  {
  }

  /** "Pauzeer" on a registered element that is playing pauses it and clears the active id;
      all other registered audio is stopped. */
  lemma PauseButtonPauses(s: State, item: Item)
    requires ButtonOf(PropsOf(s, item)).text == PAUSE
    requires item.id in s.audio && !s.audio[item.id].paused
    ensures var r := Click(s, item);
            r.playingIndex.None? && item.id in r.audio && r.audio[item.id].paused
            && (forall k :: k in r.audio && k != item.id ==> r.audio[k].paused && r.audio[k].position == 0)
  {
  }

  /** "Pauzeer" on the active item of a paused tour starts its audio instead: the label
      promises a pause, the handler sees a paused element and plays it. */
  lemma PauseButtonOnPausedTourPlays(s: State, item: Item)
    requires HasAudio(item) && s.tourPaused && s.playingIndex == Some(item.id)
    requires item.id in s.audio && s.audio[item.id].paused
    ensures ButtonOf(PropsOf(s, item)).text == PAUSE
    ensures var r := Click(s, item);
            r.playingIndex == Some(item.id) && !r.audio[item.id].paused && r.tourPaused
  {
  }

  /** The playback mode the video effect drives the element into. */
  datatype VideoMode = LoopPlay | PlayOnce | Stopped

  /** The video effect's choice: looping playback for the active card of an audible tour,
      a single run while hovered, otherwise stopped. */
  function VideoModeOf(isActive: bool, isTourPlaying: bool, hoverPlay: bool): (m: VideoMode)
    ensures m == LoopPlay <==> isActive && isTourPlaying
    ensures m == PlayOnce <==> !(isActive && isTourPlaying) && hoverPlay
  {
    if isActive && isTourPlaying then LoopPlay
    else if hoverPlay then PlayOnce
    else Stopped
  }

  /** A video element: `loop`, `paused`, `currentTime`. */
  datatype Video = Video(loop: bool, paused: bool, position: nat)

  /** What the effect does to the element for each mode: `play()` keeps the position, the
      stop rewinds. A rejected `play()` is swallowed and is taken to succeed here. */
  function ApplyVideoMode(v: Video, m: VideoMode): (r: Video)
    ensures r.paused <==> m == Stopped
    ensures r.loop <==> m == LoopPlay
    ensures r.position == (if m == Stopped then 0 else v.position)
  {
    match m
    case LoopPlay => v.(loop := true, paused := false)
    case PlayOnce => v.(loop := false, paused := false)
    case Stopped => Video(false, true, 0)
  }

  /** A card's own state: `hoverPlay` and its video element (meaningful only for videos). */
  datatype Card = Card(hoverPlay: bool, video: Video)

  /** The video effect, run after every change of its dependencies (for a video card). */
  function SyncVideo(c: Card, p: Props): (r: Card)
    ensures r.hoverPlay == c.hoverPlay
    ensures !IsVideo(p.item.visuals) ==> r == c
    ensures IsVideo(p.item.visuals) ==> r.video == ApplyVideoMode(c.video, VideoModeOf(p.isActive, p.isTourPlaying, c.hoverPlay))
  {
    if IsVideo(p.item.visuals) then
      c.(video := ApplyVideoMode(c.video, VideoModeOf(p.isActive, p.isTourPlaying, c.hoverPlay)))
    else c
  }

  /** `handleVideoMouseEnter` (only a video element has the handler): hovering starts a run
      except on the active card of an audible tour, then the effect resyncs the element. */
  function MouseEnter(c: Card, p: Props): (r: Card)
    ensures !IsVideo(p.item.visuals) ==> r == c
    ensures p.isActive && p.isTourPlaying ==> r.hoverPlay == c.hoverPlay
    ensures IsVideo(p.item.visuals) && !(p.isActive && p.isTourPlaying) ==> r.hoverPlay
  {
    if !IsVideo(p.item.visuals) then c
    else if !(p.isActive && p.isTourPlaying) then SyncVideo(c.(hoverPlay := true), p)
    else c
  }

  /** The video `ended` listener: a hover run clears the flag and rewinds, then the effect
      resyncs; an `ended` without hover changes nothing. */
  function VideoEnded(c: Card, p: Props): (r: Card)
    ensures !c.hoverPlay ==> r == c
    ensures c.hoverPlay && IsVideo(p.item.visuals) ==> !r.hoverPlay
  {
    if IsVideo(p.item.visuals) && c.hoverPlay then
      SyncVideo(Card(false, c.video.(position := 0)), p)
    else c
  }

  /** Hovering a video outside the tour's active card always leaves it playing one run from
      where it stood. */
  lemma HoverPlaysOnce(c: Card, p: Props)
    requires IsVideo(p.item.visuals) && !(p.isActive && p.isTourPlaying)
    ensures MouseEnter(c, p).video == Video(false, false, c.video.position)
  {
  }

  /** The hover run ends stopped, rewound and not looping; the card is back in the state a
      fresh card of the same props would be in after the effect. */
  lemma HoverRunEndsStopped(c: Card, p: Props)
    requires IsVideo(p.item.visuals) && !(p.isActive && p.isTourPlaying)
    ensures VideoEnded(MouseEnter(c, p), p) == Card(false, Video(false, true, 0))
    ensures VideoEnded(MouseEnter(c, p), p) == SyncVideo(Card(false, c.video), p)
  {
  }

  /** On the active card of an audible tour, hovering changes nothing and the video loops. */
  lemma TourVideoIgnoresHover(c: Card, p: Props)
    requires IsVideo(p.item.visuals) && p.isActive && p.isTourPlaying
    ensures MouseEnter(c, p) == c
    ensures SyncVideo(c, p).video.loop && !SyncVideo(c, p).video.paused
  {
  }

  /** The card's audio ref callback: only a card with audio renders an `<audio>` element
      and hands it to the list. */
  function AudioRegistration(s: State, item: Item): (r: State)
    ensures item.id in r.audio <==> item.id in s.audio || HasAudio(item)
    ensures r.audio.Keys == s.audio.Keys + (if HasAudio(item) then {item.id} else {})
    ensures forall k :: k in s.audio ==> r.audio[k] == s.audio[k]
    ensures r.(audio := s.audio) == s
  {
    if HasAudio(item) then RegisterAudio(s, item.id, item.audio.value) else s
  }

  /** Registering the cards of a queue makes every queued item playable by the sequencer. */
  lemma QueueRegistered(s: State, queue: seq<Item>)
    requires forall x :: x in queue ==> HasAudio(x)
    ensures forall i :: 0 <= i < |queue| ==> queue[i].id in RegisterAll(s, queue).audio
    decreases |queue|
  {
    if |queue| > 0 {
      QueueRegistered(AudioRegistration(s, queue[0]), queue[1..]);
      assert forall i :: 1 <= i < |queue| ==> queue[i] == queue[1..][i - 1];
      RegisteredStays(AudioRegistration(s, queue[0]), queue[1..], queue[0].id);
    }
  }

  /** Mounting the cards of `items` in order. */
  function RegisterAll(s: State, items: seq<Item>): State
    decreases |items|
  {
    if |items| == 0 then s else RegisterAll(AudioRegistration(s, items[0]), items[1..])
  }

  /** Registration never drops an element. */
  lemma RegisteredStays(s: State, items: seq<Item>, id: int)
    requires id in s.audio
    ensures id in RegisterAll(s, items).audio
    decreases |items|
  {
    if |items| > 0 {
      RegisteredStays(AudioRegistration(s, items[0]), items[1..], id);
    }
  }
}
