/** The custom video player (`VideoPlayer` in App.tsx): its component state, the
    media element it drives, the single hide-controls timer, and the handlers
    that move between them.

    `PlayerState` is a value snapshot of everything the handlers read or write, and each
    handler is first given as a step function on snapshots; the `VideoPlayer`
    class holds the same state in mutable fields and its methods are proved to
    perform exactly those steps. Properties that relate several events are lemmas
    about the step functions. */
module Player {
  import opened Types

  /** The two modes the component gives a text track. */
  datatype TrackMode = Hidden | Showing

  /** The rates the speed menu lists, in menu order. */
  const SpeedOptions: seq<real> := [0.5, 1.0, 1.5, 2.0]

  /** What the player reads from and writes to the `<video>` element. `paused` is
      the element's own playback state, which `play()` and `pause()` change. */
  datatype Element = Element(
    currentTime: real,
    duration: real,
    volume: real,
    playbackRate: real,
    tracks: seq<TrackMode>,
    paused: bool)

  /** A snapshot of the player. `element` is `videoRef.current` (`None` when no
      element is attached); `controlsTimeout` is `controlsTimeoutRef.current`;
      `pendingHides` are the hide timers the browser still holds for this player
      and `nextTimerId` the handle it gives out next; `listening` says whether the
      `timeupdate` and `loadedmetadata` listeners are attached. */
  datatype PlayerState = PlayerState(
    element: Option<Element>,
    isPlaying: bool,
    progress: real,
    volume: real,
    playbackRate: real,
    subtitlesVisible: bool,
    duration: real,
    currentTime: real,
    showControls: bool,
    showSpeedOptions: bool,
    controlsTimeout: Option<nat>,
    pendingHides: set<nat>,
    nextTimerId: nat,
    listening: bool)

  /** The handles `controlsTimeoutRef.current` makes reachable: none, or its one
      handle when that is truthy. */
  function HeldHandle(p: PlayerState): set<nat> {
    if p.controlsTimeout.Some? && p.controlsTimeout.value != 0 then {p.controlsTimeout.value} else {}
  }

  /** The player's invariant: the volume stays in the slider's range, the rate is
      one the menu offers, the only hide timer that can be pending is the one the
      ref holds, handles are positive and below the next one, and listeners are
      only attached to an element. */
  ghost predicate Invariant(p: PlayerState) {
    && 0.0 <= p.volume <= 1.0
    && p.playbackRate in SpeedOptions
    && p.pendingHides <= HeldHandle(p)
    && 1 <= p.nextTimerId
    && (p.controlsTimeout.Some? ==> 1 <= p.controlsTimeout.value < p.nextTimerId)
    && (p.listening ==> p.element.Some?)
  }

  // ---------------------------------------------------------------------------
  // Directives to the element

  /** `play()`: resumes the element unless the environment rejects the call
      (autoplay policy); the rejection is only logged. */
  function PlayElement(e: Element, playPermitted: bool): (r: Element)
    ensures r.paused <==> e.paused && !playPermitted
    ensures r.(paused := e.paused) == e
  {
    if playPermitted then e.(paused := false) else e
  }

  /** `pause()`: always takes effect. */
  function PauseElement(e: Element): (r: Element)
    ensures r.paused && r.(paused := e.paused) == e
  {
    e.(paused := true)
  }

  // ---------------------------------------------------------------------------
  // Step functions, one per handler

  /** Mounting with source `src`: the initial state, then the mount effect, which
      (when an element is attached) adds the two listeners, asks the element to
      play and schedules the first hide. The `[isPlaying]` effect also runs on
      mount, after this one, and calls `play()` a second time (without a catch);
      for the same `playPermitted` both calls leave the element in the same
      state, so one `PlayElement` stands for both. */
  function Mount(element: Option<Element>, playPermitted: bool): (r: PlayerState)
    ensures Invariant(r)
    ensures r.isPlaying && r.showControls && !r.showSpeedOptions && r.volume == 1.0 && r.playbackRate == 1.0
    ensures r.listening <==> element.Some?
    ensures element.Some? ==> r.pendingHides == HeldHandle(r) != {}
    ensures r.element == (if element.Some? then Some(PlayElement(element.value, playPermitted)) else None)
    ensures r.progress == 0.0 && r.duration == 0.0 && r.currentTime == 0.0 && !r.subtitlesVisible
  {
    var p := PlayerState(element, true, 0.0, 1.0, 1.0, false, 0.0, 0.0, true, false, None, {}, 1, false);
    match element
    case None => p
    case Some(e) => ScheduleHide(p.(listening := true, element := Some(PlayElement(e, playPermitted))))
  }

  /** `hideControls`: cancels the hide the ref holds (if the handle is truthy) and
      schedules a new one, whose handle the ref then holds. */
  function ScheduleHide(p: PlayerState): (r: PlayerState)
    ensures Invariant(p) ==> Invariant(r)
    ensures r.controlsTimeout == Some(p.nextTimerId) && r.pendingHides == {p.nextTimerId}
              + (p.pendingHides - HeldHandle(p))
    ensures r.showControls == p.showControls
    ensures r == p.(controlsTimeout := r.controlsTimeout, pendingHides := r.pendingHides,
                    nextTimerId := p.nextTimerId + 1)
  {
    var cleared := p.pendingHides - HeldHandle(p);
    p.(controlsTimeout := Some(p.nextTimerId),
       pendingHides := cleared + {p.nextTimerId},
       nextTimerId := p.nextTimerId + 1)
  }

  /** The browser runs the hide timer `id`: only a timer still pending has any
      effect, and it hides the controls. */
  function OnHideTimer(p: PlayerState, id: nat): (r: PlayerState)
    ensures Invariant(p) ==> Invariant(r)
    ensures id !in p.pendingHides ==> r == p
    ensures id in p.pendingHides ==>
      && !r.showControls && r.pendingHides == p.pendingHides - {id}
      && r == p.(pendingHides := r.pendingHides, showControls := false)
  {
    if id in p.pendingHides then p.(pendingHides := p.pendingHides - {id}, showControls := false) else p
  }

  /** `handleMouseMove`: shows the controls and restarts the countdown. */
  function OnMouseMove(p: PlayerState): (r: PlayerState)
    ensures Invariant(p) ==> Invariant(r)
  {
    ScheduleHide(p.(showControls := true))
  }

  /** `handleTimeUpdate`, as delivered to an attached listener: copies the
      element's position and derives the progress percentage, but only when the
      element's duration is non-zero. */
  function OnTimeUpdate(p: PlayerState): (r: PlayerState)
    ensures Invariant(p) ==> Invariant(r)
  {
    match p.element
    case Some(e) =>
      if p.listening && e.duration != 0.0
      then p.(currentTime := e.currentTime, progress := e.currentTime / e.duration * 100.0)
      else p
    case None => p
  }

  /** `handleLoadedMetadata`, as delivered to an attached listener: records the
      duration and, when the element has a text track, hides the first one and
      clears the subtitle flag. */
  function OnLoadedMetadata(p: PlayerState): (r: PlayerState)
    ensures Invariant(p) ==> Invariant(r)
  {
    match p.element
    case Some(e) =>
      if !p.listening then p
      else if |e.tracks| > 0
      then p.(duration := e.duration, subtitlesVisible := false,
              element := Some(e.(tracks := e.tracks[0 := Hidden])))
      else p.(duration := e.duration)
    case None => p
  }

  /** `togglePlayPause` followed by the effect on `isPlaying`, which issues
      `play()` or `pause()` to the element. */
  function OnPlayPauseClick(p: PlayerState, playPermitted: bool): (r: PlayerState)
    ensures Invariant(p) ==> Invariant(r)
  {
    var playing := !p.isPlaying;
    p.(isPlaying := playing,
       element := match p.element
                  case Some(e) => Some(if playing then PlayElement(e, playPermitted) else PauseElement(e))
                  case None => None)
  }

  /** `handleScrub` with slider value `value`: seeks the element to that
      percentage of the duration the component recorded. */
  function OnScrub(p: PlayerState, value: real): (r: PlayerState)
    ensures Invariant(p) ==> Invariant(r)
  {
    if p.element.None? then p
    else p.(element := Some(p.element.value.(currentTime := value / 100.0 * p.duration)))
  }

  /** `handleVolumeChange` with slider value `v`: sets both the component's and
      the element's volume. */
  function OnVolumeChange(p: PlayerState, v: real): (r: PlayerState)
    requires 0.0 <= v <= 1.0
    ensures Invariant(p) ==> Invariant(r)
  {
    match p.element
    case Some(e) => p.(volume := v, element := Some(e.(volume := v)))
    case None => p
  }

  /** The mute button: `setVolume(v => v > 0 ? 0 : 1)`, on the component's
      state only. */
  function OnMuteClick(p: PlayerState): (r: PlayerState)
    ensures Invariant(p) ==> Invariant(r)
  {
    p.(volume := if p.volume > 0.0 then 0.0 else 1.0)
  }

  /** The rate button: opens or closes the speed menu. */
  function OnSpeedMenuClick(p: PlayerState): (r: PlayerState)
    ensures Invariant(p) ==> Invariant(r)
    ensures r.showSpeedOptions == !p.showSpeedOptions
    ensures r.(showSpeedOptions := p.showSpeedOptions) == p
  {
    p.(showSpeedOptions := !p.showSpeedOptions)
  }

  /** `changePlaybackRate(rate)`: sets the component's and the element's rate
      and closes the speed menu. */
  function OnRateChosen(p: PlayerState, rate: real): (r: PlayerState)
    requires rate in SpeedOptions
    ensures Invariant(p) ==> Invariant(r)
  {
    match p.element
    case Some(e) =>
      p.(playbackRate := rate, element := Some(e.(playbackRate := rate)), showSpeedOptions := false)
    case None => p
  }

  /** `toggleSubtitles`: flips the first track between showing and hidden and
      sets the flag to whether it is now showing. */
  function OnSubtitlesClick(p: PlayerState): (r: PlayerState)
    ensures Invariant(p) ==> Invariant(r)
  {
    match p.element
    case Some(e) =>
      if |e.tracks| == 0 then p
      else
        var isVisible := e.tracks[0] == Showing;
        p.(element := Some(e.(tracks := e.tracks[0 := if isVisible then Hidden else Showing])),
           subtitlesVisible := !isVisible)
    case None => p
  }

  /** The effect cleanup on close: removes both listeners and clears the hide
      the ref holds (if the handle is truthy). */
  function OnClose(p: PlayerState): (r: PlayerState)
    ensures Invariant(p) ==> Invariant(r)
  {
    p.(listening := false, pendingHides := p.pendingHides - HeldHandle(p))
  }

  // ---------------------------------------------------------------------------
  // Properties

  /** At most one hide is ever pending. */
  lemma {:induction false} AtMostOneHidePending(p: PlayerState)
    requires Invariant(p)
    ensures |p.pendingHides| <= 1
  {
    var held := HeldHandle(p);
    assert |held| <= 1;
    SubsetCardinality(p.pendingHides, held);
  }

  lemma SubsetCardinality(a: set<nat>, b: set<nat>)
    requires a <= b
    ensures |a| <= |b|
  {
    assert b == a + (b - a);
  }

  /** A mouse move shows the controls and leaves exactly one hide pending, the
      new one: an earlier countdown can no longer hide the controls, and the new
      one does when it expires. */
  lemma MouseMoveRestartsCountdown(p: PlayerState, id: nat)
    requires Invariant(p)
    ensures var q := OnMouseMove(p);
      && q.showControls
      && q.controlsTimeout == Some(p.nextTimerId)
      && q.pendingHides == {p.nextTimerId}
      && (id != p.nextTimerId ==> OnHideTimer(q, id) == q)
      && !OnHideTimer(q, p.nextTimerId).showControls
      && q == p.(showControls := true, controlsTimeout := q.controlsTimeout,
                 pendingHides := q.pendingHides, nextTimerId := p.nextTimerId + 1)
  {
    var p' := p.(showControls := true);
    assert HeldHandle(p') == HeldHandle(p);
  }

  /** After teardown no hide is pending, so no timer changes anything, and the
      element's events no longer reach the detached handlers. */
  lemma TeardownCancelsEverything(p: PlayerState, id: nat)
    requires Invariant(p)
    ensures var q := OnClose(p);
      && q.pendingHides == {}
      && OnHideTimer(q, id) == q
      && OnTimeUpdate(q) == q
      && OnLoadedMetadata(q) == q
  {
  }

  /** A time update with a known duration shows the element's position and the
      matching percentage; with a zero duration nothing changes. When the element
      reports a position within its duration the percentage lies in [0, 100]. */
  lemma TimeUpdateTracksElement(p: PlayerState)
    requires p.listening && p.element.Some?
    ensures var e, q := p.element.value, OnTimeUpdate(p);
      && (e.duration == 0.0 ==> q == p)
      && (e.duration != 0.0 ==>
            && q.currentTime == e.currentTime
            && q.progress * e.duration == e.currentTime * 100.0
            && q == p.(currentTime := q.currentTime, progress := q.progress))
      && (0.0 <= e.currentTime <= e.duration && e.duration != 0.0 ==> 0.0 <= q.progress <= 100.0)
  {
    var e := p.element.value;
    if e.duration != 0.0 {
      var q := OnTimeUpdate(p);
      assert q.progress == e.currentTime / e.duration * 100.0;
      if 0.0 <= e.currentTime <= e.duration {
        assert 0.0 <= e.currentTime / e.duration <= 1.0;
      }
    }
  }

  /** Scrubbing to `value` percent and then receiving the element's time update
      (the element reporting the duration the component recorded) shows the
      position `value / 100 * duration` and a progress of exactly `value`. */
  lemma ScrubThenTimeUpdate(p: PlayerState, value: real)
    requires p.listening && p.element.Some? && p.element.value.duration == p.duration != 0.0
    ensures var q := OnTimeUpdate(OnScrub(p, value));
      && q.currentTime == value / 100.0 * p.duration
      && q.progress == value
  {
    var d := p.duration;
    DivideBack(value / 100.0, d);
  }

  lemma DivideBack(a: real, d: real)
    requires d != 0.0
    ensures a * d / d == a
  {
  }

  /** Scrubbing without an element does nothing; with one it moves only the
      element's position and leaves the component's state alone. */
  lemma ScrubSeeksOnlyTheElement(p: PlayerState, value: real)
    ensures var q := OnScrub(p, value);
      && (p.element.None? ==> q == p)
      && (p.element.Some? ==>
            && q.element.Some?
            && q.element.value.currentTime == value / 100.0 * p.duration
            && q.element.value == p.element.value.(currentTime := q.element.value.currentTime)
            && q.(element := p.element) == p)
  {
  }

  /** Two toggles of play/pause restore `isPlaying`; whenever the toggle stops
      playback the element is told to pause, and when it starts playback the
      element plays unless the environment rejects the call. */
  lemma TogglePlayPauseDirectives(p: PlayerState, permitted: bool, permitted2: bool)
    ensures var q := OnPlayPauseClick(p, permitted);
      && q.isPlaying == !p.isPlaying
      && OnPlayPauseClick(q, permitted2).isPlaying == p.isPlaying
      && (p.element.Some? <==> q.element.Some?)
      && (q.element.Some? && !q.isPlaying ==> q.element.value.paused)
      && (q.element.Some? && q.isPlaying ==> q.element.value.paused == (p.element.value.paused && !permitted))
      && q == p.(isPlaying := q.isPlaying, element := q.element)
      && (q.element.Some? ==> q.element.value == p.element.value.(paused := q.element.value.paused))
  {
  }

  /** The slider sets the element's volume along with the displayed one; the
      mute button only changes the displayed volume, to 0 when it was audible and
      to 1 otherwise, so pressing it twice from an audible volume gives 1. */
  lemma VolumeControls(p: PlayerState, v: real)
    requires 0.0 <= v <= 1.0
    ensures var q := OnVolumeChange(p, v);
      && (p.element.None? ==> q == p)
      && (p.element.Some? ==>
            && q.volume == v && q.element.value.volume == v
            && q == p.(volume := v, element := q.element)
            && q.element.value == p.element.value.(volume := v))
    ensures var m := OnMuteClick(p);
      && m.element == p.element
      && (m.volume > 0.0 <==> !(p.volume > 0.0))
      && (m.volume == 0.0 || m.volume == 1.0)
      && m == p.(volume := m.volume)
    ensures p.volume > 0.0 ==> OnMuteClick(OnMuteClick(p)).volume == 1.0
  {
  }

  /** With an element, choosing a rate from the menu makes it both the displayed
      rate and the element's rate and closes the menu; without one nothing
      changes, the menu included. */
  lemma ChangePlaybackRateEffect(p: PlayerState, rate: real)
    requires rate in SpeedOptions
    ensures var q := OnRateChosen(p, rate);
      && (p.element.None? ==> q == p)
      && (p.element.Some? ==>
            && q.playbackRate == rate && q.element.value.playbackRate == rate
            && !q.showSpeedOptions && q.isPlaying == p.isPlaying && q.volume == p.volume
            && q == p.(playbackRate := rate, showSpeedOptions := false, element := q.element)
            && q.element.value == p.element.value.(playbackRate := rate))
  {
  }

  /** The menu lists exactly four rates, all positive, from half speed to double. */
  lemma SpeedOptionsAreTheFourRates(rate: real)
    ensures rate in SpeedOptions <==> rate == 0.5 || rate == 1.0 || rate == 1.5 || rate == 2.0
  {
  }

  /** The subtitle flag agrees with the first track's mode. */
  predicate SubtitlesAgree(p: PlayerState) {
    p.element.Some? && |p.element.value.tracks| > 0 ==>
      p.subtitlesVisible == (p.element.value.tracks[0] == Showing)
  }

  /** Without an element or a track the toggle does nothing. Otherwise it flips
      only the first track, makes the flag agree with it, and two toggles give the
      tracks back unchanged. */
  lemma ToggleSubtitlesTwice(p: PlayerState)
    ensures var q := OnSubtitlesClick(p);
      && (p.element.None? || |p.element.value.tracks| == 0 ==> q == p)
      && (p.element.Some? && |p.element.value.tracks| > 0 ==>
            && SubtitlesAgree(q)
            && q.element.value.tracks[0] != p.element.value.tracks[0]
            && q.element.value.tracks[1..] == p.element.value.tracks[1..]
            && OnSubtitlesClick(q).element == p.element
            && q == p.(element := q.element, subtitlesVisible := q.subtitlesVisible)
            && q.element.value == p.element.value.(tracks := q.element.value.tracks)
            && |q.element.value.tracks| == |p.element.value.tracks|)
  {
    if p.element.Some? && |p.element.value.tracks| > 0 {
      var ts := p.element.value.tracks;
      var q := OnSubtitlesClick(p);
      var ts2 := OnSubtitlesClick(q).element.value.tracks;
      assert ts2 == ts;
    }
  }

  /** A metadata load delivered to the attached listener records the element's
      duration. With a text track it also hides the first track and clears the
      flag, so the flag agrees with the track; without one nothing else changes.
      Every toggle keeps that agreement. */
  lemma MetadataHidesSubtitles(p: PlayerState)
    requires p.listening && p.element.Some?
    ensures var e, q := p.element.value, OnLoadedMetadata(p);
      && q.duration == e.duration
      && (|e.tracks| == 0 ==> q == p.(duration := e.duration))
      && (|e.tracks| > 0 ==>
            && q.element.value.tracks[0] == Hidden && !q.subtitlesVisible
            && q.element.value.tracks[1..] == e.tracks[1..]
            && |q.element.value.tracks| == |e.tracks|
            && SubtitlesAgree(q)
            && q == p.(duration := e.duration, subtitlesVisible := false, element := q.element)
            && q.element.value == e.(tracks := q.element.value.tracks))
    ensures SubtitlesAgree(p) ==> SubtitlesAgree(OnSubtitlesClick(p))
  {
  }

  // ---------------------------------------------------------------------------
  // The media element and the component, as mutable objects

  class MediaElement {
    var currentTime: real
    var duration: real
    var volume: real
    var playbackRate: real
    var tracks: seq<TrackMode>
    var paused: bool

    function Snapshot(): Element
      reads this
    {
      Element(currentTime, duration, volume, playbackRate, tracks, paused)
    }

    constructor (e: Element)
      ensures Snapshot() == e
    {
      currentTime, duration, volume := e.currentTime, e.duration, e.volume;
      playbackRate, tracks, paused := e.playbackRate, e.tracks, e.paused;
    }

    /** `play()`; a rejected call leaves the element paused. */
    method Play(playPermitted: bool)
      modifies this
      ensures Snapshot() == PlayElement(old(Snapshot()), playPermitted)
    {
      if playPermitted {
        paused := false;
      }
    }

    method Pause()
      modifies this
      ensures Snapshot() == PauseElement(old(Snapshot()))
    {
      paused := true;
    }
  }

  class VideoPlayer {
    /** `videoRef.current`: the element stays the same while the player is open. */
    const video: MediaElement?
    var isPlaying: bool
    var progress: real
    var volume: real
    var playbackRate: real
    var areSubtitlesVisible: bool
    var duration: real
    var currentTime: real
    var showControls: bool
    var showSpeedOptions: bool
    var controlsTimeout: Option<nat>
    var pendingHides: set<nat>
    var nextTimerId: nat
    var listening: bool

    function Snapshot(): PlayerState
      reads this, video
    {
      PlayerState(if video == null then None else Some(video.Snapshot()),
             isPlaying, progress, volume, playbackRate, areSubtitlesVisible, duration,
             currentTime, showControls, showSpeedOptions, controlsTimeout, pendingHides,
             nextTimerId, listening)
    }

    ghost predicate Valid()
      reads this, video
    {
      Invariant(Snapshot())
    }

    /** Mounting: initial state, then the mount effect. */
    constructor (element: MediaElement?, playPermitted: bool)
      modifies element
      ensures video == element
      ensures Snapshot() == Mount(if element == null then None else Some(old(element.Snapshot())), playPermitted)
      ensures Valid()
    {
      video := element;
      isPlaying, progress, volume, playbackRate := true, 0.0, 1.0, 1.0;
      areSubtitlesVisible, duration, currentTime := false, 0.0, 0.0;
      showControls, showSpeedOptions := true, false;
      controlsTimeout, pendingHides, nextTimerId, listening := None, {}, 1, false;
      new;
      if element != null {
        listening := true;
        element.Play(playPermitted);
        HideControls();
      }
    }

    /** `clearTimeout(id)` */
    method ClearTimeout(id: nat)
      modifies this`pendingHides
      ensures pendingHides == old(pendingHides) - {id}
    {
      pendingHides := pendingHides - {id};
    }

    /** `window.setTimeout(() => setShowControls(false), 3000)` */
    method SetHideTimeout() returns (id: nat)
      modifies this`pendingHides, this`nextTimerId
      ensures id == old(nextTimerId) && nextTimerId == id + 1
      ensures pendingHides == old(pendingHides) + {id}
    {
      id := nextTimerId;
      pendingHides := pendingHides + {id};
      nextTimerId := nextTimerId + 1;
    }

    method HideControls()
      requires Valid()
      modifies this
      ensures Snapshot() == ScheduleHide(old(Snapshot()))
      ensures Valid()
    {
      if controlsTimeout.Some? && controlsTimeout.value != 0 {
        ClearTimeout(controlsTimeout.value);
      }
      var id := SetHideTimeout();
      controlsTimeout := Some(id);
    }

    method HideTimerFires(id: nat)
      requires Valid()
      modifies this
      ensures Snapshot() == OnHideTimer(old(Snapshot()), id)
      ensures Valid()
    {
      if id in pendingHides {
        pendingHides := pendingHides - {id};
        showControls := false;
      }
    }

    method HandleMouseMove()
      requires Valid()
      modifies this
      ensures Snapshot() == OnMouseMove(old(Snapshot()))
      ensures Valid()
    {
      showControls := true;
      HideControls();
    }

    method HandleTimeUpdate()
      requires Valid()
      modifies this
      ensures Snapshot() == OnTimeUpdate(old(Snapshot()))
      ensures Valid()
    {
      if listening && video != null && video.duration != 0.0 {
        currentTime := video.currentTime;
        progress := video.currentTime / video.duration * 100.0;
      }
    }

    method HandleLoadedMetadata()
      requires Valid()
      modifies this, video
      ensures Snapshot() == OnLoadedMetadata(old(Snapshot()))
      ensures Valid()
    {
      if listening && video != null {
        duration := video.duration;
        if |video.tracks| > 0 {
          video.tracks := video.tracks[0 := Hidden];
          areSubtitlesVisible := false;
        }
      }
    }

    method TogglePlayPause(playPermitted: bool)
      requires Valid()
      modifies this, video
      ensures Snapshot() == OnPlayPauseClick(old(Snapshot()), playPermitted)
      ensures Valid()
    {
      isPlaying := !isPlaying;
      if video != null {
        if isPlaying {
          video.Play(playPermitted);
        } else {
          video.Pause();
        }
      }
    }

    method HandleScrub(value: real)
      requires Valid()
      modifies video
      ensures Snapshot() == OnScrub(old(Snapshot()), value)
      ensures Valid()
    {
      if video == null {
        return;
      }
      ghost var p := Snapshot();
      ghost var q := OnScrub(p, value);
      var newTime := value / 100.0 * duration;
      assert q.element.value == p.element.value.(currentTime := newTime);
      video.currentTime := newTime;
      assert Snapshot() == q;
    }

    method HandleVolumeChange(v: real)
      requires 0.0 <= v <= 1.0
      requires Valid()
      modifies this, video
      ensures Snapshot() == OnVolumeChange(old(Snapshot()), v)
      ensures Valid()
    {
      if video == null {
        return;
      }
      volume := v;
      video.volume := v;
    }

    method ToggleMute()
      requires Valid()
      modifies this
      ensures Snapshot() == OnMuteClick(old(Snapshot()))
      ensures Valid()
    {
      volume := if volume > 0.0 then 0.0 else 1.0;
    }

    method ToggleSpeedMenu()
      requires Valid()
      modifies this
      ensures Snapshot() == OnSpeedMenuClick(old(Snapshot()))
      ensures Valid()
    {
      showSpeedOptions := !showSpeedOptions;
    }

    method ChangePlaybackRate(rate: real)
      requires rate in SpeedOptions
      requires Valid()
      modifies this, video
      ensures Snapshot() == OnRateChosen(old(Snapshot()), rate)
      ensures Valid()
    {
      if video == null {
        return;
      }
      playbackRate := rate;
      video.playbackRate := rate;
      showSpeedOptions := false;
    }

    method ToggleSubtitles()
      requires Valid()
      modifies this, video
      ensures Snapshot() == OnSubtitlesClick(old(Snapshot()))
      ensures Valid()
    {
      if video == null || |video.tracks| == 0 {
        return;
      }
      var isVisible := video.tracks[0] == Showing;
      video.tracks := video.tracks[0 := if isVisible then Hidden else Showing];
      areSubtitlesVisible := !isVisible;
    }

    method Close()
      requires Valid()
      modifies this
      ensures Snapshot() == OnClose(old(Snapshot()))
      ensures Valid()
    {
      listening := false;
      if controlsTimeout.Some? && controlsTimeout.value != 0 {
        ClearTimeout(controlsTimeout.value);
      }
    }
  }
}
