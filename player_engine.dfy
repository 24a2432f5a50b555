/** The player engine: the state cells of the player provider and the
    commands it offers (play a track, toggle play/pause, next/previous in
    the queue, seek, set the volume, enqueue), together with the callbacks
    of the one audio element it owns.

    Each command is stated as a transition function on `PlayerState`; the
    class `Player` holds the same cells as mutable fields and its methods
    are proved to perform exactly those transitions. */
module PlayerEngine {
  import opened Wrappers
  import opened Catalog
  import opened DominantColor

  /** The observable state of the audio element the provider owns:
      its source URL, whether it is paused, its playback position in
      seconds and its volume. */
  datatype Audio = Audio(src: string, paused: bool, position: real, volume: real)

  /** Every state cell of the provider. `audio` is `None` until the mount
      effect has created the audio element. */
  datatype PlayerState = PlayerState(
    currentTrack: Option<Track>,
    isPlaying: bool,
    volume: real,
    currentTime: real,
    duration: real,
    queue: seq<Track>,
    dominantColor: Color,
    audio: Option<Audio>)

  /** The state before anything has happened. */
  const Initial: PlayerState :=
    PlayerState(None, false, 0.7, 0.0, 0.0, [], InitialColor, None)

  /** The audio element agrees with the state cells: it is paused exactly
      when the player is not playing, and it plays at the stored volume;
      before it exists, nothing plays. */
  predicate InSync(s: PlayerState) {
    if s.audio.Some? then s.audio.value.paused == !s.isPlaying && s.audio.value.volume == s.volume
    else !s.isPlaying
  }

  /** What every command and callback keeps, the end of a clip included:
      the element plays at the stored volume and is paused whenever the
      player is not playing, and before it exists nothing plays.  Unlike
      `InSync` it allows a playing flag over a paused element. */
  predicate Coherent(s: PlayerState) {
    if s.audio.Some? then s.audio.value.volume == s.volume && (!s.isPlaying ==> s.audio.value.paused)
    else !s.isPlaying
  }

  // ---------------------------------------------------------------------
  // Queue navigation

  /** `queue.findIndex(t => t.id === current?.id)`: the first position of
      the current track's id, or -1 when there is no current track or its id
      is not in the queue. */
  function FindIndex(queue: seq<Track>, current: Option<Track>): (i: int)
    ensures -1 <= i < |queue|
    ensures i == -1 <==> current.None? || forall k :: 0 <= k < |queue| ==> queue[k].id != current.value.id
    ensures 0 <= i ==> queue[i].id == current.value.id
    ensures 0 <= i ==> forall k :: 0 <= k < i ==> queue[k].id != current.value.id
  {
    if current.None? then -1 else IndexOfId(queue, current.value.id)
  }

  /** The track `nextTrack` plays, if any: the one after the first queue
      entry with the current id (the head of the queue when there is no such
      entry); nothing past the end and nothing on an empty queue. */
  function NextTarget(queue: seq<Track>, current: Option<Track>): (r: Option<Track>)
    ensures r.Some? ==> r.value in queue
    ensures r.None? <==> FindIndex(queue, current) == |queue| - 1
  {
    if |queue| > 0 then
      var next := FindIndex(queue, current) + 1;
      if next < |queue| then Some(queue[next]) else None
    else None
  }

  /** The track `previousTrack` plays, if any: the one before the first
      queue entry with the current id; nothing when that entry is the head,
      when there is no such entry, and on an empty queue. */
  function PrevTarget(queue: seq<Track>, current: Option<Track>): (r: Option<Track>)
    ensures r.Some? ==> r.value in queue && current.Some? && r.value.id != current.value.id
    ensures r.None? <==> FindIndex(queue, current) <= 0
  {
    if |queue| > 0 then
      var prev := FindIndex(queue, current) - 1;
      if prev >= 0 then Some(queue[prev]) else None
    else None
  }

  /** On an empty queue neither direction has a target. */
  lemma EmptyQueueHasNoTarget(current: Option<Track>)
    ensures NextTarget([], current) == None && PrevTarget([], current) == None
  {
  }

  /** With no current track, or one whose id is not queued, "next" starts the
      queue from its head and "previous" does nothing. */
  lemma OutsideQueue(queue: seq<Track>, current: Option<Track>)
    requires |queue| > 0
    requires current.None? || forall k :: 0 <= k < |queue| ==> queue[k].id != current.value.id
    ensures NextTarget(queue, current) == Some(queue[0])
    ensures PrevTarget(queue, current) == None
  {
  }

  /** Navigation is relative to the FIRST entry carrying the current id. */
  lemma NavigatesFromFirstMatch(queue: seq<Track>, t: Track, i: nat)
    requires i < |queue| && queue[i].id == t.id
    requires forall k :: 0 <= k < i ==> queue[k].id != t.id
    ensures NextTarget(queue, Some(t)) == if i + 1 < |queue| then Some(queue[i + 1]) else None
    ensures PrevTarget(queue, Some(t)) == if i >= 1 then Some(queue[i - 1]) else None
  {
    assert FindIndex(queue, Some(t)) == i;
  }

  /** There is no wrap-around: at the last entry "next" has no target. */
  lemma NoWrapAtEnd(queue: seq<Track>, t: Track)
    requires |queue| > 0 && queue[|queue| - 1].id == t.id
    requires forall k :: 0 <= k < |queue| - 1 ==> queue[k].id != t.id
    ensures NextTarget(queue, Some(t)) == None
  {
    NavigatesFromFirstMatch(queue, t, |queue| - 1);
  }

  /** With distinct ids, "next" from entry i reaches entry i+1 and
      "previous" from there comes back to entry i. */
  lemma NextThenPrevious(queue: seq<Track>, i: nat)
    requires DistinctIds(queue) && i + 1 < |queue|
    ensures NextTarget(queue, Some(queue[i])) == Some(queue[i + 1])
    ensures PrevTarget(queue, Some(queue[i + 1])) == Some(queue[i])
  {
    NavigatesFromFirstMatch(queue, queue[i], i);
    NavigatesFromFirstMatch(queue, queue[i + 1], i + 1);
  }

  /** A repeated id sends "next" back into the queue: from the later copy of
      a track, "next" plays the entry after the earlier copy. */
  lemma RepeatedIdLoops(a: Track, b: Track, a2: Track)
    requires a.id == a2.id && a.id != b.id
    ensures NextTarget([a, b, a2], Some(a2)) == Some(b)
  {
    NavigatesFromFirstMatch([a, b, a2], a2, 0);
  }

  // ---------------------------------------------------------------------
  // Transitions

  /** The mount effect: creates the audio element once, at the stored
      volume; a second call changes nothing. */
  function Mount(s: PlayerState): (r: PlayerState)
    ensures s.audio.None? ==> r == s.(audio := Some(Audio("", true, 0.0, s.volume)))
    ensures s.audio.Some? ==> r == s
  {
    if s.audio.Some? then s else s.(audio := Some(Audio("", true, 0.0, s.volume)))
  }

  /** `playTrack(t)`: when the audio element exists, load `t.preview` into it
      and play, make `t` current and set playing. A new source starts at
      position 0 in the element; the `currentTime` cell is not reset here
      (it follows the element's next time update). */
  function Play(s: PlayerState, t: Track): (r: PlayerState)
    ensures s.audio.Some? ==> r.currentTrack == Some(t) && r.isPlaying
    ensures s.audio.Some? ==> r.audio == Some(s.audio.value.(src := t.preview, paused := false, position := 0.0))
    ensures s.audio.None? ==> r == s
    ensures r.queue == s.queue && r.volume == s.volume && r.currentTime == s.currentTime
    ensures r.duration == s.duration && r.dominantColor == s.dominantColor
  {
    if s.audio.None? then s
    else s.(audio := Some(s.audio.value.(src := t.preview, paused := false, position := 0.0)),
            currentTrack := Some(t), isPlaying := true)
  }

  /** `togglePlay`: when the audio element exists, pause it if playing and
      resume it otherwise, and negate the playing flag. */
  function Toggle(s: PlayerState): (r: PlayerState)
    ensures s.audio.Some? ==> r.isPlaying == !s.isPlaying && r.audio.Some? && r.audio.value.paused == s.isPlaying
    ensures s.audio.None? ==> r == s
    ensures r.currentTrack == s.currentTrack && r.queue == s.queue && r.currentTime == s.currentTime
    ensures r.volume == s.volume && r.duration == s.duration && r.dominantColor == s.dominantColor
    ensures r.audio.Some? ==> r.audio.value.src == s.audio.value.src && r.audio.value.position == s.audio.value.position
  {
    if s.audio.None? then s
    else s.(audio := Some(s.audio.value.(paused := s.isPlaying)), isPlaying := !s.isPlaying)
  }

  /** `nextTrack`: play the next target, if there is one. */
  function Next(s: PlayerState): (r: PlayerState)
    ensures r.queue == s.queue && r.volume == s.volume && r.currentTime == s.currentTime
    ensures NextTarget(s.queue, s.currentTrack).None? || s.audio.None? ==> r == s
    ensures NextTarget(s.queue, s.currentTrack).Some? && s.audio.Some? ==>
      r.currentTrack == NextTarget(s.queue, s.currentTrack) && r.isPlaying &&
      r.audio.Some? && r.audio.value.src == r.currentTrack.value.preview && !r.audio.value.paused
  {
    match NextTarget(s.queue, s.currentTrack)
    case Some(t) => Play(s, t)
    case None => s
  }

  /** `previousTrack`: play the previous target, if there is one. */
  function Prev(s: PlayerState): (r: PlayerState)
    ensures r.queue == s.queue && r.volume == s.volume && r.currentTime == s.currentTime
    ensures PrevTarget(s.queue, s.currentTrack).None? || s.audio.None? ==> r == s
    ensures PrevTarget(s.queue, s.currentTrack).Some? && s.audio.Some? ==>
      r.currentTrack == PrevTarget(s.queue, s.currentTrack) && r.isPlaying &&
      r.audio.Some? && r.audio.value.src == r.currentTrack.value.preview && !r.audio.value.paused
  {
    match PrevTarget(s.queue, s.currentTrack)
    case Some(t) => Play(s, t)
    case None => s
  }

  /** An audio element pauses itself when its clip has played to the end,
      before it fires 'ended'. */
  function PausedAtEnd(s: PlayerState): (r: PlayerState)
    ensures s.audio.Some? ==> r.audio == Some(s.audio.value.(paused := true))
    ensures r.(audio := s.audio) == s
  {
    if s.audio.Some? then s.(audio := Some(s.audio.value.(paused := true))) else s
  }

  /** The end of a clip as the code handles it: the element has paused
      itself, and the 'ended' listener, registered once by the mount effect,
      calls the `nextTrack` of the first render, whose queue and current
      track are the initial ones. */
  function ClipEnded(s: PlayerState): (r: PlayerState)
    ensures r.queue == s.queue && r.volume == s.volume && r.currentTime == s.currentTime
  {
    var ended := PausedAtEnd(s);
    match NextTarget(Initial.queue, Initial.currentTrack)
    case Some(t) => Play(ended, t)
    case None => ended
  }

  /** The end of a clip as evidently intended: advance to the next target of
      the current queue, and when there is none, stop playing. */
  function ClipEndedIntended(s: PlayerState): (r: PlayerState)
    ensures r.queue == s.queue && r.volume == s.volume && r.currentTime == s.currentTime
  {
    var ended := PausedAtEnd(s);
    match NextTarget(s.queue, s.currentTrack)
    case Some(t) => Play(ended, t)
    case None => ended.(isPlaying := false)
  }

  /** `setVolume(v)`: stores `v` as it is (no clamping); the volume effect
      then applies it to the audio element. */
  function SetVolume(s: PlayerState, v: real): (r: PlayerState)
    ensures r.volume == v && (r.audio.Some? ==> r.audio.value.volume == v)
    ensures r.audio.None? <==> s.audio.None?
    ensures r.(volume := s.volume, audio := s.audio) == s
  {
    s.(volume := v, audio := if s.audio.Some? then Some(s.audio.value.(volume := v)) else None)
  }

  /** `seek(time)`: when the audio element exists, move it to `time` and
      store `time` as the current time (no clamping). */
  function SeekTo(s: PlayerState, time: real): (r: PlayerState)
    ensures s.audio.Some? ==> r.currentTime == time && r.audio.Some? && r.audio.value.position == time
    ensures s.audio.None? ==> r == s
    ensures r.(currentTime := s.currentTime, audio := s.audio) == s
  {
    if s.audio.None? then s
    else s.(audio := Some(s.audio.value.(position := time)), currentTime := time)
  }

  /** `addToQueue(t)`: append `t` to the queue. */
  function Enqueue(s: PlayerState, t: Track): (r: PlayerState)
    ensures r.queue == s.queue + [t] && |r.queue| == |s.queue| + 1
    ensures r.(queue := s.queue) == s
  {
    s.(queue := s.queue + [t])
  }

  /** The element's 'timeupdate' event: the current-time cell follows the
      position the element reports. */
  function TimeUpdate(s: PlayerState, position: real): (r: PlayerState)
    ensures r.currentTime == position
    ensures r.(currentTime := s.currentTime) == s
  {
    s.(currentTime := position)
  }

  /** The element's 'loadedmetadata' event: the duration cell takes the
      reported duration, or 0 when it is not a number or 0 (`|| 0`). */
  function MetadataLoaded(s: PlayerState, reported: Option<real>): (r: PlayerState)
    ensures r.duration == reported.GetOr(0.0)
    ensures r.(duration := s.duration) == s
  {
    s.(duration := reported.GetOr(0.0))
  }

  /** The cover image has loaded: publish the colour of its pixels. The
      result is applied whichever track is current by then. */
  function CoverLoaded(s: PlayerState, pixels: seq<int>): (r: PlayerState)
    requires IsPixelData(pixels)
    ensures r.dominantColor == ColorOf(pixels)
    ensures r.dominantColor.Hsl? ==> r.dominantColor.l >= LightnessFloor
    ensures r.(dominantColor := s.dominantColor) == s
  {
    s.(dominantColor := ColorOf(pixels))
  }

  // ---------------------------------------------------------------------
  // Properties of the transitions

  /** Playing a track overrides whatever was playing before: the result
      depends on the prior state only through the queue, volume, times,
      colour and the audio element's own volume. */
  lemma PlayForgetsPriorTrack(s1: PlayerState, s2: PlayerState, t: Track)
    requires s1.audio.Some? && s2.audio.Some?
    requires s1.queue == s2.queue && s1.volume == s2.volume && s1.currentTime == s2.currentTime
    requires s1.duration == s2.duration && s1.dominantColor == s2.dominantColor
    requires s1.audio.value.volume == s2.audio.value.volume
    ensures Play(s1, t) == Play(s2, t)
  {
  }

  /** Toggling twice restores the playing flag and leaves track, queue and
      time untouched; from a state whose element agrees with the flag it
      restores the whole state. */
  lemma {:induction false} ToggleTwice(s: PlayerState)
    ensures Toggle(Toggle(s)).isPlaying == s.isPlaying
    ensures Toggle(Toggle(s)).currentTrack == s.currentTrack
    ensures Toggle(Toggle(s)).queue == s.queue && Toggle(Toggle(s)).currentTime == s.currentTime
    ensures InSync(s) ==> Toggle(Toggle(s)) == s
  {
    if s.audio.Some? {
      var a := s.audio.value;
      assert Toggle(s).audio == Some(a.(paused := s.isPlaying));
      assert Toggle(Toggle(s)).audio == Some(a.(paused := !s.isPlaying));
    }
  }

  /** On an empty queue navigation changes nothing at all. */
  lemma EmptyQueueNavigationIsNoOp(s: PlayerState)
    ensures s.queue == [] ==> Next(s) == s && Prev(s) == s
  {
    EmptyQueueHasNoTarget(s.currentTrack);
  }

  /** Every command and callback keeps the audio element in agreement with
      the playing flag and the volume cell. */
  lemma {:induction false} TransitionsKeepSync(s: PlayerState, t: Track, v: real, time: real, pixels: seq<int>)
    requires InSync(s) && IsPixelData(pixels)
    ensures InSync(Mount(s)) && InSync(Play(s, t)) && InSync(Toggle(s))
    ensures InSync(Next(s)) && InSync(Prev(s)) && InSync(SetVolume(s, v))
    ensures InSync(SeekTo(s, time)) && InSync(Enqueue(s, t)) && InSync(TimeUpdate(s, time))
    ensures InSync(MetadataLoaded(s, Some(time))) && InSync(CoverLoaded(s, pixels))
  {
    match NextTarget(s.queue, s.currentTrack) {
      case Some(n) => assert Next(s) == Play(s, n);
      case None =>
    }
    match PrevTarget(s.queue, s.currentTrack) {
      case Some(p) => assert Prev(s) == Play(s, p);
      case None =>
    }
  }

  /** Every command and callback, the end of a clip included, keeps the
      weaker agreement `Coherent`; `InSync` implies it. */
  lemma {:induction false} TransitionsKeepCoherent(s: PlayerState, t: Track, v: real, time: real, pixels: seq<int>)
    requires Coherent(s) && IsPixelData(pixels)
    ensures Coherent(Mount(s)) && Coherent(Play(s, t)) && Coherent(Toggle(s))
    ensures Coherent(Next(s)) && Coherent(Prev(s)) && Coherent(SetVolume(s, v))
    ensures Coherent(SeekTo(s, time)) && Coherent(Enqueue(s, t)) && Coherent(TimeUpdate(s, time))
    ensures Coherent(MetadataLoaded(s, Some(time))) && Coherent(CoverLoaded(s, pixels))
    ensures Coherent(ClipEnded(s)) && Coherent(ClipEndedIntended(s))
  {
    match NextTarget(s.queue, s.currentTrack) {
      case Some(n) => assert Next(s) == Play(s, n);
      case None =>
    }
    match PrevTarget(s.queue, s.currentTrack) {
      case Some(p) => assert Prev(s) == Play(s, p);
      case None =>
    }
  }

  /** As written, the end of a clip never advances: the listener's
      `nextTrack` sees an empty queue.  The element is left paused while the
      playing flag keeps its value. */
  lemma ClipEndNeverAdvances(s: PlayerState)
    ensures ClipEnded(s) == PausedAtEnd(s)
    ensures ClipEnded(s).currentTrack == s.currentTrack && ClipEnded(s).isPlaying == s.isPlaying
  {
    EmptyQueueHasNoTarget(Initial.currentTrack);
  }

  /** The discrepancy on a concrete input: queue [a, b] with `a` playing.
      When a's clip ends, `b` is the next target, but the code keeps `a`
      current and the flag set over a paused element, so the bar shows
      "playing" over silence; the first toggle then pauses the already
      paused element and only clears the flag. */
  lemma ClipEndDesyncs(a: Track, b: Track)
    requires a.id != b.id
    ensures var s := Play(Enqueue(Enqueue(Mount(Initial), a), b), a);
      var r := ClipEnded(s);
      InSync(s) && NextTarget(s.queue, s.currentTrack) == Some(b) &&
      r.currentTrack == Some(a) && r.isPlaying && r.audio.value.paused && !InSync(r) &&
      !Toggle(r).isPlaying && Toggle(r).audio.value.paused
  {
    var s := Play(Enqueue(Enqueue(Mount(Initial), a), b), a);
    assert s.queue == [a, b];
    NextThenPrevious([a, b], 0);
    ClipEndNeverAdvances(s);
  }

  /** The intended handling keeps the element in step with the flag: with a
      next target it is "next" itself, and at the end of the queue it stops
      on the same track. */
  lemma {:induction false} IntendedEndKeepsSync(s: PlayerState)
    requires InSync(s)
    ensures InSync(ClipEndedIntended(s))
    ensures NextTarget(s.queue, s.currentTrack).Some? && s.audio.Some? ==> ClipEndedIntended(s) == Next(s)
    ensures NextTarget(s.queue, s.currentTrack).None? ==>
      !ClipEndedIntended(s).isPlaying && ClipEndedIntended(s).currentTrack == s.currentTrack
  {
    match NextTarget(s.queue, s.currentTrack) {
      case Some(n) =>
        if s.audio.Some? {
          assert PausedAtEnd(s).audio.value.volume == s.audio.value.volume;
          assert ClipEndedIntended(s) == Play(PausedAtEnd(s), n);
        }
      case None =>
    }
  }

  /** A walk through the queue as the code does it: after mounting, enqueue
      A and B, play A, seek to 30 s, go next and then previous. "next" plays
      B and "previous" plays A again; the time cell keeps 30 throughout,
      since changing track does not reset it. */
  lemma QueueWalk(a: Track, b: Track)
    requires a.id != b.id
    ensures var s0 := SeekTo(Play(Enqueue(Enqueue(Mount(Initial), a), b), a), 30.0);
      var s1 := Next(s0);
      var s2 := Prev(s1);
      s1.currentTrack == Some(b) && s1.isPlaying && s1.currentTime == 30.0 &&
      s2.currentTrack == Some(a) && s2.isPlaying && s2.audio.value.position == 0.0 &&
      s2.currentTime == 30.0
  {
    var s0 := SeekTo(Play(Enqueue(Enqueue(Mount(Initial), a), b), a), 30.0);
    assert s0.queue == [a, b];
    NextThenPrevious([a, b], 0);
  }

  // ---------------------------------------------------------------------
  // The provider as an object

  class Player {
    var currentTrack: Option<Track>
    var isPlaying: bool
    var volume: real
    var currentTime: real
    var duration: real
    var queue: seq<Track>
    var dominantColor: Color
    var audio: Option<Audio>

    /** All the cells as one value. */
    function State(): PlayerState
      reads this
    {
      PlayerState(currentTrack, isPlaying, volume, currentTime, duration, queue, dominantColor, audio)
    }

    ghost predicate Valid()
      reads this
    {
      Coherent(State())
    }

    constructor ()
      ensures State() == Initial && Valid()
    {
      currentTrack := None;
      isPlaying := false;
      volume := 0.7;
      currentTime := 0.0;
      duration := 0.0;
      queue := [];
      dominantColor := InitialColor;
      audio := None;
    }

    method MountAudio()
      requires Valid()
      modifies this
      ensures Valid() && State() == Mount(old(State()))
    {
      if audio.None? {
        audio := Some(Audio("", true, 0.0, volume));
      }
    }

    method PlayTrack(t: Track)
      requires Valid()
      modifies this
      ensures Valid() && State() == Play(old(State()), t)
    {
      if audio.Some? {
        audio := Some(audio.value.(src := t.preview, paused := false, position := 0.0));
        currentTrack := Some(t);
        isPlaying := true;
      }
    }

    method TogglePlay()
      requires Valid()
      modifies this
      ensures Valid() && State() == Toggle(old(State()))
    {
      if audio.Some? {
        if isPlaying {
          audio := Some(audio.value.(paused := true));
        } else {
          audio := Some(audio.value.(paused := false));
        }
        isPlaying := !isPlaying;
      }
    }

    method NextTrack()
      requires Valid()
      modifies this
      ensures Valid() && State() == Next(old(State()))
    {
      if |queue| > 0 {
        var nextIndex := FindIndex(queue, currentTrack) + 1;
        if nextIndex < |queue| {
          PlayTrack(queue[nextIndex]);
        }
      }
    }

    method PreviousTrack()
      requires Valid()
      modifies this
      ensures Valid() && State() == Prev(old(State()))
    {
      if |queue| > 0 {
        var prevIndex := FindIndex(queue, currentTrack) - 1;
        if prevIndex >= 0 {
          PlayTrack(queue[prevIndex]);
        }
      }
    }

    method SetVolumeLevel(v: real)
      requires Valid()
      modifies this
      ensures Valid() && State() == SetVolume(old(State()), v)
    {
      volume := v;
      if audio.Some? {
        audio := Some(audio.value.(volume := v));
      }
    }

    method Seek(time: real)
      requires Valid()
      modifies this
      ensures Valid() && State() == SeekTo(old(State()), time)
    {
      if audio.Some? {
        audio := Some(audio.value.(position := time));
        currentTime := time;
      }
    }

    method AddToQueue(t: Track)
      requires Valid()
      modifies this
      ensures Valid() && State() == Enqueue(old(State()), t)
    {
      queue := queue + [t];
    }

    method OnTimeUpdate(position: real)
      requires Valid()
      modifies this
      ensures Valid() && State() == TimeUpdate(old(State()), position)
    {
      currentTime := position;
    }

    method OnLoadedMetadata(reported: Option<real>)
      requires Valid()
      modifies this
      ensures Valid() && State() == MetadataLoaded(old(State()), reported)
    {
      duration := reported.GetOr(0.0);
    }

    /** The 'ended' event: the element has paused itself, and the listener's
        `nextTrack`, the one of the first render, finds no queue to advance
        in. */
    method OnEnded()
      requires Valid()
      modifies this
      ensures Valid() && State() == ClipEnded(old(State()))
      ensures currentTrack == old(currentTrack) && isPlaying == old(isPlaying)
      ensures audio.Some? <==> old(audio).Some?
      ensures audio.Some? ==> audio.value.paused
    {
      ClipEndNeverAdvances(State());
      if audio.Some? {
        audio := Some(audio.value.(paused := true));
      }
    }

    /** The cover image's load handler: average the pixels and publish. */
    method OnCoverLoaded(pixels: seq<int>)
      requires Valid() && IsPixelData(pixels)
      modifies this
      ensures Valid() && State() == CoverLoaded(old(State()), pixels)
    {
      var sums := SumBrightPixels(pixels);
      BrightSumsBounded(pixels);
      if sums.count == 0 {
        dominantColor := NotANumber;
      } else {
        var r := ChannelMean(sums.r, sums.count);
        var g := ChannelMean(sums.g, sums.count);
        var b := ChannelMean(sums.b, sums.count);
        var hsl := RgbToHsl(r, g, b);
        dominantColor := Hsl(hsl.h, hsl.s, if hsl.l > LightnessFloor then hsl.l else LightnessFloor);
      }
    }
  }
}
