/**
 * The playlist / playback controller of the ExoPlayer-based view
 * (package com.unifiedplayer). The player SDK is replaced by an abstract
 * record of what the view has told it; the events the view dispatches to the
 * JavaScript side are an append-only log.
 */
module UnifiedPlayer {
  import opened Options
  import opened PlayerEvents

  datatype RepeatMode = RepeatOff | RepeatOne

  /**
   * What the view has told the player: the media item set (if any), whether
   * it was prepared since the last stop, `playWhenReady` and the repeat mode.
   */
  datatype Player = Player(media: Option<string>, prepared: bool, playWhenReady: bool, repeatMode: RepeatMode) {
    function Stop(): Player { this.(prepared := false) }
    function ClearMediaItems(): Player { this.(media := None) }
    function SetMediaItem(url: string): Player { this.(media := Some(url)) }
    function Prepare(): Player { this.(prepared := true) }
  }

  /** A freshly built player: nothing loaded, idle, not playing, no repeat. */
  const NEW_PLAYER := Player(None, false, false, RepeatOff)

  /** The parts of an event payload the controller sets: the playlist `index` and the `isFullscreen` flag. */
  datatype Payload = Payload(index: Option<int>, isFullscreen: Option<bool>)

  const NO_PAYLOAD := Payload(None, None)

  /** A dispatched event: its "top..." name and its payload. */
  datatype Event = Event(name: string, payload: Payload)

  const COMPLETE := Event("topPlaybackComplete", NO_PAYLOAD)

  /** The repeat mode the view gives the player: playlists loop by hand, so only a single video repeats. */
  function RepeatModeFor(isPlaylist: bool, loop: bool): (m: RepeatMode)
    ensures isPlaylist ==> m == RepeatOff
    ensures !isPlaylist ==> (m == RepeatOne <==> loop)
  {
    if isPlaylist then RepeatOff else if loop then RepeatOne else RepeatOff
  }

  /** The payload of the load-start event: the playlist index, and only in playlist mode. */
  function LoadStartPayload(isPlaylist: bool, index: int): (p: Payload)
    ensures p.index.Some? <==> isPlaylist
    ensures isPlaylist ==> p.index == Some(index)
    ensures p.isFullscreen.None?
  {
    if isPlaylist then Payload(Some(index), None) else NO_PAYLOAD
  }

  /** What the view does when the player reports that the current item has ended. */
  datatype EndedAction =
    | LoadAt(index: int)   // load this playlist entry, no complete event
    | FinishPlaylist       // reset the index to 0 and emit one complete event
    | CompleteSingle       // emit one complete event for the single video
    | RepeatSingle         // nothing: the player repeats the single video itself

  predicate EmitsComplete(a: EndedAction) {
    a.FinishPlaylist? || a.CompleteSingle?
  }

  /**
   * The decision taken on STATE_ENDED. In a playlist of `size` entries: the
   * next entry if there is one, else the first entry when looping, else the
   * end of the playlist. For a single video: a complete event exactly when
   * not looping.
   */
  function ActionOnEnded(isPlaylist: bool, loop: bool, index: int, size: int): (a: EndedAction)
    ensures a.LoadAt? ==> isPlaylist
    ensures isPlaylist && index + 1 < size ==> a == LoadAt(index + 1)
    ensures isPlaylist && index + 1 >= size && loop ==> a == LoadAt(0)
    ensures isPlaylist && 0 <= index < size && a.LoadAt? ==> 0 <= a.index < size
    ensures EmitsComplete(a) <==> !loop && (!isPlaylist || index + 1 >= size)
    ensures a == RepeatSingle <==> !isPlaylist && loop
    ensures a == FinishPlaylist <==> isPlaylist && index + 1 >= size && !loop
    ensures a == CompleteSingle <==> !isPlaylist && !loop
  {
    if isPlaylist then
      if index + 1 < size then LoadAt(index + 1)
      else if loop then LoadAt(0)
      else FinishPlaylist
    else if !loop then CompleteSingle
    else RepeatSingle
  }

  /**
   * What `n` successive STATE_ENDED reports do to a playlist of `size`
   * entries positioned at `index`: where it ends up, the entries it loads in
   * order, and how many complete events it emits.
   */
  datatype Trace = Trace(index: int, loads: seq<int>, completes: nat)

  function PlaylistEndings(size: int, loop: bool, index: int, n: nat): (t: Trace)
    requires 0 <= index < size
    ensures 0 <= t.index < size
    ensures forall k :: 0 <= k < |t.loads| ==> 0 <= t.loads[k] < size
    ensures |t.loads| + t.completes == n
    decreases n
  {
    if n == 0 then Trace(index, [], 0)
    else
      var a := ActionOnEnded(true, loop, index, size);
      if a.LoadAt? then
        var rest := PlaylistEndings(size, loop, a.index, n - 1);
        Trace(rest.index, [a.index] + rest.loads, rest.completes)
      else
        // the end of the playlist: the index goes back to 0
        var rest := PlaylistEndings(size, loop, 0, n - 1);
        Trace(rest.index, rest.loads, rest.completes + 1)
  }

  /** Before the last entry is reached, each end loads the next entry and nothing completes. */
  lemma {:induction false} PlaylistAdvancesInOrder(size: int, loop: bool, i: int, n: nat)
    requires 0 <= i && i + n < size
    ensures PlaylistEndings(size, loop, i, n) == Trace(i + n, seq(n, k => i + 1 + k), 0)
    decreases n
  {
    if n > 0 {
      PlaylistAdvancesInOrder(size, loop, i + 1, n - 1);
      assert [i + 1] + seq(n - 1, k => i + 2 + k) == seq(n, k => i + 1 + k);
    }
  }

  /**
   * Without loop, a playlist played from entry `i` loads every later entry
   * exactly once and in order, then emits exactly one complete event and is
   * back at index 0.
   */
  lemma {:induction false} PlaylistWithoutLoopCompletesOnce(size: int, i: int)
    requires 0 <= i < size
    ensures PlaylistEndings(size, false, i, size - i) == Trace(0, seq(size - i - 1, k => i + 1 + k), 1)
    decreases size - i
  {
    if i + 1 < size {
      PlaylistWithoutLoopCompletesOnce(size, i + 1);
      assert [i + 1] + seq(size - i - 2, k => i + 2 + k) == seq(size - i - 1, k => i + 1 + k);
    }
  }

  /**
   * With loop, a playlist never completes: after `n` ends from entry `i` it
   * has loaded entries i+1, i+2, ... modulo the size, and sits at (i + n) mod size.
   */
  lemma {:induction false} LoopingPlaylistNeverCompletes(size: int, i: int, n: nat)
    requires 0 <= i < size
    ensures PlaylistEndings(size, true, i, n) == Trace((i + n) % size, seq(n, k => (i + 1 + k) % size), 0)
    decreases n
  {
    if n > 0 {
      var j := if i + 1 < size then i + 1 else 0;
      LoopingStep(size, i, j, n);
      LoopingPlaylistNeverCompletes(size, j, n - 1);
      ShiftByWrap(size, i, j, n - 1);
      ShiftedLoads(size, i, j, n);
    }
  }

  /** Entry `e` is loaded in the round that starts at `i`, at position `k`. */
  lemma LoadedInRound(size: int, i: int, e: int)
    requires 0 <= i < size && 0 <= e < size
    ensures e in seq(size, k => (i + 1 + k) % size)
  {
    var loads := seq(size, k => (i + 1 + k) % size);
    if e > i {
      SmallMod(e, size);
      assert loads[e - i - 1] == e;
    } else {
      ModAddSize(e, size);
      SmallMod(e, size);
      assert loads[e + size - i - 1] == e;
    }
  }

  /** One end in a looping playlist loads the successor `j` of `i`. */
  lemma LoopingStep(size: int, i: int, j: int, n: nat)
    requires 0 <= i < size && n > 0
    requires j == if i + 1 < size then i + 1 else 0
    ensures 0 <= j < size
    ensures var rest := PlaylistEndings(size, true, j, n - 1);
      PlaylistEndings(size, true, i, n) == Trace(rest.index, [j] + rest.loads, rest.completes)
  {
    assert ActionOnEnded(true, true, i, size) == LoadAt(j);
  }

  /** The loads from the successor `j`, preceded by `j`, are the loads from `i`. */
  lemma ShiftedLoads(size: int, i: int, j: int, n: nat)
    requires 0 <= i < size && n > 0
    requires j == if i + 1 < size then i + 1 else 0
    ensures [j] + seq(n - 1, k => (j + 1 + k) % size) == seq(n, k => (i + 1 + k) % size)
  {
    var rest := seq(n - 1, k => (j + 1 + k) % size);
    var whole := seq(n, k => (i + 1 + k) % size);
    forall k | 0 <= k < n
      ensures ([j] + rest)[k] == whole[k]
    {
      ShiftByWrap(size, i, j, k);
      if k == 0 {
        SmallMod(j, size);
      } else {
        assert ([j] + rest)[k] == rest[k - 1] == (j + k) % size;
      }
    }
  }

  /** Moving from `i` to its successor `j` shifts position `k` by one, modulo the size. */
  lemma ShiftByWrap(size: int, i: int, j: int, k: nat)
    requires 0 <= i < size
    requires j == if i + 1 < size then i + 1 else 0
    ensures (j + k) % size == (i + 1 + k) % size
  {
    if i + 1 == size {
      ModAddSize(k, size);
    }
  }

  lemma SmallMod(x: int, m: int)
    requires 0 <= x < m
    ensures x % m == x
  {
  }

  /** Adding the modulus does not change the remainder. */
  lemma ModAddSize(x: int, m: int)
    requires m > 0 && x >= 0
    ensures (x + m) % m == x % m
  {
    var q, r := x / m, x % m;
    var q2, r2 := (x + m) / m, (x + m) % m;
    assert (q + 1) * m == q * m + m;
    assert (q + 1 - q2) * m == r2 - r;
    NonzeroMultiple(q + 1 - q2, m);
  }

  /** A multiple of `m` other than 0 is at least `m` away from 0. */
  lemma NonzeroMultiple(d: int, m: int)
    requires m > 0
    ensures d == 0 || d * m >= m || d * m <= -m
  {
    if d >= 1 {
      assert d * m == (d - 1) * m + m;
      assert (d - 1) * m >= 0;
    } else if d <= -1 {
      assert d * m == -((-d) * m);
      assert (-d - 1) * m >= 0;
      assert (-d) * m == (-d - 1) * m + m;
    }
  }

  /** With loop, one full round of `size` ends returns to the starting entry having loaded each entry once. */
  lemma LoopingPlaylistRoundTrip(size: int, i: int)
    requires 0 <= i < size
    ensures PlaylistEndings(size, true, i, size).index == i
    ensures PlaylistEndings(size, true, i, size).completes == 0
    ensures forall e :: 0 <= e < size ==> e in PlaylistEndings(size, true, i, size).loads
  {
    LoopingPlaylistNeverCompletes(size, i, size);
    ModAddSize(i, size);
    SmallMod(i, size);
    var loads := PlaylistEndings(size, true, i, size).loads;
    forall e | 0 <= e < size
      ensures e in loads
    {
      LoadedInRound(size, i, e);
    }
  }

  /**
   * The view. The fields are the controller's state; `player` is the
   * abstract player and `events` the log of dispatched events.
   */
  class UnifiedPlayerView {
    var videoUrl: Option<string>
    var videoUrls: seq<string>
    var currentVideoIndex: int
    var isPlaylist: bool
    var autoplay: bool
    var loop: bool
    var isPaused: bool
    var isFullscreen: bool
    var isRecording: bool
    var outputPath: Option<string>
    var player: Player
    var events: seq<Event>

    /**
     * The invariant the controller keeps: in playlist mode the index is
     * within the playlist and no single URL is set; otherwise the playlist
     * is empty and the index 0; a recording always has an output path.
     */
    ghost predicate Valid()
      reads this
    {
      && (isPlaylist ==> 0 <= currentVideoIndex < |videoUrls| && videoUrl == None)
      && (!isPlaylist ==> videoUrls == [] && currentVideoIndex == 0)
      && (isRecording ==> outputPath.Some?)
    }

    /** In playlist mode, the player holds the entry at the current index. */
    ghost predicate OnCurrentEntry()
      reads this
    {
      isPlaylist && 0 <= currentVideoIndex < |videoUrls| && player.media == Some(videoUrls[currentVideoIndex])
    }

    /** The player as `LoadVideoSource(url)` leaves it, given the current flags. */
    ghost function LoadedWith(url: string): Player
      reads this
    {
      Player(Some(url), true, autoplay && !isPaused, RepeatModeFor(isPlaylist, loop))
    }

    /** The load-start event `LoadVideoSource` dispatches, given the current mode and index. */
    ghost function LoadStartEvent(): Event
      reads this
    {
      Event("topLoadStart", LoadStartPayload(isPlaylist, currentVideoIndex))
    }

    /** The source was cleared: no playlist, no URL, the player stopped and emptied, no event. */
    twostate predicate SourceCleared()
      reads this
    {
      && !isPlaylist && videoUrls == [] && currentVideoIndex == 0 && videoUrl == None
      && player == old(player).Stop().ClearMediaItems()
      && events == old(events)
    }

    constructor ()
      ensures Valid()
      ensures videoUrl == None && videoUrls == [] && currentVideoIndex == 0 && !isPlaylist
      ensures autoplay && !loop && !isPaused && !isFullscreen
      ensures !isRecording && outputPath == None
      ensures player == NEW_PLAYER && events == []
    {
      videoUrl := None;
      videoUrls := [];
      currentVideoIndex := 0;
      isPlaylist := false;
      autoplay := true;
      loop := false;
      isPaused := false;
      isFullscreen := false;
      isRecording := false;
      outputPath := None;
      player := NEW_PLAYER;
      events := [];
    }

    /** Dispatch an event under its "top..." name; a name that cannot be translated is dropped. */
    method SendEvent(eventName: string, payload: Payload)
      modifies this`events
      ensures events == old(events) + match TopEventName(eventName)
                                      case Some(top) => [Event(top, payload)]
                                      case None => []
    {
      var top := TopEventName(eventName);
      if top.Some? {
        events := events + [Event(top.value, payload)];
      }
    }

    /**
     * Stop, clear, load and prepare `url`; apply the autoplay/paused gating
     * and the repeat mode; dispatch the load-start event.
     */
    method LoadVideoSource(url: string)
      modifies this`player, this`events
      ensures player == LoadedWith(url)
      ensures player.playWhenReady == (autoplay && !isPaused)
      ensures events == old(events) + [LoadStartEvent()]
    {
      player := player.Stop();
      player := player.ClearMediaItems();
      player := player.SetMediaItem(url);
      player := player.Prepare();
      player := player.(playWhenReady := autoplay && !isPaused);
      if isPlaylist {
        player := player.(repeatMode := RepeatOff);
      } else {
        player := player.(repeatMode := if loop then RepeatOne else RepeatOff);
      }
      DispatchedStateEventNames();
      SendEvent(EVENT_LOAD_START, if isPlaylist then Payload(Some(currentVideoIndex), None) else NO_PAYLOAD);
    }

    /** Load the playlist entry at `index`; an index outside the playlist changes nothing. */
    method LoadVideoAtIndex(index: int)
      requires Valid()
      modifies this`currentVideoIndex, this`player, this`events
      ensures Valid()
      ensures 0 <= index < |videoUrls| ==>
        && currentVideoIndex == index
        && player == LoadedWith(videoUrls[index])
        && events == old(events) + [LoadStartEvent()]
        && OnCurrentEntry()
      ensures !(0 <= index < |videoUrls|) ==> unchanged(this)
    {
      if index >= 0 && index < |videoUrls| {
        currentVideoIndex := index;
        var url := videoUrls[index];
        LoadVideoSource(url);
      }
    }

    /** Play a single URL; a null or empty URL clears the source and leaves nothing loaded. */
    method SetVideoUrl(url: Option<string>)
      requires Valid()
      modifies this`isPlaylist, this`videoUrls, this`currentVideoIndex, this`videoUrl, this`player, this`events
      ensures Valid()
      ensures !isPlaylist && videoUrls == [] && currentVideoIndex == 0
      ensures url.Some? && url.value != "" ==>
        && videoUrl == url
        && player == LoadedWith(url.value)
        && player.repeatMode == (if loop then RepeatOne else RepeatOff)
        && events == old(events) + [Event("topLoadStart", NO_PAYLOAD)]
      ensures url.None? || url.value == "" ==> SourceCleared() && player.media == None
    {
      isPlaylist := false;
      videoUrls := [];
      currentVideoIndex := 0;
      if url.Some? && url.value != "" {
        videoUrl := url;
        LoadVideoSource(url.value);
      } else {
        player := player.Stop();
        player := player.ClearMediaItems();
        videoUrl := None;
      }
    }

    /**
     * Play a playlist from its first entry. An empty list is handled exactly
     * as a null single URL.
     */
    method SetVideoUrls(urls: seq<string>)
      requires Valid()
      modifies this`isPlaylist, this`videoUrls, this`currentVideoIndex, this`videoUrl, this`player, this`events
      ensures Valid()
      ensures urls == [] ==> SourceCleared()
      ensures urls != [] ==>
        && isPlaylist && videoUrl == None && videoUrls == urls && currentVideoIndex == 0
        && player == LoadedWith(urls[0])
        && player.repeatMode == RepeatOff
        && events == old(events) + [Event("topLoadStart", Payload(Some(0), None))]
        && OnCurrentEntry()
    {
      if urls == [] {
        SetVideoUrl(None);
        return;
      }
      isPlaylist := true;
      videoUrl := None;
      videoUrls := urls;
      currentVideoIndex := 0;
      LoadVideoAtIndex(currentVideoIndex);
    }

    /** Store the autoplay flag and hand it straight to the player, whatever the paused flag says. */
    method SetAutoplay(value: bool)
      modifies this`autoplay, this`player
      ensures autoplay == value
      ensures player == old(player).(playWhenReady := value)
    {
      autoplay := value;
      player := player.(playWhenReady := value);
    }

    /** Store the loop flag and re-derive the repeat mode from it. */
    method SetLoop(value: bool)
      modifies this`loop, this`player
      ensures loop == value
      ensures player == old(player).(repeatMode := RepeatModeFor(isPlaylist, value))
    {
      loop := value;
      if !isPlaylist {
        player := player.(repeatMode := if loop then RepeatOne else RepeatOff);
      } else {
        player := player.(repeatMode := RepeatOff);
      }
    }

    /** Store the paused flag and pause or resume the player to match. */
    method SetIsPaused(paused: bool)
      modifies this`isPaused, this`player
      ensures isPaused == paused
      ensures player == old(player).(playWhenReady := !paused)
    {
      isPaused := paused;
      if paused {
        player := player.(playWhenReady := false);
      } else {
        player := player.(playWhenReady := true);
      }
    }

    /** Change the fullscreen flag and announce it; asking for the current state does nothing. */
    method SetIsFullscreen(fullscreen: bool)
      modifies this`isFullscreen, this`events
      ensures isFullscreen == fullscreen
      ensures old(isFullscreen) == fullscreen ==> unchanged(this)
      ensures old(isFullscreen) != fullscreen ==>
        events == old(events) + [Event("topFullscreenChanged", Payload(None, Some(fullscreen)))]
    {
      if isFullscreen == fullscreen {
        return;
      }
      isFullscreen := fullscreen;
      DispatchedStateEventNames();
      SendEvent(EVENT_FULLSCREEN_CHANGED, Payload(None, Some(fullscreen)));
    }

    method Play()
      modifies this`player
      ensures player == old(player).(playWhenReady := true)
    {
      player := player.(playWhenReady := true);
    }

    method Pause()
      modifies this`player
      ensures player == old(player).(playWhenReady := false)
    {
      player := player.(playWhenReady := false);
    }

    /**
     * The player reported STATE_ENDED. The view carries out
     * `ActionOnEnded`; when a non-looping playlist finishes, the index goes
     * back to 0 but entry 0 is not reloaded, so the player still holds the
     * last entry.
     */
    method OnPlaybackEnded()
      requires Valid()
      modifies this`currentVideoIndex, this`player, this`events
      ensures Valid()
      ensures var a := ActionOnEnded(isPlaylist, loop, old(currentVideoIndex), |videoUrls|);
        && (a.LoadAt? ==>
              && currentVideoIndex == a.index
              && player == LoadedWith(videoUrls[a.index])
              && events == old(events) + [LoadStartEvent()]
              && OnCurrentEntry())
        && (a.FinishPlaylist? ==>
              currentVideoIndex == 0 && player == old(player) && events == old(events) + [COMPLETE])
        && (a.CompleteSingle? ==> player == old(player) && events == old(events) + [COMPLETE])
        && (a.RepeatSingle? ==> unchanged(this))
      ensures ActionOnEnded(isPlaylist, loop, old(currentVideoIndex), |videoUrls|).FinishPlaylist? && old(OnCurrentEntry()) ==>
        player.media == Some(videoUrls[|videoUrls| - 1])
    {
      if isPlaylist {
        var nextIndex := currentVideoIndex + 1;
        if nextIndex < |videoUrls| {
          LoadVideoAtIndex(nextIndex);
        } else {
          if loop {
            LoadVideoAtIndex(0);
          } else {
            currentVideoIndex := 0;
            DispatchedStateEventNames();
            SendEvent(EVENT_COMPLETE, NO_PAYLOAD);
          }
        }
      } else {
        if !loop {
          DispatchedStateEventNames();
          SendEvent(EVENT_COMPLETE, NO_PAYLOAD);
        }
      }
    }

    /**
     * Start recording to `path`, or to `generatedPath` (the file name the
     * view derives from the clock) when `path` is empty. Refused when a
     * recording is running or nothing is loaded.
     */
    method StartRecording(path: string, generatedPath: string) returns (started: bool)
      requires Valid()
      modifies this`isRecording, this`outputPath
      ensures Valid()
      ensures started <==> !old(isRecording) && player.media.Some?
      ensures started ==> isRecording && outputPath == Some(if path == "" then generatedPath else path)
      ensures !started ==> unchanged(this)
    {
      if isRecording {
        return false;
      }
      if player.media.None? {
        return false;
      }
      outputPath := Some(if path == "" then generatedPath else path);
      isRecording := true;
      return true;
    }

    /** Stop recording and return the stored output path; "" when no recording runs. */
    method StopRecording() returns (savedPath: string)
      requires Valid()
      modifies this`isRecording
      ensures Valid() && !isRecording
      ensures !old(isRecording) ==> savedPath == "" && unchanged(this)
      ensures old(isRecording) ==> outputPath.Some? && savedPath == outputPath.value
    {
      if !isRecording {
        return "";
      }
      isRecording := false;
      savedPath := outputPath.GetOr("");
    }
  }
}
