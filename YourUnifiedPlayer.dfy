/**
 * The view of package `com.yourunifiedplayer`: a selector that runs either
 * an MP4 player or a WebRTC stream, chosen from two props, the source type
 * and the source map. The MP4 player and its on-screen view are abstract
 * records; the WebRTC SDK has no state here, because its setup and cleanup
 * do nothing but hide the MP4 view.
 */
module YourUnifiedPlayer {
  import opened Options

  /** The player the view runs: NONE, MP4 or WEBRTC. */
  datatype PlayerMode = NoSource | Mp4 | WebRtc

  const MP4_TYPE := "mp4"
  const WEBRTC_TYPE := "webrtc"
  const URI_KEY := "uri"
  const SIGNALING_URL_KEY := "signalingUrl"
  const STREAM_INFO_KEY := "streamInfo"
  const DEFAULT_RESIZE_MODE := "contain"
  const VIDEO_ERROR := "onVideoError"

  /** A value held under a key of the source map (a `ReadableMap`). */
  datatype SourceValue =
    | StringValue(s: string)
    | NullValue
    | MapValue(entries: map<string, SourceValue>)
    | OtherValue

  type SourceMap = map<string, SourceValue>

  /** The outcome of reading the source map: a value, or an exception. */
  datatype Read<T> = Value(v: T) | Throws

  /**
   * `data?.getString(key)`: null when there is no map, no such key or a
   * null value; the string under the key; an exception for any other value.
   */
  function ReadString(data: Option<SourceMap>, key: string): (r: Read<Option<string>>)
    ensures r.Throws? <==> data.Some? && key in data.value && !data.value[key].StringValue? && data.value[key] != NullValue
    ensures r == Value(None) <==> data.None? || key !in data.value || data.value[key] == NullValue
    ensures data.Some? && key in data.value && data.value[key].StringValue? ==> r == Value(Some(data.value[key].s))
  {
    if data.None? || key !in data.value then Value(None)
    else match data.value[key]
      case StringValue(s) => Value(Some(s))
      case NullValue => Value(None)
      case _ => Throws
  }

  /** `data?.getMap(key)`, read the same way as `ReadString`. */
  function ReadMap(data: Option<SourceMap>, key: string): (r: Read<Option<SourceMap>>)
    ensures r.Throws? <==> data.Some? && key in data.value && !data.value[key].MapValue? && data.value[key] != NullValue
    ensures r == Value(None) <==> data.None? || key !in data.value || data.value[key] == NullValue
    ensures data.Some? && key in data.value && data.value[key].MapValue? ==> r == Value(Some(data.value[key].entries))
  {
    if data.None? || key !in data.value then Value(None)
    else match data.value[key]
      case MapValue(m) => Value(Some(m))
      case NullValue => Value(None)
      case _ => Throws
  }

  /** The key is present and holds a string: `getString(key)!!` succeeds. */
  predicate HoldsString(data: Option<SourceMap>, key: string) {
    ReadString(data, key).Value? && ReadString(data, key).v.Some?
  }

  /** The source type as `setSourceType` stores it: "mp4", "webrtc" or null. */
  function NormalisedSourceType(t: Option<string>): (r: Option<string>)
    ensures r.Some? <==> t == Some(MP4_TYPE) || t == Some(WEBRTC_TYPE)
    ensures r.Some? ==> r == t
  {
    if t == Some(MP4_TYPE) || t == Some(WEBRTC_TYPE) then t else None
  }

  /** The mode the props call for. */
  function TargetMode(t: Option<string>, data: Option<SourceMap>): (m: PlayerMode)
    ensures m == Mp4 <==> t == Some(MP4_TYPE) && data.Some? && URI_KEY in data.value
    ensures m == WebRtc <==> t == Some(WEBRTC_TYPE) && data.Some? && SIGNALING_URL_KEY in data.value
  {
    if t == Some(MP4_TYPE) then
      (if data.Some? && URI_KEY in data.value then Mp4 else NoSource)
    else if t == Some(WEBRTC_TYPE) then
      (if data.Some? && SIGNALING_URL_KEY in data.value then WebRtc else NoSource)
    else NoSource
  }

  /** Setting up the player of a mode throws while reading the source map. */
  predicate SetupFails(mode: PlayerMode, data: Option<SourceMap>) {
    match mode
    case NoSource => false
    case Mp4 => !HoldsString(data, URI_KEY)
    case WebRtc => !HoldsString(data, SIGNALING_URL_KEY) || ReadMap(data, STREAM_INFO_KEY).Throws?
  }

  /** `volume.coerceIn(0f, 1f)`. */
  function ClampVolume(volume: real): (r: real)
    ensures 0.0 <= r <= 1.0
    ensures 0.0 <= volume <= 1.0 ==> r == volume
    ensures volume < 0.0 ==> r == 0.0
    ensures volume > 1.0 ==> r == 1.0
  {
    if volume < 0.0 then 0.0 else if volume > 1.0 then 1.0 else volume
  }

  /** The volume given to the player: silent when muted. */
  function EffectiveVolume(muted: bool, volume: real): (r: real)
    ensures muted ==> r == 0.0
    ensures !muted ==> r == volume
    ensures 0.0 <= volume <= 1.0 ==> 0.0 <= r <= volume
    ensures r == volume <==> !muted || volume == 0.0
  {
    if muted then 0.0 else volume
  }

  /** The player view's `RESIZE_MODE_FIT`, `RESIZE_MODE_ZOOM` and `RESIZE_MODE_FILL`. */
  datatype ResizeMode = Fit | Zoom | Fill

  /** The resize mode the view applies for a resize-mode prop. */
  function ExoResizeMode(mode: string): (r: ResizeMode)
    ensures r == Zoom <==> mode == "cover"
    ensures r == Fill <==> mode == "stretch"
    ensures mode == DEFAULT_RESIZE_MODE ==> r == Fit
  {
    if mode == "cover" then Zoom
    else if mode == "stretch" then Fill
    else Fit
  }

  const LONG_MIN := -0x8000_0000_0000_0000
  const LONG_MAX := 0x7fff_ffff_ffff_ffff

  /** `Double.toLong()`: rounds toward zero and saturates at the ends of the Long range. */
  function DoubleToLong(x: real): (r: int)
    ensures LONG_MIN <= r <= LONG_MAX
    ensures 0.0 <= x < LONG_MAX as real ==> r as real <= x < r as real + 1.0
    ensures LONG_MIN as real < x <= 0.0 ==> r as real - 1.0 < x <= r as real
    ensures x >= LONG_MAX as real ==> r == LONG_MAX
    ensures x <= LONG_MIN as real ==> r == LONG_MIN
  {
    if x >= LONG_MAX as real then LONG_MAX
    else if x <= LONG_MIN as real then LONG_MIN
    else if x >= 0.0 then x.Floor
    else -((-x).Floor)
  }

  /** The position in milliseconds that `seek` asks for. */
  function SeekTargetMs(timeSeconds: real): (ms: int)
    ensures LONG_MIN <= ms <= LONG_MAX
    ensures 0.0 <= timeSeconds * 1000.0 < LONG_MAX as real ==> ms as real <= timeSeconds * 1000.0 < ms as real + 1.0
    ensures LONG_MIN as real < timeSeconds * 1000.0 <= 0.0 ==> ms as real - 1.0 < timeSeconds * 1000.0 <= ms as real
    ensures timeSeconds * 1000.0 >= LONG_MAX as real ==> ms == LONG_MAX
    ensures timeSeconds * 1000.0 <= LONG_MIN as real ==> ms == LONG_MIN
  {
    DoubleToLong(timeSeconds * 1000.0)
  }

  /** A whole number of milliseconds in the Long range converts exactly. */
  lemma DoubleToLongOfWhole(n: int)
    requires LONG_MIN <= n <= LONG_MAX
    ensures DoubleToLong(n as real) == n
  {
    if n < 0 && n > LONG_MIN {
      assert (-(n as real)).Floor == -n;
    }
  }

  /** A seek to a whole number of milliseconds, given in seconds, asks for exactly that position. */
  lemma SeekToWholeMilliseconds(ms: int)
    requires LONG_MIN <= ms <= LONG_MAX
    ensures SeekTargetMs(ms as real / 1000.0) == ms
  {
    assert ms as real / 1000.0 * 1000.0 == ms as real;
    DoubleToLongOfWhole(ms);
  }

  /** The conversion keeps the order of its inputs. */
  lemma DoubleToLongMonotone(x: real, y: real)
    requires x <= y
    ensures DoubleToLong(x) <= DoubleToLong(y)
  {
  }

  /** Normalising a stored type again changes nothing. */
  lemma NormalisationIdempotent(t: Option<string>)
    ensures NormalisedSourceType(NormalisedSourceType(t)) == NormalisedSourceType(t)
  {
  }

  /** A stored volume is already clamped, so setting it again is a no-op. */
  lemma ClampIdempotent(volume: real)
    ensures ClampVolume(ClampVolume(volume)) == ClampVolume(volume)
  {
  }

  /**
   * `setSourceType` skips the reconfiguration only when there is no source
   * map and the new type is not null; the mode the props call for is then
   * NONE before and after, so the skip loses nothing.
   */
  lemma SkippedReconfigurationKeepsMode(oldType: Option<string>, newType: Option<string>, data: Option<SourceMap>)
    requires !(data.Some? || newType.None?)
    ensures TargetMode(oldType, data) == NoSource
    ensures TargetMode(newType, data) == NoSource
  {
  }

  /** Without a source type, or without a source map, there is no player. */
  lemma NoPropsNoPlayer(t: Option<string>, data: Option<SourceMap>)
    ensures TargetMode(None, data) == NoSource
    ensures TargetMode(t, None) == NoSource
    ensures !SetupFails(TargetMode(t, None), None)
  {
  }

  /**
   * In MP4 mode the setup throws exactly when the URI is not a string
   * (a null value or a value of another type).
   */
  lemma Mp4SetupFailsIff(data: Option<SourceMap>)
    requires TargetMode(Some(MP4_TYPE), data) == Mp4
    ensures SetupFails(Mp4, data) <==> !data.value[URI_KEY].StringValue?
  {
  }

  /**
   * In WEBRTC mode the setup throws exactly when the signaling URL is not
   * a string or the stream info is present and neither null nor a map.
   */
  lemma WebRtcSetupFailsIff(data: Option<SourceMap>)
    requires TargetMode(Some(WEBRTC_TYPE), data) == WebRtc
    ensures SetupFails(WebRtc, data) <==>
      || !data.value[SIGNALING_URL_KEY].StringValue?
      || (STREAM_INFO_KEY in data.value
          && !data.value[STREAM_INFO_KEY].MapValue? && data.value[STREAM_INFO_KEY] != NullValue)
  {
  }

  /** The MP4 player: only the state the view drives. */
  datatype Exo = Exo(playWhenReady: bool, volume: real, seekRequests: seq<int>)

  const NEW_EXO := Exo(false, 1.0, [])

  /** The MP4 player's on-screen view: its resize mode, visibility and whether it shows the player. */
  datatype View = View(resizeMode: ResizeMode, visible: bool, showsPlayer: bool)

  const NEW_VIEW := View(Fit, true, false)

  class UnifiedPlayerView {
    var currentMode: PlayerMode
    var currentSourceData: Option<SourceMap>
    var currentSourceType: Option<string>
    var exoPlayer: Option<Exo>
    var playerView: Option<View>
    var isPaused: bool
    var isMuted: bool
    var currentVolume: real
    var currentResizeMode: string
    /** The names of the events dispatched to JavaScript. */
    var events: seq<string>

    /** The MP4 player and its view carry the props. */
    ghost predicate InSync()
      reads this
    {
      && (exoPlayer.Some? ==>
            exoPlayer.value.playWhenReady == !isPaused
            && exoPlayer.value.volume == EffectiveVolume(isMuted, currentVolume))
      && (playerView.Some? ==> playerView.value == View(ExoResizeMode(currentResizeMode), true, true))
    }

    /**
     * What holds between calls except the match of the mode with the props:
     * a stored volume in [0, 1], a normalised type, the player and its view
     * present together, only in MP4 mode, and in sync with the props.
     */
    ghost predicate Consistent()
      reads this
    {
      && 0.0 <= currentVolume <= 1.0
      && currentSourceType == NormalisedSourceType(currentSourceType)
      && (exoPlayer.Some? <==> playerView.Some?)
      && (exoPlayer.Some? ==> currentMode == Mp4)
      && InSync()
    }

    /** The invariant the view keeps: consistent, the mode the props call for, and a player only for a playable URI. */
    ghost predicate Valid()
      reads this
    {
      && Consistent()
      && currentMode == TargetMode(currentSourceType, currentSourceData)
      && (exoPlayer.Some? ==> HoldsString(currentSourceData, URI_KEY))
    }

    constructor ()
      ensures Valid()
      ensures currentMode == NoSource && currentSourceData == None && currentSourceType == None
      ensures exoPlayer == None && playerView == None
      ensures isPaused && !isMuted && currentVolume == 1.0 && currentResizeMode == DEFAULT_RESIZE_MODE
      ensures events == []
    {
      currentMode := NoSource;
      currentSourceData := None;
      currentSourceType := None;
      exoPlayer := None;
      playerView := None;
      isPaused := true;
      isMuted := false;
      currentVolume := 1.0;
      currentResizeMode := DEFAULT_RESIZE_MODE;
      events := [];
    }

    /**
     * What a reconfiguration guarantees: the invariant, a player exactly
     * for a playable URI in MP4 mode, one error event when the setup threw,
     * an existing player kept as it was and a new one with no seeks.
     */
    twostate predicate Reconfigured()
      reads this
    {
      && Valid()
      && (exoPlayer.Some? <==> currentMode == Mp4 && HoldsString(currentSourceData, URI_KEY))
      && events == old(events) + (if SetupFails(currentMode, currentSourceData) then [VIDEO_ERROR] else [])
      && (old(exoPlayer).Some? && exoPlayer.Some? ==> exoPlayer == old(exoPlayer))
      && (old(exoPlayer).None? && exoPlayer.Some? ==> exoPlayer.value.seekRequests == [])
    }

    /** The type prop: stored normalised; reconfigures when it changed and there is a map or the type was cleared. */
    method SetSourceType(t: Option<string>)
      requires Valid()
      modifies this`currentSourceType, this`currentMode, this`exoPlayer, this`playerView, this`events
      ensures currentSourceType == NormalisedSourceType(t)
      ensures Valid()
      ensures old(currentSourceType) != currentSourceType && (currentSourceData.Some? || currentSourceType.None?) ==> Reconfigured()
      ensures !(old(currentSourceType) != currentSourceType && (currentSourceData.Some? || currentSourceType.None?)) ==>
        currentMode == old(currentMode) && exoPlayer == old(exoPlayer) && playerView == old(playerView) && events == old(events)
    {
      var newType := NormalisedSourceType(t);
      NormalisationIdempotent(t);
      if currentSourceType != newType {
        currentSourceType := newType;
        if currentSourceData.Some? || newType.None? {
          ConfigurePlayerBasedOnProps();
        }
      }
    }

    /** The source map prop: reconfigures when it changed. */
    method SetSourceData(sourceMap: Option<SourceMap>)
      requires Valid()
      modifies this`currentSourceData, this`currentMode, this`exoPlayer, this`playerView, this`events
      ensures currentSourceData == sourceMap
      ensures Valid()
      ensures old(currentSourceData) != sourceMap ==> Reconfigured()
      ensures old(currentSourceData) == sourceMap ==> unchanged(this)
    {
      if currentSourceData != sourceMap {
        currentSourceData := sourceMap;
        ConfigurePlayerBasedOnProps();
      }
    }

    /** The paused prop; the player plays when ready exactly when not paused. */
    method SetPaused(pause: bool)
      requires Valid()
      modifies this`isPaused, this`exoPlayer
      ensures isPaused == pause
      ensures Valid()
      ensures old(isPaused) == pause ==> exoPlayer == old(exoPlayer)
      ensures exoPlayer.Some? <==> old(exoPlayer).Some?
      ensures exoPlayer.Some? ==> exoPlayer.value == old(exoPlayer).value.(playWhenReady := !pause)
    {
      if isPaused != pause {
        isPaused := pause;
        ApplyPausedState();
      }
    }

    /** The muted prop; a muted player plays at volume 0. */
    method SetMuted(mute: bool)
      requires Valid()
      modifies this`isMuted, this`exoPlayer
      ensures isMuted == mute
      ensures Valid()
      ensures old(isMuted) == mute ==> exoPlayer == old(exoPlayer)
      ensures exoPlayer.Some? <==> old(exoPlayer).Some?
      ensures exoPlayer.Some? ==> exoPlayer.value == old(exoPlayer).value.(volume := EffectiveVolume(mute, currentVolume))
    {
      if isMuted != mute {
        isMuted := mute;
        ApplyMutedState();
      }
    }

    /** The volume prop, stored clamped to [0, 1]. */
    method SetVolume(volume: real)
      requires Valid()
      modifies this`currentVolume, this`exoPlayer
      ensures currentVolume == ClampVolume(volume)
      ensures Valid()
      ensures old(currentVolume) == ClampVolume(volume) ==> exoPlayer == old(exoPlayer)
      ensures exoPlayer.Some? <==> old(exoPlayer).Some?
      ensures exoPlayer.Some? ==> exoPlayer.value == old(exoPlayer).value.(volume := EffectiveVolume(isMuted, ClampVolume(volume)))
    {
      var clampedVolume := ClampVolume(volume);
      if currentVolume != clampedVolume {
        currentVolume := clampedVolume;
        ApplyVolumeState();
      }
    }

    /** The resize-mode prop; null stands for "contain". */
    method SetResizeMode(mode: Option<string>)
      requires Valid()
      modifies this`currentResizeMode, this`playerView
      ensures currentResizeMode == mode.GetOr(DEFAULT_RESIZE_MODE)
      ensures Valid()
      ensures old(currentResizeMode) == currentResizeMode ==> playerView == old(playerView)
      ensures playerView.Some? <==> old(playerView).Some?
      ensures playerView.Some? ==> playerView.value == old(playerView).value.(resizeMode := ExoResizeMode(currentResizeMode))
    {
      var newMode := mode.GetOr(DEFAULT_RESIZE_MODE);
      if currentResizeMode != newMode {
        currentResizeMode := newMode;
        ApplyResizeMode();
      }
    }

    /**
     * Brings the mode and the player in line with the props: cleans up
     * first when the mode changes, then sets up the player of the mode and
     * applies the props to it; a setup that throws dispatches an error event
     * and cleans up again, leaving the mode as it is.
     */
    method ConfigurePlayerBasedOnProps()
      requires Consistent()
      modifies this`currentMode, this`exoPlayer, this`playerView, this`events
      ensures currentMode == TargetMode(currentSourceType, currentSourceData)
      ensures Reconfigured()
    {
      var targetMode := TargetMode(currentSourceType, currentSourceData);
      if targetMode != currentMode {
        CleanupCurrentPlayer();
        currentMode := targetMode;
      } else if targetMode == NoSource && currentMode != NoSource {
        assert false;
      }
      if currentMode != NoSource {
        var failed;
        if currentMode == Mp4 {
          var uri := ReadString(currentSourceData, URI_KEY);
          failed := !(uri.Value? && uri.v.Some?);
          if !failed {
            SetupExoPlayer(uri.v.value);
          }
        } else {
          var signalingUrl := ReadString(currentSourceData, SIGNALING_URL_KEY);
          var config := ReadMap(currentSourceData, STREAM_INFO_KEY);
          failed := !(signalingUrl.Value? && signalingUrl.v.Some?) || config.Throws?;
          if !failed {
            SetupWebRtc(signalingUrl.v.value, config.v);
          }
        }
        if !failed {
          ApplyAllStates();
        } else {
          HandleError();
          CleanupCurrentPlayer();
        }
      }
    }

    /**
     * Releases the player of the current mode and drops the player and its
     * view, whatever the mode; the mode itself is left as it is.
     */
    method CleanupCurrentPlayer()
      modifies this`exoPlayer, this`playerView
      ensures exoPlayer == None && playerView == None
    {
      if currentMode == Mp4 {
        CleanupExoPlayer();
      }
      playerView := None;
      exoPlayer := None;
    }

    /** Applies the paused, muted (and so volume) and resize-mode props. */
    method ApplyAllStates()
      modifies this`exoPlayer, this`playerView
      ensures currentMode == Mp4 ==>
        && exoPlayer == (if old(exoPlayer).Some? then Some(old(exoPlayer).value.(playWhenReady := !isPaused, volume := EffectiveVolume(isMuted, currentVolume))) else None)
        && playerView == (if old(playerView).Some? then Some(old(playerView).value.(resizeMode := ExoResizeMode(currentResizeMode))) else None)
      ensures currentMode != Mp4 ==> exoPlayer == old(exoPlayer) && playerView == old(playerView)
    {
      ApplyPausedState();
      ApplyMutedState();
      ApplyResizeMode();
    }

    /** In MP4 mode the player plays when ready exactly when not paused. */
    method ApplyPausedState()
      modifies this`exoPlayer
      ensures exoPlayer == if currentMode == Mp4 && old(exoPlayer).Some?
        then Some(old(exoPlayer).value.(playWhenReady := !isPaused)) else old(exoPlayer)
    {
      if currentMode == Mp4 && exoPlayer.Some? {
        exoPlayer := Some(exoPlayer.value.(playWhenReady := !isPaused));
      }
    }

    /** In MP4 mode the player's volume is the effective volume. */
    method ApplyMutedState()
      modifies this`exoPlayer
      ensures exoPlayer == if currentMode == Mp4 && old(exoPlayer).Some?
        then Some(old(exoPlayer).value.(volume := EffectiveVolume(isMuted, currentVolume))) else old(exoPlayer)
    {
      var vol := EffectiveVolume(isMuted, currentVolume);
      if currentMode == Mp4 && exoPlayer.Some? {
        exoPlayer := Some(exoPlayer.value.(volume := vol));
      }
    }

    /** The volume goes through the mute logic. */
    method ApplyVolumeState()
      modifies this`exoPlayer
      ensures exoPlayer == if currentMode == Mp4 && old(exoPlayer).Some?
        then Some(old(exoPlayer).value.(volume := EffectiveVolume(isMuted, currentVolume))) else old(exoPlayer)
    {
      ApplyMutedState();
    }

    /** In MP4 mode the view's resize mode follows the prop. */
    method ApplyResizeMode()
      modifies this`playerView
      ensures playerView == if currentMode == Mp4 && old(playerView).Some?
        then Some(old(playerView).value.(resizeMode := ExoResizeMode(currentResizeMode))) else old(playerView)
    {
      if currentMode == Mp4 && playerView.Some? {
        playerView := Some(playerView.value.(resizeMode := ExoResizeMode(currentResizeMode)));
      }
    }

    /**
     * Creates the view when there is none and a new player when there is
     * none, and shows the player in the view; an existing player is kept.
     * The URL is not given to the player.
     */
    method SetupExoPlayer(url: string)
      modifies this`exoPlayer, this`playerView
      ensures old(exoPlayer).Some? ==> exoPlayer == old(exoPlayer) && playerView == old(playerView)
      ensures old(exoPlayer).None? ==> exoPlayer == Some(NEW_EXO)
      ensures old(exoPlayer).None? ==> playerView == Some(old(playerView).GetOr(NEW_VIEW).(showsPlayer := true, visible := true))
    {
      if exoPlayer.Some? {
        return;
      }
      if playerView.None? {
        playerView := Some(NEW_VIEW);
      }
      exoPlayer := Some(NEW_EXO);
      playerView := Some(playerView.value.(showsPlayer := true));
      playerView := Some(playerView.value.(visible := true));
    }

    /** Releases the player and detaches and hides the view. */
    method CleanupExoPlayer()
      modifies this`exoPlayer, this`playerView
      ensures exoPlayer == None
      ensures playerView == if old(playerView).Some? then Some(old(playerView).value.(showsPlayer := false, visible := false)) else None
    {
      exoPlayer := None;
      if playerView.Some? {
        playerView := Some(playerView.value.(showsPlayer := false));
        playerView := Some(playerView.value.(visible := false));
      }
    }

    /** The WebRTC setup connects nothing and only hides the MP4 view. */
    method SetupWebRtc(signalingUrl: string, config: Option<SourceMap>)
      modifies this`playerView
      ensures playerView == if old(playerView).Some? then Some(old(playerView).value.(visible := false)) else None
    {
      if playerView.Some? {
        playerView := Some(playerView.value.(visible := false));
      }
    }

    /** Dispatches the common error event. */
    method HandleError()
      modifies this`events
      ensures events == old(events) + [VIDEO_ERROR]
    {
      events := events + [VIDEO_ERROR];
    }

    /** The explicit cleanup: drops the player and its view and keeps the mode. */
    method Cleanup()
      requires Valid()
      modifies this`exoPlayer, this`playerView
      ensures Valid()
      ensures exoPlayer == None && playerView == None
    {
      CleanupCurrentPlayer();
    }

    /** In MP4 mode asks the player to seek to the position in milliseconds; in the other modes does nothing. */
    method Seek(timeSeconds: real)
      requires Valid()
      modifies this`exoPlayer
      ensures Valid()
      ensures currentMode != Mp4 ==> unchanged(this)
      ensures exoPlayer.Some? <==> old(exoPlayer).Some?
      ensures exoPlayer.Some? ==>
        exoPlayer.value == old(exoPlayer).value.(seekRequests := old(exoPlayer).value.seekRequests + [SeekTargetMs(timeSeconds)])
    {
      if currentMode == Mp4 {
        if exoPlayer.Some? {
          exoPlayer := Some(exoPlayer.value.(seekRequests := exoPlayer.value.seekRequests + [SeekTargetMs(timeSeconds)]));
        }
      }
    }
  }
}
