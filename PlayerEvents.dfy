/**
 * The names of the events the playlist view emits, and the translation of
 * each name into the "top..." name under which it is dispatched to the
 * JavaScript side (`sendEvent` of the view).
 */
module PlayerEvents {
  import opened Options

  const EVENT_LOAD_START := "onLoadStart"
  const EVENT_READY := "onReadyToPlay"
  const EVENT_ERROR := "onError"
  const EVENT_PROGRESS := "onProgress"
  const EVENT_COMPLETE := "onPlaybackComplete"
  const EVENT_STALLED := "onPlaybackStalled"
  const EVENT_RESUMED := "onPlaybackResumed"
  const EVENT_PLAYING := "onPlaying"
  const EVENT_PAUSED := "onPaused"
  const EVENT_FULLSCREEN_CHANGED := "onFullscreenChanged"

  /** The ten names the emitter declares. */
  predicate IsKnownEvent(name: string) {
    name in {EVENT_LOAD_START, EVENT_READY, EVENT_ERROR, EVENT_PROGRESS, EVENT_COMPLETE,
             EVENT_STALLED, EVENT_RESUMED, EVENT_PLAYING, EVENT_PAUSED, EVENT_FULLSCREEN_CHANGED}
  }

  /** The name a fallback event is dispatched under: "top" followed by the name without its first two characters. */
  function Fallback(name: string): string
    requires |name| >= 2
  {
    "top" + name[2..]
  }

  /**
   * The dispatched name of an event, or None when there is none: for a name
   * that is not one of the ten and is shorter than two characters,
   * `substring(2)` throws and `sendEvent` swallows the exception, so
   * nothing is dispatched.
   */
  function TopEventName(eventName: string): (r: Option<string>)
    ensures r.Some? <==> |eventName| >= 2
    ensures r.Some? ==> |r.value| >= 3 && r.value[..3] == "top"
    ensures !IsKnownEvent(eventName) && |eventName| >= 2 ==> r == Some(Fallback(eventName))
  {
    if eventName == EVENT_READY then Some("topReadyToPlay")
    else if eventName == EVENT_ERROR then Some("topError")
    else if eventName == EVENT_PROGRESS then Some("topProgress")
    else if eventName == EVENT_COMPLETE then Some("topPlaybackComplete")
    else if eventName == EVENT_STALLED then Some("topPlaybackStalled")
    else if eventName == EVENT_RESUMED then Some("topPlaybackResumed")
    else if eventName == EVENT_PLAYING then Some("topPlaying")
    else if eventName == EVENT_PAUSED then Some("topPlaybackPaused")
    else if eventName == EVENT_LOAD_START then Some("topLoadStart")
    else if eventName == EVENT_FULLSCREEN_CHANGED then Some("topFullscreenChanged")
    else if |eventName| >= 2 then Some(Fallback(eventName))
    else None
  }

  /** The dispatched names of the three events the playlist controller itself emits. */
  lemma DispatchedStateEventNames()
    ensures TopEventName(EVENT_LOAD_START) == Some("topLoadStart")
    ensures TopEventName(EVENT_COMPLETE) == Some("topPlaybackComplete")
    ensures TopEventName(EVENT_FULLSCREEN_CHANGED) == Some("topFullscreenChanged")
  {
  }

  /** `onPaused` is the one exception: it goes out as "topPlaybackPaused", not "topPaused". */
  lemma PausedIsTheException()
    ensures TopEventName(EVENT_PAUSED) == Some("topPlaybackPaused")
    ensures TopEventName(EVENT_PAUSED) != Some(Fallback(EVENT_PAUSED))
  {
  }

  /**
   * Every name but `onPaused` goes out as "top" followed by the name
   * without its "on": the declared names of the table as well as the
   * undeclared ones of the fallback.
   */
  lemma AllButPausedFallBack(name: string)
    requires |name| >= 2 && name != EVENT_PAUSED
    ensures TopEventName(name) == Some(Fallback(name))
  {
    if name == EVENT_READY { ReadyFallsBack(); }
    else if name == EVENT_ERROR { ErrorFallsBack(); }
    else if name == EVENT_PROGRESS { ProgressFallsBack(); }
    else if name == EVENT_COMPLETE { CompleteFallsBack(); }
    else if name == EVENT_STALLED { StalledFallsBack(); }
    else if name == EVENT_RESUMED { ResumedFallsBack(); }
    else if name == EVENT_PLAYING { PlayingFallsBack(); }
    else if name == EVENT_LOAD_START { LoadStartFallsBack(); }
    else if name == EVENT_FULLSCREEN_CHANGED { FullscreenChangedFallsBack(); }
  }

  lemma ReadyFallsBack()
    ensures TopEventName(EVENT_READY) == Some(Fallback(EVENT_READY))
  {
    assert EVENT_READY[2..] == "ReadyToPlay";
    assert "top" + "ReadyToPlay" == "topReadyToPlay";
  }

  lemma ErrorFallsBack()
    ensures TopEventName(EVENT_ERROR) == Some(Fallback(EVENT_ERROR))
  {
    assert EVENT_ERROR[2..] == "Error";
    assert "top" + "Error" == "topError";
  }

  lemma ProgressFallsBack()
    ensures TopEventName(EVENT_PROGRESS) == Some(Fallback(EVENT_PROGRESS))
  {
    assert EVENT_PROGRESS[2..] == "Progress";
    assert "top" + "Progress" == "topProgress";
  }

  lemma CompleteFallsBack()
    ensures TopEventName(EVENT_COMPLETE) == Some(Fallback(EVENT_COMPLETE))
  {
    assert EVENT_COMPLETE[2..] == "PlaybackComplete";
    assert "top" + "PlaybackComplete" == "topPlaybackComplete";
  }

  lemma StalledFallsBack()
    ensures TopEventName(EVENT_STALLED) == Some(Fallback(EVENT_STALLED))
  {
    assert EVENT_STALLED[2..] == "PlaybackStalled";
    assert "top" + "PlaybackStalled" == "topPlaybackStalled";
  }

  lemma ResumedFallsBack()
    ensures TopEventName(EVENT_RESUMED) == Some(Fallback(EVENT_RESUMED))
  {
    assert EVENT_RESUMED[2..] == "PlaybackResumed";
    assert "top" + "PlaybackResumed" == "topPlaybackResumed";
  }

  lemma PlayingFallsBack()
    ensures TopEventName(EVENT_PLAYING) == Some(Fallback(EVENT_PLAYING))
  {
    assert EVENT_PLAYING[2..] == "Playing";
    assert "top" + "Playing" == "topPlaying";
  }

  lemma LoadStartFallsBack()
    ensures TopEventName(EVENT_LOAD_START) == Some(Fallback(EVENT_LOAD_START))
  {
    assert EVENT_LOAD_START[2..] == "LoadStart";
    assert "top" + "LoadStart" == "topLoadStart";
  }

  lemma FullscreenChangedFallsBack()
    ensures TopEventName(EVENT_FULLSCREEN_CHANGED) == Some(Fallback(EVENT_FULLSCREEN_CHANGED))
  {
    assert EVENT_FULLSCREEN_CHANGED[2..] == "FullscreenChanged";
    assert "top" + "FullscreenChanged" == "topFullscreenChanged";
  }

  /**
   * The translation is injective on the ten declared names, but not on all
   * names: the undeclared "onPlaybackPaused" reaches the same dispatched name
   * as `onPaused`.
   */
  lemma DeclaredNamesStayDistinct(a: string, b: string)
    requires IsKnownEvent(a) && IsKnownEvent(b) && a != b
    ensures TopEventName(a) != TopEventName(b)
  {
  }

  lemma PausedCollidesWithFallback()
    ensures TopEventName(EVENT_PAUSED) == TopEventName("onPlaybackPaused")
    ensures EVENT_PAUSED != "onPlaybackPaused"
  {
    var other := "onPlaybackPaused";
    assert !IsKnownEvent(other) by {
      assert other[2] == 'P' && other[3] == 'l' && |other| == 16;
    }
    assert other[2..] == "PlaybackPaused";
    assert "top" + "PlaybackPaused" == "topPlaybackPaused";
  }

  /** An undeclared name in the "on..." form is recovered from its dispatched name. */
  lemma FallbackInverts(name: string)
    requires |name| >= 2 && name[..2] == "on" && !IsKnownEvent(name)
    ensures TopEventName(name).Some?
    ensures "on" + TopEventName(name).value[3..] == name
  {
    assert "on" + name[2..] == name;
  }
}
