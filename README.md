# Unified player: the two Android view controllers

This project models, in Dafny, the two small state machines of the
React Native unified video player's Android views. It proves what they
promise.

- **`UnifiedPlayer`** (package `com.unifiedplayer`): the ExoPlayer-based view.
  - Its playlist and playback controller: a single URL or a playlist of URLs, the current index, and the autoplay, loop, paused, fullscreen and recording flags.
  - The player is an abstract record of what the view has told it: the media item, whether it was prepared, `playWhenReady` and the repeat mode (OFF or ONE).
  - The events the view dispatches to JavaScript form an append-only log of "top..." names with their `index` / `isFullscreen` payloads.
  - The STATE_ENDED handler is the pure decision `ActionOnEnded` plus the method `OnPlaybackEnded` that carries it out.
  - `PlaylistEndings` replays a run of STATE_ENDED reports over a playlist. The lemmas about it are proved by induction: advance in order, complete exactly once without loop, never complete and wrap around with loop.
- **`PlayerEvents`**: the ten event names the emitter declares, and the translation `sendEvent` applies to an event name before dispatching it.
- **`YourUnifiedPlayer`** (package `com.yourunifiedplayer`): the source-mode selector NONE / MP4 / WEBRTC.
  - The mode is driven by a source type ("mp4", "webrtc", anything else stored as null) and a source map (the `ReadableMap` prop).
  - The props are change-guarded: paused, muted, volume (clamped to [0, 1]) and resize mode (null stands for "contain").
  - The MP4 player and its view are abstract records. The class invariant `Valid` keeps three things:
    - the mode equals the mode the props call for;
    - a player exists only in MP4 mode and only for a URI that is a string;
    - the player's `playWhenReady`, volume and resize mode follow the props.
- **`Options`**: Kotlin's nullable values.

Kotlin `Float`/`Double` values are modelled as `real`. `Double.toLong()` is
written out: it rounds toward zero and saturates at the ends of the Long range.

## Model

| member | source | states |
|---|---|---|
| `PlayerEvents.TopEventName` | android/src/main/java/com/unifiedplayer/UnifiedPlayerView.kt:555-582 | A name is dispatched exactly when it is declared or has at least two characters (a shorter undeclared name makes `substring(2)` throw and the event is dropped). Every dispatched name starts with "top". An undeclared name is dispatched as "top" followed by the name without its first two characters. |
| `PlayerEvents.DispatchedStateEventNames` | android/src/main/java/com/unifiedplayer/UnifiedPlayerView.kt:565-571 | Load-start, playback-complete and fullscreen-changed go out as "topLoadStart", "topPlaybackComplete" and "topFullscreenChanged". |
| `PlayerEvents.PausedIsTheException` | android/src/main/java/com/unifiedplayer/UnifiedPlayerView.kt:569 | "onPaused" is dispatched as "topPlaybackPaused", not under its fallback name. |
| `PlayerEvents.AllButPausedFallBack` | android/src/main/java/com/unifiedplayer/UnifiedPlayerView.kt:561-573 | Every name of at least two characters other than "onPaused" is dispatched as "top" followed by the name without its first two characters. This pins the other nine declared names ("onReadyToPlay" as "topReadyToPlay", "onError" as "topError", and so on) as well as every undeclared one. |
| `PlayerEvents.DeclaredNamesStayDistinct` | android/src/main/java/com/unifiedplayer/UnifiedPlayerEventEmitter.kt:15-24 | Two different declared names are never dispatched under the same name. |
| `PlayerEvents.PausedCollidesWithFallback` | android/src/main/java/com/unifiedplayer/UnifiedPlayerView.kt:569-572 | The undeclared "onPlaybackPaused" is dispatched under the same name as "onPaused". |
| `PlayerEvents.FallbackInverts` | android/src/main/java/com/unifiedplayer/UnifiedPlayerView.kt:572 | For an undeclared "on..." name, replacing "top" by "on" in the dispatched name gives back the original name. |
| `UnifiedPlayer.RepeatModeFor` | android/src/main/java/com/unifiedplayer/UnifiedPlayerView.kt:295-299 | A playlist never gets repeat ONE (playlists loop by hand). A single video gets repeat ONE exactly when loop is set. |
| `UnifiedPlayer.LoadStartPayload` | android/src/main/java/com/unifiedplayer/UnifiedPlayerView.kt:302-307 | The load-start payload carries the index exactly in playlist mode, and never a fullscreen flag. |
| `UnifiedPlayer.ActionOnEnded` | android/src/main/java/com/unifiedplayer/UnifiedPlayerView.kt:170-203 | In a playlist: load the next entry if there is one, else entry 0 when looping, else finish the playlist (exactly when it is at its last entry and not looping). A single video completes exactly when it does not loop. A loaded entry stays within the playlist. A complete event is emitted exactly when not looping and the item is a single video or the last entry. The single video repeats exactly when it loops. |
| `UnifiedPlayer.PlaylistEndings` | android/src/main/java/com/unifiedplayer/UnifiedPlayerView.kt:172-193 | Any run of ends keeps the index within the playlist and loads only entries of the playlist. Each end either loads an entry or emits one complete event. |
| `UnifiedPlayer.PlaylistAdvancesInOrder` | android/src/main/java/com/unifiedplayer/UnifiedPlayerView.kt:174-178 | Before the last entry, `n` ends load the next `n` entries in order and emit no complete event. |
| `UnifiedPlayer.PlaylistWithoutLoopCompletesOnce` | android/src/main/java/com/unifiedplayer/UnifiedPlayerView.kt:174-191 | Without loop, playing from entry `i` to the end loads every later entry once, in order, then emits exactly one complete event and is back at index 0. |
| `UnifiedPlayer.LoopingPlaylistNeverCompletes` | android/src/main/java/com/unifiedplayer/UnifiedPlayerView.kt:174-185 | With loop, `n` ends from entry `i` load entries i+1, i+2, ... modulo the size, end at (i+n) mod size, and never emit a complete event. |
| `UnifiedPlayer.LoopingPlaylistRoundTrip` | android/src/main/java/com/unifiedplayer/UnifiedPlayerView.kt:174-185 | With loop, one round of `size` ends returns to the starting entry, loads every entry of the playlist and emits nothing. |
| `UnifiedPlayer.UnifiedPlayerView.constructor` | android/src/main/java/com/unifiedplayer/UnifiedPlayerView.kt:62-84 | Initial state: no URL, empty playlist, index 0, autoplay on, loop, paused, fullscreen and recording off, a fresh player, no events. |
| `UnifiedPlayer.UnifiedPlayerView.SendEvent` | android/src/main/java/com/unifiedplayer/UnifiedPlayerView.kt:555-582 | Appends one event under the translated name, or nothing when the name cannot be translated. |
| `UnifiedPlayer.UnifiedPlayerView.LoadVideoSource` | android/src/main/java/com/unifiedplayer/UnifiedPlayerView.kt:284-308 | The player holds the URL and is prepared. `playWhenReady` is autoplay and not paused. The repeat mode is `RepeatModeFor`. Exactly one load-start event is appended. |
| `UnifiedPlayer.UnifiedPlayerView.LoadVideoAtIndex` | android/src/main/java/com/unifiedplayer/UnifiedPlayerView.kt:319-328 | An index inside the playlist becomes the current index and its entry is loaded. Any other index changes nothing. The invariant is kept. |
| `UnifiedPlayer.UnifiedPlayerView.SetVideoUrl` | android/src/main/java/com/unifiedplayer/UnifiedPlayerView.kt:331-347 | Always leaves playlist mode. A non-empty URL is stored and loaded with the loop-derived repeat mode. A null or empty URL clears the source: the player is stopped, nothing is loaded and no event is dispatched. |
| `UnifiedPlayer.UnifiedPlayerView.SetVideoUrls` | android/src/main/java/com/unifiedplayer/UnifiedPlayerView.kt:350-364 | An empty list leaves the same cleared state as a null URL. A non-empty list enters playlist mode at index 0 with no single URL, loads its first entry with repeat OFF, and dispatches load-start with index 0. |
| `UnifiedPlayer.UnifiedPlayerView.SetAutoplay` | android/src/main/java/com/unifiedplayer/UnifiedPlayerView.kt:366-369 | Stores the flag and sets `playWhenReady` to it, ignoring the paused flag. |
| `UnifiedPlayer.UnifiedPlayerView.SetLoop` | android/src/main/java/com/unifiedplayer/UnifiedPlayerView.kt:371-383 | Stores the flag and sets the repeat mode `RepeatModeFor` gives. |
| `UnifiedPlayer.UnifiedPlayerView.SetIsPaused` | android/src/main/java/com/unifiedplayer/UnifiedPlayerView.kt:412-420 | Stores the flag; the player plays when ready exactly when not paused. |
| `UnifiedPlayer.UnifiedPlayerView.SetIsFullscreen` | android/src/main/java/com/unifiedplayer/UnifiedPlayerView.kt:422-442 | Asking for the current state changes nothing (idempotent). A change stores the flag and dispatches one fullscreen-changed event carrying the new flag. |
| `UnifiedPlayer.UnifiedPlayerView.Play` | android/src/main/java/com/unifiedplayer/UnifiedPlayerView.kt:505-508 | Only `playWhenReady` changes, to true. |
| `UnifiedPlayer.UnifiedPlayerView.Pause` | android/src/main/java/com/unifiedplayer/UnifiedPlayerView.kt:510-513 | Only `playWhenReady` changes, to false. |
| `UnifiedPlayer.UnifiedPlayerView.OnPlaybackEnded` | android/src/main/java/com/unifiedplayer/UnifiedPlayerView.kt:170-203 | Carries out `ActionOnEnded` and keeps the index inside the playlist. A finished playlist is back at index 0 with one complete event while the player still holds the last entry. A looping single video changes nothing. |
| `UnifiedPlayer.UnifiedPlayerView.StartRecording` | android/src/main/java/com/unifiedplayer/UnifiedPlayerView.kt:716-824 | Starts exactly when no recording runs and a media item is loaded. A start sets the flag and stores the given path, or the generated one when the path is empty. A refusal changes nothing. |
| `UnifiedPlayer.UnifiedPlayerView.StopRecording` | android/src/main/java/com/unifiedplayer/UnifiedPlayerView.kt:830-853 | Returns "" and changes nothing when no recording runs. Otherwise clears the flag and returns the stored output path. |
| `YourUnifiedPlayer.ReadString` | android/src/main/java/com/yourunifiedplayer/YourUnifiedPlayerView.kt:138 | Reading a string key gives null for no map, no key or a null value, and the string when it holds one. Any other value throws. |
| `YourUnifiedPlayer.ReadMap` | android/src/main/java/com/yourunifiedplayer/YourUnifiedPlayerView.kt:143 | Reading a map key gives null for no map, no key or a null value, and the map when it holds one. Any other value throws. |
| `YourUnifiedPlayer.NormalisedSourceType` | android/src/main/java/com/yourunifiedplayer/YourUnifiedPlayerView.kt:57 | The stored type is present exactly for "mp4" and "webrtc", and then equals the given type. |
| `YourUnifiedPlayer.TargetMode` | android/src/main/java/com/yourunifiedplayer/YourUnifiedPlayerView.kt:114-118 | MP4 exactly for type "mp4" with key `uri`. WEBRTC exactly for type "webrtc" with key `signalingUrl`. NONE otherwise. |
| `YourUnifiedPlayer.ClampVolume` | android/src/main/java/com/yourunifiedplayer/YourUnifiedPlayerView.kt:94 | The result lies in [0, 1]. It equals the volume inside that range and the nearer end outside it. |
| `YourUnifiedPlayer.EffectiveVolume` | android/src/main/java/com/yourunifiedplayer/YourUnifiedPlayerView.kt:197 | The applied volume is 0 when muted and the stored volume otherwise, so it never exceeds the stored one. It equals the stored one exactly when not muted or already 0. |
| `YourUnifiedPlayer.ExoResizeMode` | android/src/main/java/com/yourunifiedplayer/YourUnifiedPlayerView.kt:211-215 | ZOOM exactly for "cover", FILL exactly for "stretch", FIT otherwise, in particular for the default "contain". |
| `YourUnifiedPlayer.DoubleToLong` | android/src/main/java/com/yourunifiedplayer/YourUnifiedPlayerView.kt:317 | The result lies in the Long range. Inside the range it is the input rounded toward zero. Beyond the range it is the nearer bound. |
| `YourUnifiedPlayer.SeekTargetMs` | android/src/main/java/com/yourunifiedplayer/YourUnifiedPlayerView.kt:317 | The seek position is `timeSeconds * 1000` rounded toward zero inside the Long range, and saturates to the nearer bound beyond it. |
| `YourUnifiedPlayer.SeekToWholeMilliseconds` | android/src/main/java/com/yourunifiedplayer/YourUnifiedPlayerView.kt:317 | Seeking to a whole number of milliseconds, given in seconds, asks the player for exactly that position. |
| `YourUnifiedPlayer.DoubleToLongOfWhole` | android/src/main/java/com/yourunifiedplayer/YourUnifiedPlayerView.kt:317 | A whole number in the Long range converts to itself. |
| `YourUnifiedPlayer.DoubleToLongMonotone` | android/src/main/java/com/yourunifiedplayer/YourUnifiedPlayerView.kt:317 | The conversion keeps the order of its inputs. |
| `YourUnifiedPlayer.NormalisationIdempotent` | android/src/main/java/com/yourunifiedplayer/YourUnifiedPlayerView.kt:57-58 | Normalising a stored type changes nothing, so re-setting a stored type is a no-op. |
| `YourUnifiedPlayer.ClampIdempotent` | android/src/main/java/com/yourunifiedplayer/YourUnifiedPlayerView.kt:94-96 | Clamping a stored volume changes nothing, so re-setting it does not re-apply. |
| `YourUnifiedPlayer.SkippedReconfigurationKeepsMode` | android/src/main/java/com/yourunifiedplayer/YourUnifiedPlayerView.kt:58-63 | When `setSourceType` skips reconfiguring (no map, non-null type), the mode called for is NONE under both the old and the new type. |
| `YourUnifiedPlayer.NoPropsNoPlayer` | android/src/main/java/com/yourunifiedplayer/YourUnifiedPlayerView.kt:114-118 | Without a type or without a map the mode is NONE and setup cannot fail. |
| `YourUnifiedPlayer.Mp4SetupFailsIff` | android/src/main/java/com/yourunifiedplayer/YourUnifiedPlayerView.kt:137-140 | In MP4 mode the setup throws exactly when the URI is not a string. |
| `YourUnifiedPlayer.WebRtcSetupFailsIff` | android/src/main/java/com/yourunifiedplayer/YourUnifiedPlayerView.kt:141-145 | In WEBRTC mode the setup throws exactly when the signaling URL is not a string, or the stream info is present and neither null nor a map. |
| `YourUnifiedPlayer.UnifiedPlayerView.constructor` | android/src/main/java/com/yourunifiedplayer/YourUnifiedPlayerView.kt:29-45 | Initial state: NONE, no type, no map, no player, paused, not muted, volume 1, resize "contain". |
| `YourUnifiedPlayer.UnifiedPlayerView.SetSourceType` | android/src/main/java/com/yourunifiedplayer/YourUnifiedPlayerView.kt:54-65 | Stores the normalised type. Reconfigures exactly when the type changed and there is a map or the type was cleared; otherwise the mode, the player and the events stay as they were. The invariant is kept. |
| `YourUnifiedPlayer.UnifiedPlayerView.SetSourceData` | android/src/main/java/com/yourunifiedplayer/YourUnifiedPlayerView.kt:67-75 | Stores the map and reconfigures when it changed. An equal map changes nothing. |
| `YourUnifiedPlayer.UnifiedPlayerView.SetPaused` | android/src/main/java/com/yourunifiedplayer/YourUnifiedPlayerView.kt:77-83 | Stores the flag. An existing player plays when ready exactly when not paused. An unchanged flag leaves the player as it was. |
| `YourUnifiedPlayer.UnifiedPlayerView.SetMuted` | android/src/main/java/com/yourunifiedplayer/YourUnifiedPlayerView.kt:85-91 | Stores the flag. An existing player gets the effective volume. An unchanged flag leaves the player as it was. |
| `YourUnifiedPlayer.UnifiedPlayerView.SetVolume` | android/src/main/java/com/yourunifiedplayer/YourUnifiedPlayerView.kt:93-100 | Stores the clamped volume. An existing player gets the effective volume. An unchanged clamped volume leaves the player as it was. |
| `YourUnifiedPlayer.UnifiedPlayerView.SetResizeMode` | android/src/main/java/com/yourunifiedplayer/YourUnifiedPlayerView.kt:102-109 | Stores the mode, with null stored as "contain". An existing view gets the mapped resize mode. An unchanged mode leaves the view as it was. |
| `YourUnifiedPlayer.UnifiedPlayerView.ConfigurePlayerBasedOnProps` | android/src/main/java/com/yourunifiedplayer/YourUnifiedPlayerView.kt:113-155 | Afterwards the mode is the target mode, and a player exists exactly in MP4 mode with a string URI. One error event is dispatched exactly when the setup threw. An existing player is kept, and a new one has seen no seeks. The invariant is restored from any consistent state. |
| `YourUnifiedPlayer.UnifiedPlayerView.CleanupCurrentPlayer` | android/src/main/java/com/yourunifiedplayer/YourUnifiedPlayerView.kt:157-177 | Always leaves no player and no view, in every mode. |
| `YourUnifiedPlayer.UnifiedPlayerView.ApplyAllStates` | android/src/main/java/com/yourunifiedplayer/YourUnifiedPlayerView.kt:179-184 | In MP4 mode, an existing player and view receive the paused, volume and resize props. In other modes nothing changes. |
| `YourUnifiedPlayer.UnifiedPlayerView.ApplyPausedState` | android/src/main/java/com/yourunifiedplayer/YourUnifiedPlayerView.kt:186-195 | In MP4 mode, `playWhenReady` becomes not paused. Otherwise nothing changes. |
| `YourUnifiedPlayer.UnifiedPlayerView.ApplyMutedState` | android/src/main/java/com/yourunifiedplayer/YourUnifiedPlayerView.kt:196-206 | In MP4 mode, the player's volume becomes the effective volume. Otherwise nothing changes. |
| `YourUnifiedPlayer.UnifiedPlayerView.ApplyVolumeState` | android/src/main/java/com/yourunifiedplayer/YourUnifiedPlayerView.kt:207 | Same as the muted state. |
| `YourUnifiedPlayer.UnifiedPlayerView.ApplyResizeMode` | android/src/main/java/com/yourunifiedplayer/YourUnifiedPlayerView.kt:208-223 | In MP4 mode, the view's resize mode becomes the mapped one. Otherwise nothing changes. |
| `YourUnifiedPlayer.UnifiedPlayerView.SetupExoPlayer` | android/src/main/java/com/yourunifiedplayer/YourUnifiedPlayerView.kt:227-248 | An existing player is kept with its view. Otherwise a fresh player is created and shown, visible, in the existing or a new view. |
| `YourUnifiedPlayer.UnifiedPlayerView.CleanupExoPlayer` | android/src/main/java/com/yourunifiedplayer/YourUnifiedPlayerView.kt:249-256 | No player; the view, if any, is detached and hidden. |
| `YourUnifiedPlayer.UnifiedPlayerView.SetupWebRtc` | android/src/main/java/com/yourunifiedplayer/YourUnifiedPlayerView.kt:259-272 | Only hides the MP4 view, if there is one. |
| `YourUnifiedPlayer.UnifiedPlayerView.HandleError` | android/src/main/java/com/yourunifiedplayer/YourUnifiedPlayerView.kt:293-297 | Appends one "onVideoError" event. |
| `YourUnifiedPlayer.UnifiedPlayerView.Cleanup` | android/src/main/java/com/yourunifiedplayer/YourUnifiedPlayerView.kt:309-312 | Leaves no player and no view, keeps the invariant, and keeps the mode. |
| `YourUnifiedPlayer.UnifiedPlayerView.Seek` | android/src/main/java/com/yourunifiedplayer/YourUnifiedPlayerView.kt:315-321 | In MP4 mode, an existing player records one seek to the converted millisecond position. In NONE and WEBRTC mode nothing changes. |

## Left out

- Progress polling (the `progressRunnable` timer, `startProgressUpdates`, `getCurrentTime`, `getDuration`, `seekTo` of the first view): a UI-thread timer loop with float time arithmetic.
- The fullscreen window work in `enterFullscreen` / `exitFullscreen` (orientation, system UI, view re-parenting): Android windowing.
- `UnifiedPlayer.UnifiedPlayerView.SetIsFullscreen`: assumes the view has a ReactContext and an Activity. Otherwise the source stores the new flag and returns before dispatching the event; that path is not modelled.
- `capture()`, the recording download thread, the file writes, the `Thread.sleep` in `stopRecording`, `RecordingRunnable` and `cleanupRecording`: platform I/O and concurrency.
- `UnifiedPlayer.UnifiedPlayerView.StartRecording`: the clock-derived default file name is a parameter, and "a media item is loaded" stands for the player's current media URI being non-null. The exception path of the recording setup (which returns false) is not modelled.
- The thumbnail loading of `setThumbnailUrl` (Glide): an image library call.
- The ExoPlayer listener callbacks other than the STATE_ENDED branch, and the player's own behaviour (buffering, errors, repeat): player-driven and opaque.
- `UnifiedPlayer.UnifiedPlayerView.LoadVideoSource`: the `catch` branch (an error event when building the media item throws) is not modelled, because the abstract player never throws. The player of this view is assumed to exist: its release on detach is not modelled.
- `UnifiedPlayer.UnifiedPlayerView.SendEvent`: assumes the context is a ReactContext. Otherwise the cast throws and the event is silently dropped. Payload values other than `index` and `isFullscreen` (error codes, messages, progress times) are not modelled.
- The module, view-manager and package classes, the JavaScript/TypeScript wrappers, the Fabric C++ glue and the iOS stubs: bridge registration and placeholders.
- The WebRTC SDK: its setup and cleanup do nothing beyond hiding the MP4 view, so it has no state in the model.
- `YourUnifiedPlayer.UnifiedPlayerView.HandleError`: the error message text (built from an exception message) is not modelled, only the event name. The same event is assumed to reach JavaScript, i.e. the context is a ReactContext.
- `PlayerEvents.TopEventName`: the length check and `substring(2)` count characters, where Kotlin counts UTF-16 code units; `AllButPausedFallBack`, `FallbackInverts` and `PausedCollidesWithFallback` inherit this. A name whose first characters lie outside the Basic Multilingual Plane (an emoji) is therefore not modelled as the source dispatches it. The view only ever sends the ten ASCII constants.
- `YourUnifiedPlayer.ReadString`, `YourUnifiedPlayer.ReadMap`: model `ReadableMap` reads as returning null for a missing key. The one read where this matters is `getMap("streamInfo")` in the WEBRTC setup, because `uri` and `signalingUrl` are read only after their `hasKey` checks. A map implementation that throws on a missing key would make every WEBRTC setup without `streamInfo` fail; that case is not modelled, and `WebRtcSetupFailsIff` rests on this choice.
- `YourUnifiedPlayer.UnifiedPlayerView.SetSourceData`: compares source maps by content. A map implementation that compares by identity would reconfigure on an equal new map.
- `YourUnifiedPlayer.UnifiedPlayerView.SetupExoPlayer`: the URL is not given to the player, as in the source, so the abstract player has no media item. The exceptions the player builder could throw are not modelled.
- `YourUnifiedPlayer.UnifiedPlayerView.Seek`: the double multiplication `timeSeconds * 1000` is exact in the model (no rounding), and NaN is not modelled.
- `YourUnifiedPlayer.ClampVolume`: NaN volumes are not modelled (`real` has none).
- The logging of both views (`Log.d` / `Log.w` / `Log.e` in the first view, `println` in the second): output only.
- The detach hook (`onDetachedFromWindow`) of the `com.yourunifiedplayer` view: it only calls the cleanup that is modelled.
- The detach hook (`onDetachedFromWindow`) of the `com.unifiedplayer` view is not modelled. It stops the progress updates, releases the player and sets it to null, and calls `cleanupRecording`, which also resets the recording flag to false. The model keeps the player non-null, and the recording flag changes only through `StartRecording` / `StopRecording`.
