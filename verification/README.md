# Sunbird video player: the playback event state machine

This project models the core of `VideoPlayerComponent` in the Sunbird video
player. The component sits on top of the videojs engine and reacts to its
events (`play`, `pause`, `playing`, `loadstart`, `timeupdate`, `seeking`,
`seeked`, and the `ended` it synthesizes). While it does so it keeps:

- the player state (`"none"`, `"play"`, `"pause"`);
- the play/pause and forward/backward button flags;
- the last two engine times (`previousTime`, `currentTime`);
- the open seek session (`seekStart`) and the total seeked distance;
- the play-time clock (`startTime`, `totalSpentTime`);
- on the injected viewer service: the end-of-media fields, an append-only
  metadata log (`playBackSpeeds`, `volume`, `actions`), and the interception
  responses, keyed by marker time, that are filled in for markers passed
  during a seek.

It also models the guard of `onMarkerReached` and the two outcomes of its
question-set request.

Files:

- `engine.dfy` (module `Engine`): the engine as a read-only `Snapshot` that
  each handler receives. It holds `currentTime`, `duration`, `playbackRate`,
  `volume`, the markers (None when the plugin has no `getMarkers`) and the
  wall clock `now` in milliseconds.
- `playback.dfy` (module `Playback`): the state machine as pure functions over
  a `View` value, which holds the component's fields and the viewer-service
  fields it writes. `Handle` is `handleVideoControls`. `Step` is everything the
  listeners of `registerEvents` do for one engine event. The commands `play()`,
  `pause()`, `forward()` and `backward()` are functions too.
- `video_player.dfy` (module `VideoPlayer`): the component and the viewer
  service as classes whose methods update their fields in place. Each method
  is proved equal to the matching `Playback` function on the abstract state.
  The `markers.forEach` of `seeked` is a loop with its invariant.
- `traces.dfy` (module `Traces`): `Run` folds `Apply` over any sequence of
  inputs. An input is an engine event, a call to play(), pause(), forward()
  or backward() (from the control bar or the sidebar menu), or one of the two
  callbacks of onMarkerReached. The lemmas here state what holds across every
  such sequence.
- `wrappers.dfy`: an `Option` type, standing for `null`/`undefined`.

Behaviour of the code that the model keeps as written:

- The engine's own `ended` event has no listener, because `"ended"` is not in
  the `events` list. Only the `timeupdate` listener handles an `ended`: it
  synthesizes one every time the engine's time is exactly equal to its
  duration.
- `currentPlayerState` only ever takes the values `"none"`, `"play"` and
  `"pause"`. The code never sets an ended state.
- `seeking` anchors the seek at `previousTime`, the time before the latest
  `timeupdate`. `seeked` measures the distance from the component's
  `currentTime`, not from the engine's time at `seeked`.
- A `seeked` with no open session compares with a `null` anchor, which
  JavaScript treats as 0 in `>` and `-`. The model makes this explicit:
  `AnchorTime(None) == 0.0`.
- `startTime` is undefined until the first `play` or `loadstart`. A `pause` or
  `ended` before that makes `totalSpentTime` NaN, and it stays NaN. The model
  writes this as `Spent.NotANumber`.
- `pause` and `ended` do not reset `startTime`. At the end of the media the
  synthetic `ended` adds the play interval, and a following `pause` adds it a
  second time (`Traces.EndThenPauseCountsTwice`).
- The code has no "triggered" flag on markers and no at-most-once trigger;
  that logic lives in the external markers plugin. It has no cancellation of
  the delayed pause either. Neither is modelled.

## Model

All source paths are under `projects/sunbird-video-player/src/lib/components/video-player/`; the table gives them in full.

Helpers without a row of their own are covered by the rows of their callers:
- `Playback.OnPlayListener` (lines 175-181) by `Playback.Step`.
- `Playback.HandleSeeked` (lines 275-303) by `Playback.Handle` and `Playback.HandleSeekAccounting`.
- `Playback.Initial` (the field initialisers of lines 22-40) by `VideoPlayer.VideoPlayerComponent.constructor` and `Traces.FromConstruction`.
- `Playback.InitialViewer` models no source line: it is the assumed fresh viewer service (see the "## Left out" line `VideoPlayer.ViewerService.constructor`), used by `Traces.FromConstruction`.
- `Traces.Run` (one `Traces.Apply` after another: engine events through the listeners of lines 161-196, the play(), pause(), forward() and backward() commands of lines 210-237, and the onMarkerReached callbacks of lines 83-95) by every lemma over traces.
- `Playback.MarkOne` (one iteration of the `forEach`, lines 289-296) by `Playback.MarkPassed`.
- `Playback.AnchorTime` (the null anchor read as 0 at lines 277-282) by `Playback.SeekDistance`.
- `Playback.AppendAll` (a run of updatePlayerEventsMetadata calls, lines 306-313) by `Playback.StepClockAndLog`, `Traces.AppendAllGrows`, `Traces.AppendAllEntries` and `Traces.MetadataFollowsRecorded`.

| member | source | states |
|---|---|---|
| Playback.ButtonsAt | projects/sunbird-video-player/src/lib/components/video-player/video-player.component.ts:199-208 | forward is shown iff engine time + 10 <= duration; backward is shown iff engine time >= 10 (the skip `time` is 10) |
| Playback.SeekDistance | projects/sunbird-video-player/src/lib/components/video-player/video-player.component.ts:277-283 | the amount `seeked` adds is never negative, is exactly `abs(currentTime - anchor)`, and is 0 iff the two are equal; a null anchor counts as 0 |
| Playback.AddElapsed | projects/sunbird-video-player/src/lib/components/video-player/video-player.component.ts:244-254 | `totalSpentTime += now - startTime` adds exactly `now - startTime`; the result is a number iff the total was one and `startTime` was set (otherwise NaN); it does not decrease when `now >= startTime` |
| Playback.UpdateMetadata | projects/sunbird-video-player/src/lib/components/video-player/video-player.component.ts:306-313 | overwrites `totalDuration` with the duration; appends exactly one rate, one volume and one `{type: currentTime}` action; earlier entries are unchanged |
| Playback.MarkPassed | projects/sunbird-video-player/src/lib/components/video-player/video-player.component.ts:286-301 | existing responses keep their values; the keys afterwards are the old keys plus the times of markers before `currentTime`; every new entry is `{score: 0, isSkipped: false}` |
| Playback.Handle | projects/sunbird-video-player/src/lib/components/video-player/video-player.component.ts:239-304 | `playing` shows pause and hides play; `timeupdate` shifts `previousTime := currentTime`, takes the engine time and recomputes the skip buttons; `seeking` anchors at `previousTime` only when no session is open; `seeked` closes the session; no other event touches these fields |
| Playback.HandleSeekAccounting | projects/sunbird-video-player/src/lib/components/video-player/video-player.component.ts:275-301 | `seeked` adds exactly `abs(currentTime - anchor)`, mirrors the total to the viewer service, and fills responses as MarkPassed does; all other events leave the total, its mirror and the responses alone; the total never decreases |
| Playback.HandleClockAndLog | projects/sunbird-video-player/src/lib/components/video-player/video-player.component.ts:244-262 | `play`/`loadstart` set `startTime := now`; `pause`/`ended` add the elapsed time; `ended` writes `visitedLength`, `currentlength` and `totalLength`; only `play`, `pause`, `ended` and `seeked` update the metadata, each by exactly one UpdateMetadata |
| Playback.PlayCommand | projects/sunbird-video-player/src/lib/components/video-player/video-player.component.ts:210-216 | play(): the state is "play", pause is shown and play hidden, the skip buttons follow the engine time; nothing else changes |
| Playback.PauseCommand | projects/sunbird-video-player/src/lib/components/video-player/video-player.component.ts:218-225 | pause(): the state is "pause", play is shown and pause hidden, the skip buttons follow the engine time, one PAUSE heartbeat; nothing else changes |
| Playback.SkipCommand | projects/sunbird-video-player/src/lib/components/video-player/video-player.component.ts:227-237 | forward()/backward(): the skip buttons follow the engine's time after the seek request, one heartbeat naming the direction; nothing else changes |
| Playback.RecordedBy | projects/sunbird-video-player/src/lib/components/video-player/video-player.component.ts:183-196 | one engine event records at most one metadata entry, and only of kind play, pause, ended or seeked |
| Playback.Step | projects/sunbird-video-player/src/lib/components/video-player/video-player.component.ts:161-196 | engine `play` leads to state "play" with a PLAY heartbeat and `startTime := now`; engine `pause` leads to state "pause" with a PAUSE heartbeat and skip buttons recomputed by pause(); `timeupdate` shifts `previousTime := currentTime`, takes the engine time and recomputes the skip buttons; `timeupdate` emits an extra `ended` iff the engine time equals the duration; the engine's own `ended` changes nothing; `fullscreenchange` only sends FULLSCREEN; play and pause buttons that were complementary stay so |
| Playback.StepSeekAccounting | projects/sunbird-video-player/src/lib/components/video-player/video-player.component.ts:270-301 | for one engine event: only `seeked` closes the session, an open anchor is never moved, the seeked total never decreases and changes only on `seeked`, the viewer's copy stays equal, and responses are only added, as `{score: 0, isSkipped: false}` |
| Playback.StepClockAndLog | projects/sunbird-video-player/src/lib/components/video-player/video-player.component.ts:183-190 | for one engine event: the metadata gains exactly the entries RecordedBy names; `pause` adds the elapsed time; a `timeupdate` at the end of the media adds it too and writes `visitedLength = totalSpentTime`, `currentlength = currentTime`, `totalLength = duration`; other time updates leave the clock alone |
| Playback.ShouldIntercept | projects/sunbird-video-player/src/lib/components/video-player/video-player.component.ts:80-82 | a reached marker is handled iff there is one and the engine time is not past `time + duration` |
| Playback.QuestionSetReaction | projects/sunbird-video-player/src/lib/components/video-player/video-player.component.ts:87-96 | a fetched question set is emitted with the marker's time and identifier; a failed fetch resumes playback, and only a failed fetch does |
| Traces.Apply | projects/sunbird-video-player/src/lib/components/video-player/video-player.component.ts:161-237 | one input: an engine event runs Step (the listeners of lines 161-196); play(), pause(), forward() and backward() (lines 210-237, also called by the sidebar menu at lines 129-136) and the two callbacks of onMarkerReached (the delayed pause at lines 83-86, the question-set answer at lines 87-95) run their command; none of the commands touches the clock, the seek session, the viewer service or the emitted events; a fetched question set changes nothing; the play/pause pair stays complementary |
| Traces.RecordedByCommand | projects/sunbird-video-player/src/lib/components/video-player/video-player.component.ts:183-196 | only engine events record metadata: a command records nothing, an engine event at most one entry of a logged kind |
| Traces.ApplySeekAccounting | projects/sunbird-video-player/src/lib/components/video-player/video-player.component.ts:270-301 | for any input: only an engine `seeked` closes the session or changes the seeked total, an open anchor stays, the total never decreases, the viewer copy stays equal, responses are only added as `{score: 0, isSkipped: false}` |
| Traces.ApplyClockAndLog | projects/sunbird-video-player/src/lib/components/video-player/video-player.component.ts:244-262 | for any input: the metadata gains exactly the entries RecordedByCommand names; only an engine `pause`, or a `timeupdate` at the end of the media, adds elapsed time; only `play` and `loadstart` restart the clock |
| Traces.FromConstruction | projects/sunbird-video-player/src/lib/components/video-player/video-player.component.ts:22-40 | from the field initialisers and a fresh viewer service, after any inputs: play/pause complementary, viewer seeked total equal to the component's and never negative, and every interception response written by this component is `{score: 0, isSkipped: false}` (see Left out) |
| Traces.Recorded | projects/sunbird-video-player/src/lib/components/video-player/video-player.component.ts:249-276 | over a trace, every recorded entry is of kind play, pause, ended or seeked |
| Traces.AppendAllGrows | projects/sunbird-video-player/src/lib/components/video-player/video-player.component.ts:306-313 | appending n recorded entries grows each of the three logs by exactly n, keeps every earlier element, and leaves `totalDuration` at the last entry's duration |
| Traces.AppendAllEntries | projects/sunbird-video-player/src/lib/components/video-player/video-player.component.ts:306-313 | the i-th appended rate, volume and action are those of the i-th recorded entry, in order |
| Traces.MetadataFollowsRecorded | projects/sunbird-video-player/src/lib/components/video-player/video-player.component.ts:183-196 | after any trace, the metadata is the old metadata with exactly the trace's recorded entries appended; it depends only on the events and snapshots, not on the component state |
| Traces.MetadataAppendOnly | projects/sunbird-video-player/src/lib/components/video-player/video-player.component.ts:306-313 | over any trace of inputs, the three logs grow by one element per recorded action and never lose or change an earlier element |
| Traces.LoggedKinds | projects/sunbird-video-player/src/lib/components/video-player/video-player.component.ts:249-276 | every action added over a trace is a play, pause, ended or seeked |
| Traces.SeekedLengthNeverDecreases | projects/sunbird-video-player/src/lib/components/video-player/video-player.component.ts:275-283 | over any trace of inputs, `totalSeekedLength` never decreases |
| Traces.SeekedLengthMirrored | projects/sunbird-video-player/src/lib/components/video-player/video-player.component.ts:278-284 | if the viewer service's `totalSeekedLength` equals the component's, it stays equal over any trace of inputs |
| Traces.SeekAnchorHeld | projects/sunbird-video-player/src/lib/components/video-player/video-player.component.ts:270-274 | once a seek session is open, no trace without `seeked` moves its anchor or changes the seeked total |
| Traces.ResponsesOnlyGrow | projects/sunbird-video-player/src/lib/components/video-player/video-player.component.ts:286-301 | over any trace of inputs, interception responses are never removed or overwritten, and each added one is `{score: 0, isSkipped: false}` |
| Traces.PlayPauseStayComplementary | projects/sunbird-video-player/src/lib/components/video-player/video-player.component.ts:210-225 | play and pause buttons that start complementary (as initialised) stay complementary over any trace of inputs |
| Traces.SpentTimeNeverDecreases | projects/sunbird-video-player/src/lib/components/video-player/video-player.component.ts:244-262 | if the wall clock does not run backwards and is not before `startTime`, `totalSpentTime` never decreases over a trace; a NaN total never becomes a number again |
| Traces.PlayThenPause | projects/sunbird-video-player/src/lib/components/video-player/video-player.component.ts:251-258 | a `play` at time a followed by a `pause` at time b adds exactly b - a to `totalSpentTime` |
| Traces.EndThenPauseCountsTwice | projects/sunbird-video-player/src/lib/components/video-player/video-player.component.ts:183-190 | a `timeupdate` at the end of the media followed by `pause` adds the interval since `startTime` twice, once for the synthetic `ended` and once for the pause |
| VideoPlayer.VideoPlayerComponent.constructor | projects/sunbird-video-player/src/lib/components/video-player/video-player.component.ts:22-40 | the field initialisers: state "none", only play shown, times 0, no seek session, no `startTime`, totals 0 |
| VideoPlayer.VideoPlayerComponent.ToggleForwardRewindButton | projects/sunbird-video-player/src/lib/components/video-player/video-player.component.ts:199-208 | sets the two skip flags from the engine time and duration (as ButtonsAt) and touches nothing else |
| VideoPlayer.VideoPlayerComponent.Play | projects/sunbird-video-player/src/lib/components/video-player/video-player.component.ts:210-216 | the new state is PlayCommand of the old one |
| VideoPlayer.VideoPlayerComponent.Pause | projects/sunbird-video-player/src/lib/components/video-player/video-player.component.ts:218-225 | the new state is PauseCommand of the old one |
| VideoPlayer.VideoPlayerComponent.Backward | projects/sunbird-video-player/src/lib/components/video-player/video-player.component.ts:227-231 | requests the engine time minus 10; the new state is SkipCommand with BACKWARD |
| VideoPlayer.VideoPlayerComponent.Forward | projects/sunbird-video-player/src/lib/components/video-player/video-player.component.ts:233-237 | requests the engine time plus 10; the new state is SkipCommand with FORWARD |
| VideoPlayer.VideoPlayerComponent.UpdatePlayerEventsMetadata | projects/sunbird-video-player/src/lib/components/video-player/video-player.component.ts:306-313 | the viewer service's metadata becomes UpdateMetadata of the old one, and no other viewer field changes |
| VideoPlayer.VideoPlayerComponent.RecordPassedMarkers | projects/sunbird-video-player/src/lib/components/video-player/video-player.component.ts:286-301 | the `forEach` loop leaves the responses equal to MarkPassed of the old ones, and no other viewer field changes |
| VideoPlayer.VideoPlayerComponent.HandleVideoControls | projects/sunbird-video-player/src/lib/components/video-player/video-player.component.ts:239-304 | the new component and viewer state is Handle of the old one |
| VideoPlayer.VideoPlayerComponent.HandleEnded | projects/sunbird-video-player/src/lib/components/video-player/video-player.component.ts:244-250 | the `ended` branch, equal to Handle with `ended` |
| VideoPlayer.VideoPlayerComponent.HandlePause | projects/sunbird-video-player/src/lib/components/video-player/video-player.component.ts:251-254 | the `pause` branch, equal to Handle with `pause` |
| VideoPlayer.VideoPlayerComponent.HandlePlay | projects/sunbird-video-player/src/lib/components/video-player/video-player.component.ts:255-258 | the `play` branch, equal to Handle with `play` |
| VideoPlayer.VideoPlayerComponent.HandleTimeUpdate | projects/sunbird-video-player/src/lib/components/video-player/video-player.component.ts:265-269 | the `timeupdate` branch, equal to Handle with `timeupdate` |
| VideoPlayer.VideoPlayerComponent.HandleSeeked | projects/sunbird-video-player/src/lib/components/video-player/video-player.component.ts:275-303 | the `seeked` branch, equal to Handle with `seeked` |
| VideoPlayer.VideoPlayerComponent.OnEngineEvent | projects/sunbird-video-player/src/lib/components/video-player/video-player.component.ts:161-196 | the new state after all listeners for one engine event is Step of the old one |
| VideoPlayer.VideoPlayerComponent.OnPauseEvent | projects/sunbird-video-player/src/lib/components/video-player/video-player.component.ts:171-173 | engine `pause`: pause() and then handleVideoControls, equal to Step with `pause` |
| VideoPlayer.VideoPlayerComponent.OnPlayEvent | projects/sunbird-video-player/src/lib/components/video-player/video-player.component.ts:175-181 | engine `play`: the play listener's updates and then handleVideoControls, equal to Step with `play` |
| VideoPlayer.VideoPlayerComponent.OnTimeUpdateEvent | projects/sunbird-video-player/src/lib/components/video-player/video-player.component.ts:183-190 | engine `timeupdate`: handled, plus a synthetic `ended` when time equals duration; equal to Step with `timeupdate` |
| VideoPlayer.VideoPlayerComponent.OnMarkerReached | projects/sunbird-video-player/src/lib/components/video-player/video-player.component.ts:79-97 | asks for the marker's question set iff ShouldIntercept holds, and for that marker's identifier; changes no state |
| VideoPlayer.VideoPlayerComponent.OnInterceptionDelay | projects/sunbird-video-player/src/lib/components/video-player/video-player.component.ts:83-86 | the delayed callback: pause() (PauseCommand) and switches the engine controls off |
| VideoPlayer.VideoPlayerComponent.OnQuestionSet | projects/sunbird-video-player/src/lib/components/video-player/video-player.component.ts:87-96 | answers QuestionSetReaction; on error the state becomes PlayCommand of the old one and the controls go back on; on success nothing changes |

## Left out

- Building the engine (videojs options and the markers plugin set-up, lines 48-78 and 101-103): foreign library calls with no logic of their own.
- The engine's own state changes: `player.play()`, `player.pause()`, `player.currentTime(t)` and `player.controls(b)` are commands to an external engine. Their effects reach the model only through later events and snapshots. Forward and backward return the requested time and take the engine's state after the request as an input. The engine's clamping of a seek to `[0, duration]` is its own business.
- The 1-second `setTimeout` and the `getQuestionSet(...).subscribe` of onMarkerReached are asynchronous. Their callbacks are separate synchronous methods (`OnInterceptionDelay`, `OnQuestionSet`), and the model does not fix their order relative to each other or to other events. The error `console.log` is left out.
- The idle timer that hides the controls (`setInterval`), the mousemove/touchstart listeners and the `showControls` flag: timers and presentation.
- The sidebar-menu subscription: it only calls pause() and play(), and both are modelled.
- The autoplay promise rejection and the `isAutoplayPrevented` flag that the `play` listener clears. The flag is used only by the idle timer.
- Fullscreen re-parenting of the control bar, and colouring a passed marker red: DOM manipulation.
- Heartbeats and `playerEvent` emissions are recorded as ghost logs of names, without their payloads.
- `ngOnDestroy`: engine disposal and listener removal.
- Floating point: times are exact reals, so `===` between time and duration is exact equality of reals. A NaN duration (before the engine knows it) is not modelled.
- Object keys: `interceptionResponses` is keyed by the marker time itself, while JavaScript keys it by the time's string form. The truthiness test `!responses[time]` is modelled as "no entry", because every value the component writes is an object (and so, presumably, is every value other writers store).
- Traces.FromConstruction: the viewer service is shared session state, and other code writes into it. The host, for example, records the answers to a question set in `interceptionResponses` after `questionSetData` is emitted. None of these other writers is modelled. The lemma's last clause, that every response is `{score: 0, isSkipped: false}`, therefore describes only the entries this component writes itself. The property that holds whoever else writes is `Traces.ResponsesOnlyGrow`: this component never removes or overwrites an entry.
- VideoPlayer.ViewerService.constructor: the service's own code (`viewer.service.ts`) is not part of this model, so its initial values (zero lengths, empty logs, no responses) are an assumption, not a modelled source line; `Traces.FromConstruction` starts from them, and `SeekedLengthMirrored` assumes the two seeked totals start equal.
