/**
 * The playback event state machine of the video player component, as pure
 * functions over a value (`View`) that holds every field the handlers touch:
 * the component's own fields and the fields it writes on the viewer service.
 */
module Playback {
  import opened Wrappers
  import opened Engine

  /** `time = 10`: the forward/backward skip, in seconds. */
  const SkipSeconds: real := 10.0

  /** The event names the component listens for or synthesizes. */
  datatype EventType =
    | LoadStart | Play | Pause | DurationChange | Error | Playing | Progress
    | Seeked | Seeking | VolumeChange | RateChange | TimeUpdate | Ended
    | FullscreenChange

  /** `currentPlayerState`: the strings "none", "play" and "pause". */
  datatype PlayerState = StateNone | StatePlay | StatePause

  /** Names sent to `raiseHeartBeatEvent`. */
  datatype Heartbeat = PlayBeat | PauseBeat | ForwardBeat | BackwardBeat | FullscreenBeat

  /**
   * `totalSpentTime`, a JavaScript number: `now - startTime` with `startTime`
   * still undefined is NaN, and NaN stays NaN under `+=`.
   */
  datatype Spent = Millis(ms: int) | NotANumber

  /** A value of `interceptionResponses`. */
  datatype Interception = Interception(score: int, isSkipped: bool)

  /** The entry written for a marker the viewer seeked past. */
  const Passed: Interception := Interception(0, false)

  /** One element of `metaData.actions`: `{ [type]: currentTime }`. */
  datatype Action = Action(kind: EventType, at: real)

  datatype Metadata = Metadata(
    totalDuration: real,
    playBackSpeeds: seq<real>,
    volume: seq<real>,
    actions: seq<Action>)

  /** The fields of the viewer service that the component writes. */
  datatype Viewer = Viewer(
    visitedLength: Spent,
    currentlength: real,
    totalLength: real,
    totalSeekedLength: real,
    metaData: Metadata,
    interceptionResponses: map<real, Interception>)

  /** The state of one component together with its viewer service. */
  datatype View = View(
    state: PlayerState,
    showPlayButton: bool,
    showPauseButton: bool,
    showForwardButton: bool,
    showBackwardButton: bool,
    previousTime: real,
    currentTime: real,
    seekStart: Option<real>,
    totalSeekedLength: real,
    startTime: Option<int>,
    totalSpentTime: Spent,
    viewer: Viewer,
    heartbeats: seq<Heartbeat>,
    events: seq<EventType>)

  /** A fresh viewer service, as far as the component relies on it. */
  const InitialViewer: Viewer :=
    Viewer(Millis(0), 0.0, 0.0, 0.0, Metadata(0.0, [], [], []), map[])

  /** The field initialisers of the component. */
  function Initial(viewer: Viewer): View {
    View(StateNone, true, false, false, false, 0.0, 0.0, None, 0.0, None, Millis(0), viewer, [], [])
  }

  function Abs(x: real): real {
    if x < 0.0 then -x else x
  }

  // ---------------------------------------------------------------------------
  // Helpers of handleVideoControls

  datatype Buttons = Buttons(forward: bool, backward: bool)

  /** toggleForwardRewindButton: which skip buttons are shown at an engine time. */
  function ButtonsAt(engineTime: real, duration: real): (b: Buttons)
    ensures b.forward <==> engineTime + SkipSeconds <= duration
    ensures b.backward <==> engineTime >= SkipSeconds
  {
    var forward := !(engineTime + SkipSeconds > duration);
    var backward := !(engineTime - SkipSeconds < 0.0);
    Buttons(forward, backward)
  }

  /**
   * The anchor a `seeked` compares against. A `null` seekStart takes part in
   * `>` and `-` as 0, which is what JavaScript does with it.
   */
  function AnchorTime(seekStart: Option<real>): real {
    match seekStart
    case Some(t) => t
    case None => 0.0
  }

  /** The distance a `seeked` adds to totalSeekedLength. */
  function SeekDistance(seekStart: Option<real>, current: real): (d: real)
    ensures d >= 0.0
    ensures d == Abs(current - AnchorTime(seekStart))
    ensures d == 0.0 <==> current == AnchorTime(seekStart)
  {
    var anchor := AnchorTime(seekStart);
    if current > anchor then current - anchor
    else if anchor > current then anchor - current
    else 0.0
  }

  /** `totalSpentTime += now - startTime`. */
  function AddElapsed(spent: Spent, startTime: Option<int>, now: int): (r: Spent)
    ensures r.Millis? <==> spent.Millis? && startTime.Some?
    ensures r.Millis? ==> r.ms - spent.ms == now - startTime.value
    ensures r.Millis? && startTime.value <= now ==> r.ms >= spent.ms
  {
    match (spent, startTime)
    case (Millis(total), Some(start)) => Millis(total + (now - start))
    case _ => NotANumber
  }

  /** updatePlayerEventsMetadata: one more sample in each log. */
  function UpdateMetadata(md: Metadata, t: EventType, s: Snapshot): (r: Metadata)
    ensures r.totalDuration == s.duration
    ensures |r.playBackSpeeds| == |md.playBackSpeeds| + 1 && r.playBackSpeeds[..|md.playBackSpeeds|] == md.playBackSpeeds
    ensures |r.volume| == |md.volume| + 1 && r.volume[..|md.volume|] == md.volume
    ensures |r.actions| == |md.actions| + 1 && r.actions[..|md.actions|] == md.actions
    ensures r.playBackSpeeds[|md.playBackSpeeds|] == s.playbackRate
    ensures r.volume[|md.volume|] == s.volume
    ensures r.actions[|md.actions|] == Action(t, s.currentTime)
  {
    Metadata(
      s.duration,
      md.playBackSpeeds + [s.playbackRate],
      md.volume + [s.volume],
      md.actions + [Action(t, s.currentTime)])
  }

  /** The times of the markers strictly before `current`. */
  function PassedTimes(markers: seq<Marker>, current: real): set<real> {
    set i | 0 <= i < |markers| && markers[i].time < current :: markers[i].time
  }

  /** One iteration of the `markers.forEach` in the `seeked` branch. */
  function MarkOne(responses: map<real, Interception>, marker: Marker, current: real): map<real, Interception> {
    if marker.time !in responses && marker.time < current then responses[marker.time := Passed]
    else responses
  }

  /**
   * The whole `markers.forEach` in the `seeked` branch: every marker before
   * `current` that has no response yet gets `Passed`; nothing else changes.
   */
  function MarkPassed(responses: map<real, Interception>, markers: seq<Marker>, current: real): (r: map<real, Interception>)
    ensures forall k :: k in responses ==> k in r && r[k] == responses[k]
    ensures r.Keys == responses.Keys + PassedTimes(markers, current)
    ensures forall k :: k in r && k !in responses ==> r[k] == Passed
  {
    if markers == [] then responses
    else
      var prefix := markers[..|markers| - 1];
      var last := markers[|markers| - 1];
      assert PassedTimes(markers, current) == PassedTimes(prefix, current) + (if last.time < current then {last.time} else {}) by {
        forall x | x in PassedTimes(markers, current)
          ensures x in PassedTimes(prefix, current) + (if last.time < current then {last.time} else {})
        {
          var i :| 0 <= i < |markers| && markers[i].time < current && markers[i].time == x;
          if i < |markers| - 1 {
            assert prefix[i] == markers[i];
          }
        }
        forall x | x in PassedTimes(prefix, current)
          ensures x in PassedTimes(markers, current)
        {
          var i :| 0 <= i < |prefix| && prefix[i].time < current && prefix[i].time == x;
          assert markers[i] == prefix[i];
        }
      }
      MarkOne(MarkPassed(responses, prefix, current), last, current)
  }

  // ---------------------------------------------------------------------------
  // handleVideoControls

  /** Events whose handling restarts the play-time clock. */
  predicate StartsClock(t: EventType) {
    t == Play || t == LoadStart
  }

  /** Events whose handling adds the elapsed play time. */
  predicate StopsClock(t: EventType) {
    t == Pause || t == Ended
  }

  /** Events that call updatePlayerEventsMetadata. */
  predicate RecordsMetadata(t: EventType) {
    t == Play || t == Pause || t == Ended || t == Seeked
  }

  function WithButtons(v: View, b: Buttons): View {
    v.(showForwardButton := b.forward, showBackwardButton := b.backward)
  }

  function WithMetadata(v: View, t: EventType, s: Snapshot): View {
    v.(viewer := v.viewer.(metaData := UpdateMetadata(v.viewer.metaData, t, s)))
  }

  /** The `seeked` branch of handleVideoControls. */
  function HandleSeeked(v: View, s: Snapshot): View {
    var u := WithMetadata(v, Seeked, s);
    var total := u.totalSeekedLength + SeekDistance(u.seekStart, u.currentTime);
    var responses :=
      match s.markers
      case Some(markers) => MarkPassed(u.viewer.interceptionResponses, markers, u.currentTime)
      case None => u.viewer.interceptionResponses;
    u.(totalSeekedLength := total, seekStart := None,
       viewer := u.viewer.(totalSeekedLength := total, interceptionResponses := responses))
  }

  /** handleVideoControls({ type: t }) with the engine in state `s`. */
  function Handle(v: View, t: EventType, s: Snapshot): (r: View)
    // never touched here: the player state, the heartbeats, the emitted events
    ensures r.state == v.state && r.heartbeats == v.heartbeats && r.events == v.events
    // play/pause buttons
    ensures t == Playing ==> !r.showPlayButton && r.showPauseButton
    ensures t != Playing ==> r.showPlayButton == v.showPlayButton && r.showPauseButton == v.showPauseButton
    // timeupdate shifts the times and recomputes the skip buttons from the engine time
    ensures t == TimeUpdate ==> r.previousTime == v.currentTime && r.currentTime == s.currentTime
    ensures t == TimeUpdate ==> (r.showForwardButton <==> s.currentTime + SkipSeconds <= s.duration)
    ensures t == TimeUpdate ==> (r.showBackwardButton <==> s.currentTime >= SkipSeconds)
    ensures t != TimeUpdate ==> r.previousTime == v.previousTime && r.currentTime == v.currentTime
    ensures t != TimeUpdate ==> r.showForwardButton == v.showForwardButton && r.showBackwardButton == v.showBackwardButton
    // a seek session is opened by the first seeking and closed by seeked
    ensures t == Seeking ==> r.seekStart == if v.seekStart.None? then Some(v.previousTime) else v.seekStart
    ensures t == Seeked ==> r.seekStart.None?
    ensures t != Seeking && t != Seeked ==> r.seekStart == v.seekStart
  {
    match t
    case Playing => v.(showPlayButton := false, showPauseButton := true)
    case Ended =>
      var spent := AddElapsed(v.totalSpentTime, v.startTime, s.now);
      var u := v.(totalSpentTime := spent,
                  viewer := v.viewer.(visitedLength := spent, currentlength := s.currentTime, totalLength := s.duration));
      WithMetadata(u, Ended, s)
    case Pause =>
      WithMetadata(v.(totalSpentTime := AddElapsed(v.totalSpentTime, v.startTime, s.now)), Pause, s)
    case Play =>
      WithMetadata(v.(startTime := Some(s.now)), Play, s)
    case LoadStart =>
      v.(startTime := Some(s.now))
    case TimeUpdate =>
      WithButtons(v.(previousTime := v.currentTime, currentTime := s.currentTime), ButtonsAt(s.currentTime, s.duration))
    case Seeking =>
      if v.seekStart.None? then v.(seekStart := Some(v.previousTime)) else v
    case Seeked =>
      HandleSeeked(v, s)
    case _ => v
  }

  /** What handleVideoControls does to the seek accumulator and to the responses of passed markers. */
  lemma HandleSeekAccounting(v: View, t: EventType, s: Snapshot)
    ensures var r := Handle(v, t, s);
      && (t == Seeked ==> r.totalSeekedLength == v.totalSeekedLength + Abs(v.currentTime - AnchorTime(v.seekStart)))
      && (t == Seeked ==> r.viewer.totalSeekedLength == r.totalSeekedLength)
      && (t != Seeked ==> r.totalSeekedLength == v.totalSeekedLength && r.viewer.totalSeekedLength == v.viewer.totalSeekedLength)
      && r.totalSeekedLength >= v.totalSeekedLength
      && (t == Seeked && s.markers.Some? ==>
            r.viewer.interceptionResponses == MarkPassed(v.viewer.interceptionResponses, s.markers.value, v.currentTime))
      && (t != Seeked || s.markers.None? ==> r.viewer.interceptionResponses == v.viewer.interceptionResponses)
  {
  }

  /** What handleVideoControls does to the play-time clock, the end-of-media fields and the metadata log. */
  lemma HandleClockAndLog(v: View, t: EventType, s: Snapshot)
    ensures var r := Handle(v, t, s);
      && (StartsClock(t) ==> r.startTime == Some(s.now))
      && (!StartsClock(t) ==> r.startTime == v.startTime)
      && (StopsClock(t) ==> r.totalSpentTime == AddElapsed(v.totalSpentTime, v.startTime, s.now))
      && (!StopsClock(t) ==> r.totalSpentTime == v.totalSpentTime)
      && (t == Ended ==> r.viewer.visitedLength == r.totalSpentTime)
      && (t == Ended ==> r.viewer.currentlength == s.currentTime && r.viewer.totalLength == s.duration)
      && (t != Ended ==> r.viewer.visitedLength == v.viewer.visitedLength)
      && (t != Ended ==> r.viewer.currentlength == v.viewer.currentlength && r.viewer.totalLength == v.viewer.totalLength)
      && (RecordsMetadata(t) ==> r.viewer.metaData == UpdateMetadata(v.viewer.metaData, t, s))
      && (!RecordsMetadata(t) ==> r.viewer.metaData == v.viewer.metaData)
  {
  }

  // ---------------------------------------------------------------------------
  // Commands: play(), pause(), forward(), backward()

  /** play(): the state becomes "play", the pause button replaces the play button. */
  function PlayCommand(v: View, s: Snapshot): (r: View)
    ensures r.state == StatePlay && r.showPauseButton && !r.showPlayButton
    ensures r.showForwardButton == ButtonsAt(s.currentTime, s.duration).forward
    ensures r.showBackwardButton == ButtonsAt(s.currentTime, s.duration).backward
    ensures r == v.(state := r.state, showPlayButton := r.showPlayButton, showPauseButton := r.showPauseButton,
                    showForwardButton := r.showForwardButton, showBackwardButton := r.showBackwardButton)
  {
    WithButtons(v.(state := StatePlay, showPauseButton := true, showPlayButton := false), ButtonsAt(s.currentTime, s.duration))
  }

  /** pause(): the state becomes "pause", the play button replaces the pause button, a PAUSE heartbeat. */
  function PauseCommand(v: View, s: Snapshot): (r: View)
    ensures r.state == StatePause && !r.showPauseButton && r.showPlayButton
    ensures r.showForwardButton == ButtonsAt(s.currentTime, s.duration).forward
    ensures r.showBackwardButton == ButtonsAt(s.currentTime, s.duration).backward
    ensures r.heartbeats == v.heartbeats + [PauseBeat]
    ensures r == v.(state := r.state, showPlayButton := r.showPlayButton, showPauseButton := r.showPauseButton,
                    showForwardButton := r.showForwardButton, showBackwardButton := r.showBackwardButton,
                    heartbeats := r.heartbeats)
  {
    var u := v.(state := StatePause, showPauseButton := false, showPlayButton := true);
    WithButtons(u, ButtonsAt(s.currentTime, s.duration)).(heartbeats := v.heartbeats + [PauseBeat])
  }

  /**
   * forward() and backward() after the engine was told to seek: the skip
   * buttons follow the engine's time `after` the command, and a heartbeat
   * names the direction.
   */
  function SkipCommand(v: View, after: Snapshot, beat: Heartbeat): (r: View)
    ensures (r.showForwardButton <==> after.currentTime + SkipSeconds <= after.duration)
    ensures (r.showBackwardButton <==> after.currentTime >= SkipSeconds)
    ensures r.heartbeats == v.heartbeats + [beat]
    ensures r == v.(showForwardButton := r.showForwardButton, showBackwardButton := r.showBackwardButton,
                    heartbeats := r.heartbeats)
  {
    WithButtons(v, ButtonsAt(after.currentTime, after.duration)).(heartbeats := v.heartbeats + [beat])
  }

  // ---------------------------------------------------------------------------
  // The listeners registered by registerEvents

  function Emit(v: View, t: EventType): View {
    v.(events := v.events + [t])
  }

  /** The `play` listener's own work, before handleVideoControls runs. */
  function OnPlayListener(v: View): View {
    v.(state := StatePlay, showPauseButton := true, showPlayButton := false, heartbeats := v.heartbeats + [PlayBeat])
  }

  /** The metadata entries that handling one engine event appends, in order. */
  function RecordedBy(e: EventType, s: Snapshot): (r: seq<(EventType, Snapshot)>)
    ensures |r| <= 1
    ensures forall x :: x in r ==> RecordsMetadata(x.0) && x.1 == s
  {
    match e
    case Play => [(Play, s)]
    case Pause => [(Pause, s)]
    case Seeked => [(Seeked, s)]
    case TimeUpdate => if s.currentTime == s.duration then [(Ended, s)] else []
    case _ => []
  }

  /** Metadata after appending one entry per recorded (kind, snapshot) pair. */
  function AppendAll(md: Metadata, recorded: seq<(EventType, Snapshot)>): Metadata
    decreases |recorded|
  {
    if recorded == [] then md
    else AppendAll(UpdateMetadata(md, recorded[0].0, recorded[0].1), recorded[1..])
  }

  /**
   * Everything the component does when the engine fires `e` while in state `s`:
   * the dedicated `fullscreenchange`, `pause`, `play` and `timeupdate` listeners
   * run first, then the generic listener of the `events` list. The engine's
   * own `ended` event has no listener; only the `timeupdate` listener
   * synthesizes an `ended`, exactly when the engine's time equals its duration.
   */
  function Step(v: View, e: EventType, s: Snapshot): (r: View)
    ensures e == Play ==> r.state == StatePlay && r.showPauseButton && !r.showPlayButton && r.startTime == Some(s.now)
    ensures e == Play ==> r.heartbeats == v.heartbeats + [PlayBeat]
    ensures e == Pause ==> r.state == StatePause && !r.showPauseButton && r.showPlayButton
    ensures e == Pause ==> r.heartbeats == v.heartbeats + [PauseBeat]
    ensures e == Pause || e == TimeUpdate ==>
      r.showForwardButton == ButtonsAt(s.currentTime, s.duration).forward &&
      r.showBackwardButton == ButtonsAt(s.currentTime, s.duration).backward
    ensures e == TimeUpdate ==> r.previousTime == v.currentTime && r.currentTime == s.currentTime
    ensures e == FullscreenChange ==> r == v.(heartbeats := v.heartbeats + [FullscreenBeat])
    ensures e == Ended ==> r == v
    ensures e != Play && e != Pause ==> r.state == v.state
    ensures e == TimeUpdate ==> r.events == v.events + [TimeUpdate] + (if s.currentTime == s.duration then [Ended] else [])
    ensures e != TimeUpdate && e != Ended && e != FullscreenChange ==> r.events == v.events + [e]
    ensures v.showPlayButton != v.showPauseButton ==> r.showPlayButton != r.showPauseButton
  {
    match e
    case FullscreenChange => v.(heartbeats := v.heartbeats + [FullscreenBeat])
    case Pause => Emit(Handle(PauseCommand(v, s), Pause, s), Pause)
    case Play => Emit(Handle(OnPlayListener(v), Play, s), Play)
    case TimeUpdate =>
      var u := Emit(Handle(v, TimeUpdate, s), TimeUpdate);
      if s.currentTime == s.duration then Emit(Handle(u, Ended, s), Ended) else u
    case Ended => v
    case _ => Emit(Handle(v, e, s), e)
  }

  /**
   * One engine event and the seek session: only `seeked` closes it, an open
   * session keeps its anchor, and the seeked distance never shrinks.
   */
  lemma StepSeekAccounting(v: View, e: EventType, s: Snapshot)
    ensures var r := Step(v, e, s);
      && (e == Seeked ==> r.seekStart.None?)
      && (v.seekStart.Some? && e != Seeked ==> r.seekStart == v.seekStart)
      && r.totalSeekedLength >= v.totalSeekedLength
      && (e != Seeked ==> r.totalSeekedLength == v.totalSeekedLength)
      && (v.viewer.totalSeekedLength == v.totalSeekedLength ==> r.viewer.totalSeekedLength == r.totalSeekedLength)
      && (forall k :: k in v.viewer.interceptionResponses ==>
            k in r.viewer.interceptionResponses && r.viewer.interceptionResponses[k] == v.viewer.interceptionResponses[k])
      && (forall k :: k in r.viewer.interceptionResponses && k !in v.viewer.interceptionResponses ==>
            r.viewer.interceptionResponses[k] == Passed)
  {
    match e
    case FullscreenChange =>
    case Ended =>
    case Pause => HandleSeekAccounting(PauseCommand(v, s), Pause, s);
    case Play => HandleSeekAccounting(OnPlayListener(v), Play, s);
    case TimeUpdate =>
      HandleSeekAccounting(v, TimeUpdate, s);
      HandleSeekAccounting(Emit(Handle(v, TimeUpdate, s), TimeUpdate), Ended, s);
    case _ => HandleSeekAccounting(v, e, s);
  }

  /**
   * One engine event and the time accounting: the metadata log gains exactly
   * the entries RecordedBy names, `pause` adds the elapsed play time, and a
   * synthetic `ended` writes the end-of-media fields.
   */
  lemma StepClockAndLog(v: View, e: EventType, s: Snapshot)
    ensures var r := Step(v, e, s);
      && r.viewer.metaData == AppendAll(v.viewer.metaData, RecordedBy(e, s))
      && (e == Pause ==> r.totalSpentTime == AddElapsed(v.totalSpentTime, v.startTime, s.now))
      && (e == TimeUpdate && s.currentTime == s.duration ==>
            && r.totalSpentTime == AddElapsed(v.totalSpentTime, v.startTime, s.now)
            && r.viewer.visitedLength == r.totalSpentTime
            && r.viewer.currentlength == s.currentTime
            && r.viewer.totalLength == s.duration)
      && (e == TimeUpdate && s.currentTime != s.duration ==> r.totalSpentTime == v.totalSpentTime)
      && (e != Pause && e != TimeUpdate ==> r.totalSpentTime == v.totalSpentTime)
      && (StartsClock(e) ==> r.startTime == Some(s.now))
      && (!StartsClock(e) ==> r.startTime == v.startTime)
  {
    match e
    case FullscreenChange =>
    case Ended =>
    case Pause => HandleClockAndLog(PauseCommand(v, s), Pause, s);
    case Play => HandleClockAndLog(OnPlayListener(v), Play, s);
    case TimeUpdate =>
      HandleClockAndLog(v, TimeUpdate, s);
      HandleClockAndLog(Emit(Handle(v, TimeUpdate, s), TimeUpdate), Ended, s);
    case _ => HandleClockAndLog(v, e, s);
  }

  // ---------------------------------------------------------------------------
  // onMarkerReached

  /** The guard of onMarkerReached: a marker is handled unless the engine is already past its window. */
  function ShouldIntercept(marker: Option<Marker>, engineTime: real): (b: bool)
    ensures b <==> marker.Some? && engineTime <= marker.value.time + marker.value.duration
  {
    match marker
    case None => false
    case Some(m) => !(engineTime > m.time + m.duration)
  }

  /** The outcome of getQuestionSet(identifier). */
  datatype Fetch = Fetched(response: string) | FetchFailed(error: string)

  /** What the subscription does with that outcome. */
  datatype Reaction =
    | EmitQuestionSet(response: string, time: real, identifier: string)  // questionSetData.emit(...)
    | Resume                                                              // play() and player.controls(true)

  function QuestionSetReaction(marker: Marker, fetched: Fetch): (r: Reaction)
    ensures r.Resume? <==> fetched.FetchFailed?
    ensures r.EmitQuestionSet? ==> r == EmitQuestionSet(fetched.response, marker.time, marker.identifier)
  {
    match fetched
    case Fetched(response) => EmitQuestionSet(response, marker.time, marker.identifier)
    case FetchFailed(_) => Resume
  }
}
