/**
 * VideoPlayerComponent and the viewer service fields it writes, as objects
 * whose handlers update their fields in place. Every method is proved against
 * the functions of module Playback.
 */
module VideoPlayer {
  import opened Wrappers
  import opened Engine
  import opened Playback

  /** The injected viewer service, restricted to the fields the component reads and writes. */
  class ViewerService {
    var visitedLength: Spent
    var currentlength: real
    var totalLength: real
    var totalSeekedLength: real
    var metaData: Metadata
    var interceptionResponses: map<real, Interception>

    function Abstract(): Viewer
      reads this
    {
      Viewer(visitedLength, currentlength, totalLength, totalSeekedLength, metaData, interceptionResponses)
    }

    constructor ()
      ensures Abstract() == InitialViewer
    {
      visitedLength := Millis(0);
      currentlength := 0.0;
      totalLength := 0.0;
      totalSeekedLength := 0.0;
      metaData := Metadata(0.0, [], [], []);
      interceptionResponses := map[];
    }
  }

  class VideoPlayerComponent {
    const viewerService: ViewerService

    var showBackwardButton: bool
    var showForwardButton: bool
    var showPlayButton: bool
    var showPauseButton: bool
    var currentPlayerState: PlayerState
    var totalSeekedLength: real
    var previousTime: real
    var currentTime: real
    var seekStart: Option<real>
    var startTime: Option<int>
    var totalSpentTime: Spent

    /** The names sent to raiseHeartBeatEvent, in order. */
    ghost var heartbeats: seq<Heartbeat>
    /** The event types emitted on the viewer service's playerEvent, in order. */
    ghost var playerEvents: seq<EventType>

    ghost function Abstract(): View
      reads this, viewerService
    {
      View(currentPlayerState, showPlayButton, showPauseButton, showForwardButton, showBackwardButton,
           previousTime, currentTime, seekStart, totalSeekedLength, startTime, totalSpentTime,
           viewerService.Abstract(), heartbeats, playerEvents)
    }

    constructor (viewerService: ViewerService)
      ensures this.viewerService == viewerService
      ensures Abstract() == Initial(viewerService.Abstract())
    {
      this.viewerService := viewerService;
      showBackwardButton := false;
      showForwardButton := false;
      showPlayButton := true;
      showPauseButton := false;
      currentPlayerState := StateNone;
      totalSeekedLength := 0.0;
      previousTime := 0.0;
      currentTime := 0.0;
      seekStart := None;
      startTime := None;
      totalSpentTime := Millis(0);
      heartbeats := [];
      playerEvents := [];
    }

    /** toggleForwardRewindButton: the skip buttons follow the engine's time and duration. */
    method ToggleForwardRewindButton(s: Snapshot)
      modifies this
      ensures showForwardButton <==> s.currentTime + SkipSeconds <= s.duration
      ensures showBackwardButton <==> s.currentTime >= SkipSeconds
      ensures Abstract() == WithButtons(old(Abstract()), ButtonsAt(s.currentTime, s.duration))
    {
      showForwardButton := true;
      showBackwardButton := true;
      if s.currentTime + SkipSeconds > s.duration {
        showForwardButton := false;
      }
      if s.currentTime - SkipSeconds < 0.0 {
        showBackwardButton := false;
      }
    }

    /** play(): the engine is told to play (external); the state becomes "play". */
    method Play(s: Snapshot)
      modifies this
      ensures currentPlayerState == StatePlay && showPauseButton && !showPlayButton
      ensures Abstract() == PlayCommand(old(Abstract()), s)
    {
      currentPlayerState := StatePlay;
      showPauseButton := true;
      showPlayButton := false;
      ToggleForwardRewindButton(s);
    }

    /** pause(): the engine is told to pause (external); the state becomes "pause". */
    method Pause(s: Snapshot)
      modifies this
      ensures currentPlayerState == StatePause && !showPauseButton && showPlayButton
      ensures Abstract() == PauseCommand(old(Abstract()), s)
    {
      currentPlayerState := StatePause;
      showPauseButton := false;
      showPlayButton := true;
      ToggleForwardRewindButton(s);
      heartbeats := heartbeats + [PauseBeat];
    }

    /**
     * backward(): asks the engine to seek 10 seconds back (`target`), then
     * sets the skip buttons from the engine's state `after` that request.
     */
    method Backward(s: Snapshot, after: Snapshot) returns (target: real)
      modifies this
      ensures target == s.currentTime - SkipSeconds
      ensures Abstract() == SkipCommand(old(Abstract()), after, BackwardBeat)
    {
      target := s.currentTime - SkipSeconds;
      ToggleForwardRewindButton(after);
      heartbeats := heartbeats + [BackwardBeat];
    }

    /**
     * forward(): asks the engine to seek 10 seconds ahead (`target`), then
     * sets the skip buttons from the engine's state `after` that request.
     */
    method Forward(s: Snapshot, after: Snapshot) returns (target: real)
      modifies this
      ensures target == s.currentTime + SkipSeconds
      ensures Abstract() == SkipCommand(old(Abstract()), after, ForwardBeat)
    {
      target := s.currentTime + SkipSeconds;
      ToggleForwardRewindButton(after);
      heartbeats := heartbeats + [ForwardBeat];
    }

    /** updatePlayerEventsMetadata: overwrites totalDuration and pushes one sample onto each log. */
    method UpdatePlayerEventsMetadata(t: EventType, s: Snapshot)
      modifies viewerService
      ensures viewerService.Abstract()
           == old(viewerService.Abstract()).(metaData := UpdateMetadata(old(viewerService.metaData), t, s))
    {
      viewerService.metaData := viewerService.metaData.(totalDuration := s.duration);
      viewerService.metaData := viewerService.metaData.(playBackSpeeds := viewerService.metaData.playBackSpeeds + [s.playbackRate]);
      viewerService.metaData := viewerService.metaData.(volume := viewerService.metaData.volume + [s.volume]);
      viewerService.metaData := viewerService.metaData.(actions := viewerService.metaData.actions + [Action(t, s.currentTime)]);
    }

    /**
     * The `markers.forEach` of the `seeked` branch: a marker before `current`
     * with no response yet gets `{score: 0, isSkipped: false}`.
     */
    method RecordPassedMarkers(markers: seq<Marker>, current: real)
      modifies viewerService
      ensures viewerService.Abstract()
           == old(viewerService.Abstract()).(interceptionResponses :=
                MarkPassed(old(viewerService.interceptionResponses), markers, current))
    {
      var i := 0;
      while i < |markers|
        invariant 0 <= i <= |markers|
        invariant viewerService.Abstract()
               == old(viewerService.Abstract()).(interceptionResponses :=
                    MarkPassed(old(viewerService.interceptionResponses), markers[..i], current))
      {
        var marker := markers[i];
        if marker.time !in viewerService.interceptionResponses && marker.time < current {
          viewerService.interceptionResponses := viewerService.interceptionResponses[marker.time := Passed];
        }
        assert markers[..i + 1][..i] == markers[..i];
        i := i + 1;
      }
      assert markers[..i] == markers;
    }

    /** handleVideoControls({ type: t }) with the engine in state `s`. */
    method HandleVideoControls(t: EventType, s: Snapshot)
      modifies this, viewerService
      ensures Abstract() == Handle(old(Abstract()), t, s)
    {
      match t
      case Playing =>
        showPlayButton := false;
        showPauseButton := true;
      case Ended =>
        HandleEnded(s);
      case Pause =>
        HandlePause(s);
      case Play =>
        HandlePlay(s);
      case LoadStart =>
        startTime := Some(s.now);
      case TimeUpdate =>
        HandleTimeUpdate(s);
      case Seeking =>
        if seekStart.None? {
          seekStart := Some(previousTime);
        }
      case Seeked =>
        HandleSeeked(s);
      case _ =>
    }

    /** The `pause` branch of handleVideoControls. */
    method HandlePause(s: Snapshot)
      modifies this, viewerService
      ensures Abstract() == Handle(old(Abstract()), EventType.Pause, s)
    {
      totalSpentTime := AddElapsed(totalSpentTime, startTime, s.now);
      UpdatePlayerEventsMetadata(EventType.Pause, s);
    }

    /** The `play` branch of handleVideoControls. */
    method HandlePlay(s: Snapshot)
      modifies this, viewerService
      ensures Abstract() == Handle(old(Abstract()), EventType.Play, s)
    {
      startTime := Some(s.now);
      UpdatePlayerEventsMetadata(EventType.Play, s);
    }

    /** The `timeupdate` branch of handleVideoControls. */
    method HandleTimeUpdate(s: Snapshot)
      modifies this, viewerService
      ensures Abstract() == Handle(old(Abstract()), TimeUpdate, s)
    {
      previousTime := currentTime;
      currentTime := s.currentTime;
      ToggleForwardRewindButton(s);
    }

    /** The `ended` branch of handleVideoControls. */
    method HandleEnded(s: Snapshot)
      modifies this, viewerService
      ensures Abstract() == Handle(old(Abstract()), Ended, s)
    {
      totalSpentTime := AddElapsed(totalSpentTime, startTime, s.now);
      viewerService.visitedLength := totalSpentTime;
      viewerService.currentlength := s.currentTime;
      viewerService.totalLength := s.duration;
      UpdatePlayerEventsMetadata(Ended, s);
    }

    /** The `seeked` branch of handleVideoControls. */
    method HandleSeeked(s: Snapshot)
      modifies this, viewerService
      ensures Abstract() == Handle(old(Abstract()), Seeked, s)
    {
      UpdatePlayerEventsMetadata(Seeked, s);
      var anchor := AnchorTime(seekStart);
      if currentTime > anchor {
        totalSeekedLength := totalSeekedLength + (currentTime - anchor);
      } else if anchor > currentTime {
        totalSeekedLength := totalSeekedLength + (anchor - currentTime);
      }
      viewerService.totalSeekedLength := totalSeekedLength;
      seekStart := None;
      if s.markers.Some? {
        RecordPassedMarkers(s.markers.value, currentTime);
      }
    }

    /**
     * The listeners registerEvents installs, run for one engine event in
     * registration order: the dedicated `fullscreenchange`, `pause`, `play` and
     * `timeupdate` listeners, then the generic one of the `events` list.
     */
    method OnEngineEvent(e: EventType, s: Snapshot)
      modifies this, viewerService
      ensures Abstract() == Step(old(Abstract()), e, s)
    {
      match e
      case FullscreenChange =>
        heartbeats := heartbeats + [FullscreenBeat];
      case Pause =>
        OnPauseEvent(s);
      case Play =>
        OnPlayEvent(s);
      case TimeUpdate =>
        OnTimeUpdateEvent(s);
      case Ended =>
      case _ =>
        HandleVideoControls(e, s);
        playerEvents := playerEvents + [e];
    }

    /** The engine fired `pause`: the `pause` listener calls pause(), then the generic listener runs. */
    method OnPauseEvent(s: Snapshot)
      modifies this, viewerService
      ensures Abstract() == Step(old(Abstract()), EventType.Pause, s)
    {
      Pause(s);
      HandleVideoControls(EventType.Pause, s);
      playerEvents := playerEvents + [EventType.Pause];
    }

    /** The engine fired `play`: the `play` listener's updates and PLAY heartbeat, then the generic listener. */
    method OnPlayEvent(s: Snapshot)
      modifies this, viewerService
      ensures Abstract() == Step(old(Abstract()), EventType.Play, s)
    {
      ghost var before := Abstract();
      currentPlayerState := StatePlay;
      showPauseButton := true;
      showPlayButton := false;
      heartbeats := heartbeats + [PlayBeat];
      assert Abstract() == OnPlayListener(before);
      HandleVideoControls(EventType.Play, s);
      playerEvents := playerEvents + [EventType.Play];
    }

    /** The engine fired `timeupdate`: handled, then a synthetic `ended` when the engine's time equals its duration. */
    method OnTimeUpdateEvent(s: Snapshot)
      modifies this, viewerService
      ensures Abstract() == Step(old(Abstract()), TimeUpdate, s)
    {
      HandleVideoControls(TimeUpdate, s);
      playerEvents := playerEvents + [TimeUpdate];
      if s.currentTime == s.duration {
        HandleVideoControls(Ended, s);
        playerEvents := playerEvents + [Ended];
      }
    }

    /**
     * onMarkerReached, up to its asynchronous parts: answers the identifier
     * whose question set is fetched, or None when the guard turns the marker away.
     */
    method OnMarkerReached(marker: Option<Marker>, s: Snapshot) returns (fetchFor: Option<string>)
      ensures fetchFor.Some? <==> ShouldIntercept(marker, s.currentTime)
      ensures fetchFor.Some? ==> fetchFor.value == marker.value.identifier
    {
      fetchFor := None;
      if marker.Some? {
        var m := marker.value;
        if !(s.currentTime > m.time + m.duration) {
          fetchFor := Some(m.identifier);
        }
      }
    }

    /** The delayed callback of onMarkerReached: pause() and `player.controls(false)`. */
    method OnInterceptionDelay(s: Snapshot) returns (controls: bool)
      modifies this
      ensures !controls
      ensures Abstract() == PauseCommand(old(Abstract()), s)
    {
      Pause(s);
      controls := false;
    }

    /**
     * The getQuestionSet subscription of onMarkerReached: on success the
     * question set is emitted and nothing else changes; on error play() runs
     * and the engine's controls are switched back on (`Resume`).
     */
    method OnQuestionSet(marker: Marker, fetched: Fetch, s: Snapshot) returns (r: Reaction)
      modifies this
      ensures r == QuestionSetReaction(marker, fetched)
      ensures fetched.FetchFailed? ==> Abstract() == PlayCommand(old(Abstract()), s)
      ensures fetched.Fetched? ==> Abstract() == old(Abstract())
    {
      match fetched
      case Fetched(response) =>
        r := EmitQuestionSet(response, marker.time, marker.identifier);
      case FetchFailed(_) =>
        Play(s);
        r := Resume;
    }
  }
}
