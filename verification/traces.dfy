/**
 * Properties of the playback state machine over whole sequences of engine
 * events: what the component keeps, whatever the engine does in between.
 */
module Traces {
  import opened Wrappers
  import opened Engine
  import opened Playback

  /**
   * What can happen to the component: the engine fires an event, play() or
   * pause() is called (from the control bar or from the sidebar menu),
   * forward() or backward() is called, or one of the two callbacks of
   * onMarkerReached runs (the delayed pause, and the answer of getQuestionSet).
   */
  datatype Command =
    | EngineFired(event: EventType)
    | PlayCalled
    | PauseCalled
    | ForwardCalled
    | BackwardCalled
    | InterceptionDelay
    | QuestionSetAnswered(marker: Marker, fetched: Fetch)

  /**
   * One command together with the engine's state when it is handled; for
   * forward() and backward() that is the state after the seek request.
   */
  datatype Input = Input(command: Command, engine: Snapshot)

  /**
   * The component after one command. Calls to play(), pause(), forward() and
   * backward() and the marker callbacks never touch the clock, the seek
   * session or the viewer service; none of them breaks the play/pause pair.
   */
  function Apply(v: View, c: Command, s: Snapshot): (r: View)
    ensures !c.EngineFired? ==>
      && r.viewer == v.viewer && r.events == v.events
      && r.seekStart == v.seekStart && r.totalSeekedLength == v.totalSeekedLength
      && r.startTime == v.startTime && r.totalSpentTime == v.totalSpentTime
      && r.previousTime == v.previousTime && r.currentTime == v.currentTime
    ensures c == PlayCalled || (c.QuestionSetAnswered? && c.fetched.FetchFailed?) ==> r.state == StatePlay
    ensures c == PauseCalled || c == InterceptionDelay ==> r.state == StatePause
    ensures c.QuestionSetAnswered? && c.fetched.Fetched? ==> r == v
    ensures v.showPlayButton != v.showPauseButton ==> r.showPlayButton != r.showPauseButton
  {
    match c
    case EngineFired(e) => Step(v, e, s)
    case PlayCalled => PlayCommand(v, s)
    case PauseCalled => PauseCommand(v, s)
    case ForwardCalled => SkipCommand(v, s, ForwardBeat)
    case BackwardCalled => SkipCommand(v, s, BackwardBeat)
    case InterceptionDelay => PauseCommand(v, s)
    case QuestionSetAnswered(_, fetched) => if fetched.FetchFailed? then PlayCommand(v, s) else v
  }

  /** The component after handling every input of `trace` in order. */
  function Run(v: View, trace: seq<Input>): View
    decreases |trace|
  {
    if trace == [] then v
    else Run(Apply(v, trace[0].command, trace[0].engine), trace[1..])
  }

  /** The metadata entries one command appends: only engine events record any. */
  function RecordedByCommand(c: Command, s: Snapshot): (r: seq<(EventType, Snapshot)>)
    ensures !c.EngineFired? ==> r == []
    ensures |r| <= 1
    ensures forall x :: x in r ==> RecordsMetadata(x.0) && x.1 == s
  {
    if c.EngineFired? then RecordedBy(c.event, s) else []
  }

  /** Every metadata entry that `trace` causes, in order. */
  function Recorded(trace: seq<Input>): (r: seq<(EventType, Snapshot)>)
    ensures forall x :: x in r ==> RecordsMetadata(x.0)
    decreases |trace|
  {
    if trace == [] then []
    else RecordedByCommand(trace[0].command, trace[0].engine) + Recorded(trace[1..])
  }

  /**
   * One command and the seek session: only an engine `seeked` closes it, an
   * open session keeps its anchor, the seeked total never shrinks and stays
   * mirrored, and interception responses are only added.
   */
  lemma ApplySeekAccounting(v: View, c: Command, s: Snapshot)
    ensures var r := Apply(v, c, s);
      && (c == EngineFired(Seeked) ==> r.seekStart.None?)
      && (v.seekStart.Some? && c != EngineFired(Seeked) ==> r.seekStart == v.seekStart)
      && r.totalSeekedLength >= v.totalSeekedLength
      && (c != EngineFired(Seeked) ==> r.totalSeekedLength == v.totalSeekedLength)
      && (v.viewer.totalSeekedLength == v.totalSeekedLength ==> r.viewer.totalSeekedLength == r.totalSeekedLength)
      && (forall k :: k in v.viewer.interceptionResponses ==>
            k in r.viewer.interceptionResponses && r.viewer.interceptionResponses[k] == v.viewer.interceptionResponses[k])
      && (forall k :: k in r.viewer.interceptionResponses && k !in v.viewer.interceptionResponses ==>
            r.viewer.interceptionResponses[k] == Passed)
  {
    if c.EngineFired? {
      StepSeekAccounting(v, c.event, s);
    }
  }

  /**
   * One command and the time accounting: the metadata log gains exactly the
   * entries RecordedByCommand names, only an engine `pause` or a `timeupdate`
   * at the end of the media adds play time, and only `play` and `loadstart`
   * restart the clock.
   */
  lemma ApplyClockAndLog(v: View, c: Command, s: Snapshot)
    ensures var r := Apply(v, c, s);
      && r.viewer.metaData == AppendAll(v.viewer.metaData, RecordedByCommand(c, s))
      && (c == EngineFired(Pause) ==> r.totalSpentTime == AddElapsed(v.totalSpentTime, v.startTime, s.now))
      && (c == EngineFired(TimeUpdate) ==>
            r.totalSpentTime == if s.currentTime == s.duration then AddElapsed(v.totalSpentTime, v.startTime, s.now)
                                else v.totalSpentTime)
      && (c != EngineFired(Pause) && c != EngineFired(TimeUpdate) ==> r.totalSpentTime == v.totalSpentTime)
      && (c.EngineFired? && StartsClock(c.event) ==> r.startTime == Some(s.now))
      && (!(c.EngineFired? && StartsClock(c.event)) ==> r.startTime == v.startTime)
  {
    if c.EngineFired? {
      StepClockAndLog(v, c.event, s);
    } else {
      assert RecordedByCommand(c, s) == [];
    }
  }

  // ---------------------------------------------------------------------------
  // The metadata log

  lemma {:induction false} AppendAllConcat(md: Metadata, a: seq<(EventType, Snapshot)>, b: seq<(EventType, Snapshot)>)
    ensures AppendAll(md, a + b) == AppendAll(AppendAll(md, a), b)
    decreases |a|
  {
    if a == [] {
      assert a + b == b;
    } else {
      assert (a + b)[0] == a[0];
      assert (a + b)[1..] == a[1..] + b;
      AppendAllConcat(UpdateMetadata(md, a[0].0, a[0].1), a[1..], b);
    }
  }

  /**
   * The log is append-only: each recorded entry adds exactly one playback
   * rate, one volume and one action, and the earlier entries stay as they were.
   */
  lemma {:induction false} AppendAllGrows(md: Metadata, recorded: seq<(EventType, Snapshot)>)
    ensures var r := AppendAll(md, recorded);
      && |r.playBackSpeeds| == |md.playBackSpeeds| + |recorded|
      && |r.volume| == |md.volume| + |recorded|
      && |r.actions| == |md.actions| + |recorded|
      && r.playBackSpeeds[..|md.playBackSpeeds|] == md.playBackSpeeds
      && r.volume[..|md.volume|] == md.volume
      && r.actions[..|md.actions|] == md.actions
      && (recorded == [] ==> r == md)
      && (recorded != [] ==> r.totalDuration == recorded[|recorded| - 1].1.duration)
    decreases |recorded|
  {
    if recorded != [] {
      var md' := UpdateMetadata(md, recorded[0].0, recorded[0].1);
      AppendAllGrows(md', recorded[1..]);
      var r := AppendAll(md, recorded);
      assert r == AppendAll(md', recorded[1..]);
      assert r.actions[..|md.actions|] == md'.actions[..|md'.actions|][..|md.actions|];
      assert r.volume[..|md.volume|] == md'.volume[..|md'.volume|][..|md.volume|];
      assert r.playBackSpeeds[..|md.playBackSpeeds|] == md'.playBackSpeeds[..|md'.playBackSpeeds|][..|md.playBackSpeeds|];
    }
  }

  /** The appended entries are the recorded ones, in order: rate, volume and `{kind: currentTime}` of each. */
  lemma {:induction false} AppendAllEntries(md: Metadata, recorded: seq<(EventType, Snapshot)>, i: nat)
    requires i < |recorded|
    ensures var r := AppendAll(md, recorded);
      && |md.playBackSpeeds| + i < |r.playBackSpeeds| && r.playBackSpeeds[|md.playBackSpeeds| + i] == recorded[i].1.playbackRate
      && |md.volume| + i < |r.volume| && r.volume[|md.volume| + i] == recorded[i].1.volume
      && |md.actions| + i < |r.actions| && r.actions[|md.actions| + i] == Action(recorded[i].0, recorded[i].1.currentTime)
    decreases |recorded|
  {
    var md' := UpdateMetadata(md, recorded[0].0, recorded[0].1);
    AppendAllGrows(md', recorded[1..]);
    if i > 0 {
      AppendAllEntries(md', recorded[1..], i - 1);
      assert recorded[1..][i - 1] == recorded[i];
    } else {
      var r := AppendAll(md', recorded[1..]);
      assert r.actions[|md.actions|] == r.actions[..|md'.actions|][|md.actions|];
      assert r.volume[|md.volume|] == r.volume[..|md'.volume|][|md.volume|];
      assert r.playBackSpeeds[|md.playBackSpeeds|] == r.playBackSpeeds[..|md'.playBackSpeeds|][|md.playBackSpeeds|];
    }
  }

  /** The metadata after a trace is the old metadata with exactly the recorded entries appended. */
  lemma {:induction false} MetadataFollowsRecorded(v: View, trace: seq<Input>)
    ensures Run(v, trace).viewer.metaData == AppendAll(v.viewer.metaData, Recorded(trace))
    decreases |trace|
  {
    if trace != [] {
      var c, s := trace[0].command, trace[0].engine;
      ApplyClockAndLog(v, c, s);
      MetadataFollowsRecorded(Apply(v, c, s), trace[1..]);
      AppendAllConcat(v.viewer.metaData, RecordedByCommand(c, s), Recorded(trace[1..]));
    }
  }

  /**
   * Over any trace the three logs grow by one element per recorded action
   * (`play`, `pause`, `seeked`, and the synthetic `ended`), and never lose or
   * change an earlier element.
   */
  lemma MetadataAppendOnly(v: View, trace: seq<Input>)
    ensures var before, after := v.viewer.metaData, Run(v, trace).viewer.metaData;
      && |after.actions| == |before.actions| + |Recorded(trace)|
      && |after.playBackSpeeds| == |before.playBackSpeeds| + |Recorded(trace)|
      && |after.volume| == |before.volume| + |Recorded(trace)|
      && after.actions[..|before.actions|] == before.actions
      && after.playBackSpeeds[..|before.playBackSpeeds|] == before.playBackSpeeds
      && after.volume[..|before.volume|] == before.volume
  {
    MetadataFollowsRecorded(v, trace);
    AppendAllGrows(v.viewer.metaData, Recorded(trace));
  }

  /** Every action a trace adds is a `play`, `pause`, `ended` or `seeked`. */
  lemma LoggedKinds(v: View, trace: seq<Input>)
    ensures var before, after := v.viewer.metaData.actions, Run(v, trace).viewer.metaData.actions;
      forall i :: |before| <= i < |after| ==> RecordsMetadata(after[i].kind)
  {
    var before, rec := v.viewer.metaData, Recorded(trace);
    var after := AppendAll(before, rec);
    MetadataFollowsRecorded(v, trace);
    AppendAllGrows(before, rec);
    forall i | |before.actions| <= i < |after.actions|
      ensures RecordsMetadata(after.actions[i].kind)
    {
      var k := i - |before.actions|;
      AppendAllEntries(before, rec, k);
      assert rec[k] in rec;
    }
  }

  // ---------------------------------------------------------------------------
  // Seeking

  /** The total seeked length never decreases. */
  lemma {:induction false} SeekedLengthNeverDecreases(v: View, trace: seq<Input>)
    ensures Run(v, trace).totalSeekedLength >= v.totalSeekedLength
    decreases |trace|
  {
    if trace != [] {
      ApplySeekAccounting(v, trace[0].command, trace[0].engine);
      SeekedLengthNeverDecreases(Apply(v, trace[0].command, trace[0].engine), trace[1..]);
    }
  }

  /** The viewer service's copy of the total seeked length stays equal to the component's. */
  lemma {:induction false} SeekedLengthMirrored(v: View, trace: seq<Input>)
    requires v.viewer.totalSeekedLength == v.totalSeekedLength
    ensures Run(v, trace).viewer.totalSeekedLength == Run(v, trace).totalSeekedLength
    decreases |trace|
  {
    if trace != [] {
      ApplySeekAccounting(v, trace[0].command, trace[0].engine);
      SeekedLengthMirrored(Apply(v, trace[0].command, trace[0].engine), trace[1..]);
    }
  }

  predicate NoSeeked(trace: seq<Input>) {
    forall i :: 0 <= i < |trace| ==> trace[i].command != EngineFired(Seeked)
  }

  /**
   * An open seek session keeps its anchor until the engine fires `seeked`:
   * further `seeking` events and the commands do not move it, and without
   * `seeked` the seeked length does not change.
   */
  lemma {:induction false} SeekAnchorHeld(v: View, trace: seq<Input>)
    requires v.seekStart.Some?
    requires NoSeeked(trace)
    ensures Run(v, trace).seekStart == v.seekStart
    ensures Run(v, trace).totalSeekedLength == v.totalSeekedLength
    decreases |trace|
  {
    if trace != [] {
      ApplySeekAccounting(v, trace[0].command, trace[0].engine);
      SeekAnchorHeld(Apply(v, trace[0].command, trace[0].engine), trace[1..]);
    }
  }

  /**
   * Interception responses are only ever added, never overwritten, and every
   * added one is the `{score: 0, isSkipped: false}` of a passed marker.
   */
  lemma {:induction false} ResponsesOnlyGrow(v: View, trace: seq<Input>)
    ensures var before, after := v.viewer.interceptionResponses, Run(v, trace).viewer.interceptionResponses;
      && (forall k :: k in before ==> k in after && after[k] == before[k])
      && (forall k :: k in after && k !in before ==> after[k] == Passed)
    decreases |trace|
  {
    if trace != [] {
      ApplySeekAccounting(v, trace[0].command, trace[0].engine);
      ResponsesOnlyGrow(Apply(v, trace[0].command, trace[0].engine), trace[1..]);
    }
  }

  // ---------------------------------------------------------------------------
  // Buttons

  /** The play and pause buttons, complementary at start, stay complementary. */
  lemma {:induction false} PlayPauseStayComplementary(v: View, trace: seq<Input>)
    requires v.showPlayButton != v.showPauseButton
    ensures Run(v, trace).showPlayButton != Run(v, trace).showPauseButton
    decreases |trace|
  {
    if trace != [] {
      PlayPauseStayComplementary(Apply(v, trace[0].command, trace[0].engine), trace[1..]);
    }
  }

  // ---------------------------------------------------------------------------
  // Play time

  /** The wall clock never runs backwards along the trace, nor before `start`. */
  predicate ClockFrom(start: Option<int>, trace: seq<Input>) {
    && (forall i :: 0 <= i < |trace| && start.Some? ==> start.value <= trace[i].engine.now)
    && (forall i, j :: 0 <= i < j < |trace| ==> trace[i].engine.now <= trace[j].engine.now)
  }

  /**
   * With a clock that does not run backwards, the total spent time never
   * decreases; once it is NaN it stays NaN.
   */
  lemma {:induction false} SpentTimeNeverDecreases(v: View, trace: seq<Input>)
    requires ClockFrom(v.startTime, trace)
    ensures Run(v, trace).totalSpentTime.Millis? ==> v.totalSpentTime.Millis?
    ensures Run(v, trace).totalSpentTime.Millis? ==> Run(v, trace).totalSpentTime.ms >= v.totalSpentTime.ms
    decreases |trace|
  {
    if trace != [] {
      var c, s := trace[0].command, trace[0].engine;
      var v' := Apply(v, c, s);
      ApplyClockAndLog(v, c, s);
      assert ClockFrom(v'.startTime, trace[1..]) by {
        forall i | 0 <= i < |trace[1..]| && v'.startTime.Some?
          ensures v'.startTime.value <= trace[1..][i].engine.now
        {
          assert trace[1..][i] == trace[i + 1];
        }
        forall i, j | 0 <= i < j < |trace[1..]|
          ensures trace[1..][i].engine.now <= trace[1..][j].engine.now
        {
          assert trace[1..][i] == trace[i + 1] && trace[1..][j] == trace[j + 1];
        }
      }
      SpentTimeNeverDecreases(v', trace[1..]);
    }
  }

  lemma RunTwo(v: View, first: Input, second: Input)
    ensures Run(v, [first, second]) == Apply(Apply(v, first.command, first.engine), second.command, second.engine)
  {
    var v1 := Apply(v, first.command, first.engine);
    assert [first, second][1..] == [second];
    assert Run(v, [first, second]) == Run(v1, [second]);
    assert [second][1..] == [];
    assert Run(v1, [second]) == Run(Apply(v1, second.command, second.engine), []);
  }

  /** A `play` at `now = a` followed by a `pause` at `now = b` adds exactly `b - a`. */
  lemma PlayThenPause(v: View, play: Snapshot, pause: Snapshot)
    requires v.totalSpentTime.Millis?
    ensures Run(v, [Input(EngineFired(Play), play), Input(EngineFired(Pause), pause)]).totalSpentTime
         == Millis(v.totalSpentTime.ms + (pause.now - play.now))
  {
    var v1 := Step(v, Play, play);
    StepClockAndLog(v, Play, play);
    StepClockAndLog(v1, Pause, pause);
    RunTwo(v, Input(EngineFired(Play), play), Input(EngineFired(Pause), pause));
  }

  /**
   * At the end of the media the `timeupdate` listener's synthetic `ended` adds
   * the play interval, and the engine's following `pause` adds it again:
   * the time since the last `play` is counted twice.
   */
  lemma EndThenPauseCountsTwice(v: View, end: Snapshot, pause: Snapshot)
    requires v.totalSpentTime.Millis? && v.startTime.Some?
    requires end.currentTime == end.duration
    ensures Run(v, [Input(EngineFired(TimeUpdate), end), Input(EngineFired(Pause), pause)]).totalSpentTime
         == Millis(v.totalSpentTime.ms + (end.now - v.startTime.value) + (pause.now - v.startTime.value))
  {
    var v1 := Step(v, TimeUpdate, end);
    StepClockAndLog(v, TimeUpdate, end);
    StepClockAndLog(v1, Pause, pause);
    RunTwo(v, Input(EngineFired(TimeUpdate), end), Input(EngineFired(Pause), pause));
  }

  // ---------------------------------------------------------------------------
  // From construction

  /**
   * A freshly constructed component with a fresh viewer service, after any
   * mix of engine events, commands and marker callbacks: the play/pause pair
   * is complementary, the viewer's seeked total equals the component's and is
   * never negative, and every interception response is that of a passed marker.
   */
  lemma FromConstruction(trace: seq<Input>)
    ensures var r := Run(Initial(InitialViewer), trace);
      && r.showPlayButton != r.showPauseButton
      && r.viewer.totalSeekedLength == r.totalSeekedLength
      && r.totalSeekedLength >= 0.0
      && (forall k :: k in r.viewer.interceptionResponses ==> r.viewer.interceptionResponses[k] == Passed)
  {
    var v := Initial(InitialViewer);
    PlayPauseStayComplementary(v, trace);
    SeekedLengthMirrored(v, trace);
    SeekedLengthNeverDecreases(v, trace);
    ResponsesOnlyGrow(v, trace);
  }
}
