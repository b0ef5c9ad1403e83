/** A run behind a jump of the follower: a report in line with the estimate re-plans the timeline, and
    the step the jump had put half a step behind the last one heard comes nearer. */
module ReplanExample {
  import opened Numbers
  import opened Clock
  import opened Pattern
  import opened Scheduling
  import opened QueuedLogs
  import opened Rendering
  import opened Observing
  import opened Controlling
  import opened Engines
  import opened Realigning
  import opened GridHits
  import opened GridRuns
  import opened Tracing
  import opened Counterexamples
  import opened Reporting
  import Following
  import FollowerRuns
  import opened FollowedRuns
  import AfterJumps

  // ---- At 48 kHz and 60 BPM ----

  /** A beat is 48000 samples. */
  const RATE := 1.0 / 48000.0

  /** An eighth of a beat on at sample 50, and the beat there 2700 samples on. */
  const SNAPPED_BEAT := 6050.0 / 48000.0
  const LATER_BEAT := 8750.0 / 48000.0

  /** What the report behind the jump adds to the drift: a 4 % gain on its slope. */
  const DRIFT := 8.0 / 1125.0

  lemma RateAt60(f: Following.State)
    requires f.sampleRate == 48000.0 && f.bpm == 60.0 && f.drift == 0.0
    ensures f.EstRate() == RATE
  {
    assert 60.0 / (60.0 * 48000.0) == RATE;
  }

  // ---- The engine ----

  /** Following at 48 kHz and no controls, with every voice on every step. */
  ghost predicate Followed(core: ControlState, f: Following.State)
  {
    && core.Valid() && core.mode == Mode.Following && core.follower == f.Output() && core.sampleRate == 48000.0
    && core.controls == Controls(0.0, 0.0) && core.scheduler.pattern == EveryStep() && core.lookahead == 4800
    && core.pendingFlush == None && core.follower.sampleRate == 48000.0
  }

  /** A straight timeline at 60 BPM with beat 0 on `start`. */
  ghost predicate Straight60(f: Following.State, start: int)
  {
    Following.Valid(f) && f.slewRate == f.rate == RATE && f.anchorSample - f.anchorBeat * 48000.0 == start as real
  }

  /** Steps on a straight timeline. */
  lemma StraightStep(core: ControlState, f: Following.State, start: int, k: nat)
    requires Followed(core, f) && Straight60(f, start)
    ensures core.Pattern().Valid() && !core.Pattern().HasFlam(k)
    ensures StepPosition(core.Pattern(), core.Adjusted(), k) == start + 12000 * k
  {
    hide EveryStep, Pattern.HasFlam, Pattern.Valid, Pattern.StepBeat, Following.Valid, Timeline.SampleAtBeat;
    PlainSteps(EveryStep(), k);
    BeatOn(EveryStep(), k);
    var beat := k as real * 0.25;
    AfterJumps.StraightSample(f, beat);
    OverRate(beat - f.anchorBeat);
    assert core.Adjusted().SampleAtBeat(beat) == (start + 12000 * k) as real;
  }

  lemma OverRate(x: real)
    ensures x / RATE == x * 48000.0
  {
  }

  lemma NewFollower(e: Engine, f: Following.State)
    requires Fresh(e, 60.0, EveryStep(), Controls(0.0, 0.0), 4800)
    requires StraightLine(48000.0, 60.0, 0.0, 0.0) == f.Output()
    requires f.Output().Valid()
    ensures e.Valid() && Core(e.control).Valid()
    ensures var following := ControlStep(Core(e.control), SetMode(Mode.Following), 0, 0);
            Followed(following, f) && following.log == []
            && following.scheduler == SchedulerState(EveryStep(), 0, false, None, None)
  {
    hide EveryStep, StraightLine, Fresh, ControlStep, Pattern.Valid;
    FreshIs(e, 60.0, EveryStep(), Controls(0.0, 0.0), 4800);
    FollowingCore(Core(e.control), f);
  }

  lemma FollowingCore(core: ControlState, f: Following.State)
    requires core.Valid() && core.mode == FreeRunning && core.sampleRate == 48000.0 && core.log == []
    requires core.internal == Line(48000.0, 60.0, 0.0, 0.0) && core.controls == Controls(0.0, 0.0)
    requires core.scheduler == SchedulerState(EveryStep(), 0, false, None, None) && core.lookahead == 4800
    requires core.pendingFlush == None && StraightLine(48000.0, 60.0, 0.0, 0.0) == f.Output() && f.Output().Valid()
    ensures var following := ControlStep(core, SetMode(Mode.Following), 0, 0);
            Followed(following, f) && following.log == [] && following.scheduler == core.scheduler
  {
    hide EveryStep, StraightLine, Line.BeatAtSample, Pattern.Valid, Timeline.Valid;
    LineAtZero(60.0);
    LineRate(48000.0, 60.0, 0.0, 0.0);
    assert core.Active().BeatAtSample(0.0) == 0.0;
  }

  lemma LineRate(sampleRate: real, bpm: real, sample: real, beat: real)
    requires sampleRate > 0.0
    ensures StraightLine(sampleRate, bpm, sample, beat).sampleRate == sampleRate
  {
  }

  lemma LineAtZero(bpm: real)
    requires MIN_BPM <= bpm <= MAX_BPM
    ensures Line(48000.0, bpm, 0.0, 0.0).BeatAtSample(0.0) == 0.0
  {
    hide Line.SamplesPerBeat;
  }

  /** Joined at sample 0, step 0 queued there, at sample 50. */
  ghost predicate Joined(core: ControlState, f: Following.State)
  {
    && Followed(core, f) && core.log == [Queued(0, 0, 0)]
    && core.scheduler == SchedulerState(EveryStep(), 1, true, None, None)
  }

  lemma JoinedRun(e: Engine, f: Following.State)
    requires Fresh(e, 60.0, EveryStep(), Controls(0.0, 0.0), 4800) && Straight60(f, 0)
    requires StraightLine(48000.0, 60.0, 0.0, 0.0) == f.Output() && f.Output().Valid()
    ensures var ops := [SetMode(Mode.Following), Start, Render(50, f.Output(), false)];
            && e.Valid() && OpsValid(ops)
            && exists core :: Stands(Run(e, ops), core, 50, 1004) && Joined(core, f)
  {
    hide After, Stands, EveryStep, Run, StepPosition, Following.Valid, OneDue, FirstStepAtOrAfter, Straight60,
         StraightLine;
    var core, mode, first := Core(e.control), SetMode(Mode.Following), Render(50, f.Output(), false);
    FreshIs(e, 60.0, EveryStep(), Controls(0.0, 0.0), 4800);
    NewStands(e);
    NewFollower(e, f);
    RunThree(e, mode, Start, first);
    StandsEdit(e, core, 0, EVENT_QUEUE_CAPACITY, mode);
    var following := ControlStep(core, mode, 0, 0);
    JoinsAtZero(following, f);
    StandsJoin(After(e, mode), following, 0, EVENT_QUEUE_CAPACITY);
    var joined := following.(scheduler := SchedulerState(EveryStep(), 0, true, None, None));
    var e1 := After(After(e, mode), Start);
    StandsIs(e1, joined, 0, EVENT_QUEUE_CAPACITY);
    RenderOne(e1, joined, 0, EVENT_QUEUE_CAPACITY, first, 0);
    StandsIs(After(e1, first), WithStep(joined, 0), 50, 1004);
    assert Joined(WithStep(joined, 0), f);
  }

  lemma JoinsAtZero(core: ControlState, f: Following.State)
    requires Followed(core, f) && Straight60(f, 0) && core.log == []
             && core.scheduler == SchedulerState(EveryStep(), 0, false, None, None)
    ensures FirstStepAtOrAfter(core.Pattern(), core.Adjusted(), 0) == 0
    ensures var joined := core.(scheduler := SchedulerState(EveryStep(), 0, true, None, None));
            joined.Valid() && OneDue(joined, 0, 4800) && Planned(joined, Render(50, f.Output(), false)) == joined
  {
    RateAudible(core, f);
    hide EveryStep, StepPosition, Pattern.HasFlam, FirstStepAtOrAfter, SearchStart, Straight60, AudioRate;
    StraightStep(core, f, 0, 0);
    StraightStep(core, f, 0, 1);
    SearchAtZero(core.Pattern(), core.Adjusted());
  }

  lemma RateAudible(core: ControlState, f: Following.State)
    requires Followed(core, f) && Following.Valid(f)
    ensures AudioRate(core.Adjusted())
  {
    hide Following.Valid, EveryStep;
    SampleRateIs(core, f);
    FollowerRuns.SteadyAtAudioRate(f, core.controls);
  }

  lemma SampleRateIs(core: ControlState, f: Following.State)
    requires Followed(core, f)
    ensures f.sampleRate == core.follower.sampleRate
  {
  }

  // ---- The jump, and the report behind it ----

  lemma CutOne()
    ensures CutFrom([Queued(0, 0, 0)], 50, None) == Cut(50, Some(Queued(0, 0, 0)), None)
    ensures FlushFrom([Queued(0, 0, 0)], 50) == [Queued(0, 0, 0)]
  {
    assert [Queued(0, 0, 0)][1..] == [];
  }

  /** A jump at 50 by an eighth of a beat puts step 1 half a step behind step 0, and the cursor on it. */
  lemma SnapJoined(core: ControlState, f: Following.State, f': Following.State)
    requires Joined(core, f) && Following.Valid(f) && Straight60(f', -6000) && f'.Output().Valid()
    requires f'.sampleRate == 48000.0
    ensures var moved := Planned(core, Observe(f'.Output(), true));
            && moved.Valid() && core.Active().Valid() && Jumped(moved, Follow(core.follower), 50) == moved
            && Joined(moved, f') && StepPosition(moved.Pattern(), moved.Adjusted(), 1) == 6000
  {
    hide EveryStep, StepPosition, FirstStepAtOrAfter, CutFrom, FlushFrom, Pattern.Valid, AudioRate, Following.Valid;
    var moved := Planned(core, Observe(f'.Output(), true));
    assert Followed(moved, f');
    CutOne();
    HalfAfterZero(moved, f');
    assert RealignFrom(moved, 50, Follow(core.follower)) == 6000;
    StraightStep(moved, f', -6000, 0);
    StraightStep(moved, f', -6000, 1);
    RateAudible(moved, f');
    FindsOne(moved.Pattern(), moved.Adjusted(), 6000);
  }

  lemma HalfAfterZero(core: ControlState, f: Following.State)
    requires Followed(core, f) && Straight60(f, -6000)
    ensures HalfStepAfter(core, 0.0) == 6000
  {
    hide EveryStep, Pattern.Valid, Following.Valid;
    assert 1.0 / RATE == 48000.0;
    assert HalfStep(core.Active()) == 6000.0;
  }

  /** The timeline after the second report. */
  function NudgedLine(): Timeline
  {
    Timeline(48000.0, 60.0, 2750.0, 8750.0 / 48000.0, 1189.65 / 54000000.0, 2750.0 + 5400000.0 / 1133.0,
             1133.0 / 54000000.0)
  }

  lemma NudgedBeats()
    ensures NudgedLine().Valid()
    ensures 5822.5 <= NudgedLine().SampleAtBeat(0.25) < 5823.5 && NudgedLine().SampleAtBeat(0.5) >= 7600.0
  {
    var t := NudgedLine();
    assert t.SlewEndBeat() == 8750.0 / 48000.0 + 0.105;
    assert t.SampleAtBeat(0.25) == 2750.0 + (3250.0 / 48000.0) / (1189.65 / 54000000.0);
    assert t.SampleAtBeat(0.5) == t.slewEnd + (0.5 - 8750.0 / 48000.0 - 0.105) / (1133.0 / 54000000.0);
  }

  /** The step comes to 5823, where half a step is 5957 samples. */
  lemma NudgedDue(core: ControlState)
    requires core.Valid() && core.mode == Mode.Following && core.follower == NudgedLine()
    requires core.controls == Controls(0.0, 0.0) && core.log == [Queued(0, 0, 0)]
    requires core.scheduler == SchedulerState(EveryStep(), 1, true, None, None)
    ensures OneDue(core, 5823, 7550) && Crowded(WithStep(core, 5823), 0, 5823)
  {
    hide EveryStep, Pattern.HasFlam, Pattern.Valid, Pattern.StepBeat, Timeline.SampleAtBeat;
    PlainSteps(EveryStep(), 1);
    BeatOn(EveryStep(), 1);
    BeatOn(EveryStep(), 2);
    NudgedBeats();
    NudgedHalf(core);
    assert core.Adjusted().SampleAtBeat(0.25) == NudgedLine().SampleAtBeat(0.25);
    assert core.Adjusted().SampleAtBeat(0.5) == NudgedLine().SampleAtBeat(0.5);
  }

  lemma NudgedHalf(core: ControlState)
    requires core.Valid() && core.mode == Mode.Following && core.follower == NudgedLine()
    ensures HalfStep(core.Active()) > 5957.0
  {
    assert 1.0 / (1133.0 / 54000000.0) == 54000000.0 / 1133.0;
  }

  /** The run up to the second report. */
  lemma ReportedRun(e: Engine, f: Following.State, f': Following.State)
    requires Fresh(e, 60.0, EveryStep(), Controls(0.0, 0.0), 4800) && Straight60(f, 0) && Straight60(f', -6000)
    requires StraightLine(48000.0, 60.0, 0.0, 0.0) == f.Output() && f.Output().Valid()
    requires f'.Output().Valid() && f'.sampleRate == 48000.0
    ensures var ops := [SetMode(Mode.Following), Start, Render(50, f.Output(), false)]
                       + [Observe(f'.Output(), true), Render(2700, f'.Output(), false)];
            && e.Valid() && OpsValid(ops)
            && exists core :: Stands(Run(e, ops), core, 2750, 1003) && Joined(core, f')
  {
    hide After, Stands, EveryStep, Run, StepPosition, Following.Valid, OneDue, FirstStepAtOrAfter, StraightLine, Jumped;
    var begun := [SetMode(Mode.Following), Start, Render(50, f.Output(), false)];
    var snap, wait := Observe(f'.Output(), true), Render(2700, f'.Output(), false);
    FreshIs(e, 60.0, EveryStep(), Controls(0.0, 0.0), 4800);
    JoinedRun(e, f);
    var core :| Stands(Run(e, begun), core, 50, 1004) && Joined(core, f);
    var e1 := Run(e, begun);
    SnapJoined(core, f, f');
    var moved := Planned(core, snap);
    StandsSnap(e1, core, 50, 1004, snap);
    StandsIs(After(e1, snap), moved, 50, 1003);
    RenderNone(After(e1, snap), moved, 50, 1003, wait);
    assert Planned(moved, wait) == moved;
    RunPair(e, begun, snap, wait);
  }

  /** The line of the second report. */
  lemma NudgedLineIs(rate: real)
    requires rate == RATE * (1.0 + DRIFT)
    ensures Timeline(48000.0, 60.0, 2750.0, LATER_BEAT, rate * 1.05, 2750.0 + 0.005 / (rate * 0.05), rate)
            == NudgedLine()
    ensures NudgedLine().Valid()
  {
    assert rate == 1133.0 / 54000000.0;
    assert rate * 0.05 == 56.65 / 54000000.0;
    assert 0.005 / (56.65 / 54000000.0) == 5400000.0 / 1133.0;
  }

  lemma EngineCrowds(e: Engine, f: Following.State, f': Following.State)
    requires Fresh(e, 60.0, EveryStep(), Controls(0.0, 0.0), 4800) && Straight60(f, 0) && Straight60(f', -6000)
    requires StraightLine(48000.0, 60.0, 0.0, 0.0) == f.Output() && f.Output().Valid()
    requires f'.Output().Valid() && f'.sampleRate == 48000.0 && NudgedLine().Valid()
    ensures var ops := [SetMode(Mode.Following), Start, Render(50, f.Output(), false)]
                       + [Observe(f'.Output(), true), Render(2700, f'.Output(), false)]
                       + [Observe(NudgedLine(), false), Render(1, NudgedLine(), false)];
            && e.Valid() && OpsValid(ops) && Crowded(Run(e, ops).control, 0, 5823)
  {
    hide After, Stands, EveryStep, Run, Following.Valid, OneDue, StraightLine, NudgedLine, Crowded, Straight60;
    var begun := [SetMode(Mode.Following), Start, Render(50, f.Output(), false)]
                 + [Observe(f'.Output(), true), Render(2700, f'.Output(), false)];
    var report, last := Observe(NudgedLine(), false), Render(1, NudgedLine(), false);
    ReportedRun(e, f, f');
    var core :| Stands(Run(e, begun), core, 2750, 1003) && Joined(core, f');
    var e1 := Run(e, begun);
    FreshIs(e, 60.0, EveryStep(), Controls(0.0, 0.0), 4800);
    StandsEdit(e1, core, 2750, 1003, report);
    var nudged := ControlStep(core, report, 0, 2750);
    NudgedDue(nudged);
    StandsIs(After(e1, report), nudged, 2750, 1003);
    assert Planned(nudged, last) == nudged;
    RenderOne(After(e1, report), nudged, 2750, 1003, last, 5823);
    CrowdedCore(After(After(e1, report), last), WithStep(nudged, 5823), 2751, 983, 0, 5823);
    RunPair(e, begun, report, last);
  }

  // ---- Both together ----

  /** A report of a beat phase at 60 BPM. */
  function Reported(sample: real, phase: real): FollowedRuns.Call
  {
    Told(Observation(Finite(sample), Beat(Finite(phase)), Some(Finite(60.0))))
  }

  /** A start, a jump by an eighth of a beat, and a report a hundredth of a beat off that line. */
  function Calls(): seq<FollowedRuns.Call>
  {
    [Other(Start), Frames(50), Reported(50.0, SNAPPED_BEAT), Frames(2700), Reported(2750.0, LATER_BEAT + 0.01),
     Frames(1)]
  }

  /** An output on the estimate is straight. */
  lemma StraightOn(f: Following.State, t: real, beat: real, start: int)
    requires OnLine(f, t, beat) && f.sampleRate == 48000.0 && f.bpm == 60.0 && t - beat * 48000.0 == start as real
    ensures Straight60(f, start) && f.Output().Valid()
  {
    RateAt60(f);
    FollowerRuns.OutputValid(f);
    hide Following.Valid, Following.State.EstRate;
  }

  /** What the follower answers: the jump. */
  lemma Snaps(f: Following.State, sqrt: real -> real)
    requires Waiting(f, 0.0, 0.0) && f.EstRate() == RATE
    ensures Following.Valid(f)
    ensures var f' := FollowerRuns.After(f, Report(50.0, SNAPPED_BEAT, f.bpm), sqrt);
            var f'' := f'.(discontinuity := false);
            && f'.discontinuity && Locked(f'', 50.0, SNAPPED_BEAT)
            && f''.sampleRate == f.sampleRate && f''.bpm == f.bpm
  {
    hide Following.Valid, FollowerRuns.After, Following.State.EstRate, Timeline.BeatAtSample, AfterJumps.OnEstimate;
    OnLineAt(f, 0.0, 0.0, 50.0);
    assert (50.0 - 0.0) * RATE == 50.0 / 48000.0;
    SnapsTo(f, 0.0, 0.0, 50.0, SNAPPED_BEAT, sqrt);
  }

  /** The report 0.05625 beats behind the jump, 0.01 beats off the line. */
  lemma Corrects60(f: Following.State, sqrt: real -> real)
    requires f.updates == 0 && f.drift == 0.0 && sqrt(0.64) == 0.8
    ensures Corrects(f, 0.01, 0.05625, 0.005, DRIFT, sqrt)
  {
    assert 0.05625 / (0.05625 + 0.1) == 0.36;
    assert Following.Step(0.36, 1, 0.01) == 0.005;
    assert 0.01 / 0.05625 == 8.0 / 45.0;
    assert Following.Gain(1.0, 0.8, 8.0 / 45.0) == DRIFT;
  }

  lemma DriftedRate(f: Following.State)
    requires f.sampleRate == 48000.0 && f.bpm == 60.0 && f.drift == DRIFT
    ensures f.EstRate() == RATE * (1.0 + DRIFT)
  {
    assert 60.0 / (60.0 * 48000.0) == RATE;
  }

  lemma Bound60()
    ensures OutlierBound(Following.TuningOf(Following.Exact).jumpS, RATE, 48000.0) == 0.02
  {
  }

  /** And the slew. */
  lemma Slews(f: Following.State, sqrt: real -> real)
    requires Locked(f, 50.0, SNAPPED_BEAT) && f.sampleRate == 48000.0 && f.bpm == 60.0 && sqrt(0.64) == 0.8
    ensures var f' := FollowerRuns.After(f, Report(2750.0, LATER_BEAT + 0.01, 60.0), sqrt);
            && Following.Valid(f') && !f'.discontinuity && f'.Output() == NudgedLine() && NudgedLine().Valid()
            && FollowerRuns.After(f', FollowerRuns.Advance(Finite(2750.0)), sqrt) == f'
  {
    RateAt60(f);
    hide Following.Valid, FollowerRuns.After, Following.State.EstRate, NudgedLine, Timeline.BeatAtSample, Corrects,
         Following.State.EstBeatAt, Following.GainSpacing, Following.Threshold, Following.NoteSpacing;
    OnLineAt(f, 50.0, SNAPPED_BEAT, 2750.0);
    assert SNAPPED_BEAT + (2750.0 - 50.0) * RATE == LATER_BEAT;
    SpacingIs(f, 2750.0, 0.05625);
    BoundIs(f, 1.0);
    Bound60();
    WrapSmall(0.01);
    Corrects60(f, sqrt);
    InlierSlews(f, 50.0, 2750.0, LATER_BEAT + 0.01, 0.01, 0.05625, 0.005, DRIFT, 0.005, sqrt);
    DriftedRate(FollowerRuns.After(f, Report(2750.0, LATER_BEAT + 0.01, 60.0), sqrt));
    NudgedLineIs(RATE * (1.0 + DRIFT));
    ReportTicks(f, 2750.0, LATER_BEAT + 0.01, sqrt);
  }

  /** What the follower answers over a start, a block, a snap, a block, a report and a block. */
  ghost predicate Answering(f: Following.State, snapped: Following.State, f'': Following.State,
                            snap: FollowedRuns.Call, report: FollowedRuns.Call, sqrt: real -> real)
  {
    && Following.Valid(f) && Following.Valid(snapped) && Following.Valid(f'') && snap.Told? && report.Told?
    && Noticed(f) == f == Answer(f, Other(Start), 0, sqrt) && Answer(f, Frames(50), 0, sqrt) == f
    && Answer(f, snap, 50, sqrt) == snapped && snapped.discontinuity
    && var f' := Noticed(snapped);
       && Noticed(f') == f' == Answer(f', Frames(2700), 50, sqrt) && Answer(f', report, 2750, sqrt) == f''
       && Noticed(f'') == f'' == Answer(f'', Frames(1), 2750, sqrt)
  }

  /** What the follower answers at 60 BPM. */
  lemma Answers(f: Following.State, sqrt: real -> real)
    requires Waiting(f, 0.0, 0.0) && f.sampleRate == 48000.0 && f.bpm == 60.0 && sqrt(0.64) == 0.8
    ensures Following.Valid(f) && NudgedLine().Valid() && Straight60(f, 0) && f.Output().Valid()
    ensures var snap, report := Reported(50.0, SNAPPED_BEAT), Reported(2750.0, LATER_BEAT + 0.01);
            var snapped := Answer(f, snap, 50, sqrt);
            var f' := Noticed(snapped);
            var f'' := Answer(f', report, 2750, sqrt);
            && Answering(f, snapped, f'', snap, report, sqrt)
            && Straight60(f', -6000) && f'.sampleRate == 48000.0 && f'.Output().Valid()
            && f''.Output() == NudgedLine()
  {
    hide Following.Valid, FollowerRuns.After, Following.State.EstRate, NudgedLine, Straight60, AfterJumps.OnEstimate;
    RateAt60(f);
    Snaps(f, sqrt);
    StraightOn(f, 0.0, 0.0, 0);
    var f' := FollowerRuns.After(f, Report(50.0, SNAPPED_BEAT, 60.0), sqrt).(discontinuity := false);
    StraightOn(f', 50.0, SNAPPED_BEAT, -6000);
    Slews(f', sqrt);
    TicksOn(f, 0.0, 0.0, sqrt);
    TicksOn(f', 50.0, SNAPPED_BEAT, sqrt);
    assert 50 as real == 50.0 && 2750 as real == 2750.0;
  }

  /** The calls the engine gets. */
  lemma OpsAre(e: Engine, f: Following.State, snapped: Following.State, f'': Following.State,
               snap: FollowedRuns.Call, report: FollowedRuns.Call, sqrt: real -> real)
    requires e.Valid() && e.renderer.position == 0 && Answering(f, snapped, f'', snap, report, sqrt)
    ensures var calls, f' := [Other(Start), Frames(50), snap, Frames(2700), report, Frames(1)], Noticed(snapped);
            && CallsValid(calls) && f.Output().Valid() && f'.Output().Valid() && f''.Output().Valid()
            && OpsOf(e, f, calls, sqrt)
               == [Start, Render(50, f.Output(), false), Observe(f'.Output(), true), Render(2700, f'.Output(), false),
                   Observe(f''.Output(), false), Render(1, f''.Output(), false)]
  {
    hide Following.Valid, Answer, Noticed, After, OpsOf;
    var f' := Noticed(snapped);
    FollowerRuns.OutputValid(f);
    FollowerRuns.OutputValid(f');
    FollowerRuns.OutputValid(f'');
    var behind := [Frames(2700)] + ([report] + [Frames(1)]);
    PositionAfter(e, Start);
    OpsOn(e, f, Other(Start), [Frames(50)] + ([snap] + behind), sqrt);
    OpsTwo(After(e, Start), f, snapped, 50, snap, behind, sqrt);
    var e1 := After(After(After(e, Start), Render(50, f.Output(), false)), Observe(f'.Output(), true));
    OpsTwo(e1, f', f'', 2700, report, [Frames(1)], sqrt);
    var e2 := After(After(e1, Render(2700, f'.Output(), false)), Observe(f''.Output(), false));
    OpsOn(e2, f'', Frames(1), [], sqrt);
    OpsLast(e2, f'', 1, sqrt);
    assert [Other(Start)] + ([Frames(50)] + ([snap] + behind))
           == [Other(Start), Frames(50), snap, Frames(2700), report, Frames(1)];
  }

  /** At 60 BPM a jump at 50 puts step 1 on 6000, half a step behind step 0. A report at 2750, a
      hundredth of a beat off the estimate, is no outlier and no jump. Yet the slew it starts brings
      step 1 to 5823, and it is queued there. All the engine is told is what its follower answers, a
      new one (`Reporting.NewWaits`). */
  lemma ReplanCrowds(e: Engine, f: Following.State, sqrt: real -> real)
    requires Fresh(e, 60.0, EveryStep(), Controls(0.0, 0.0), 4800) && sqrt(0.64) == 0.8
    requires Waiting(f, 0.0, 0.0) && f.sampleRate == 48000.0 && f.bpm == 60.0
    ensures e.Valid() && After(e, SetMode(Mode.Following)).Valid() && Following.Valid(f) && CallsValid(Calls())
    ensures var ops := OpsOf(After(e, SetMode(Mode.Following)), f, Calls(), sqrt);
            && |ops| == 6 && ops[2].Observe? && ops[2].snapped && ops[4].Observe? && !ops[4].snapped
            && OpsValid([SetMode(Mode.Following)] + ops)
            && Crowded(Run(e, [SetMode(Mode.Following)] + ops).control, 0, 5823)
  {
    hide Fresh, After, Following.Valid, Run, OpsOf, Crowded, Answering, Answer, Noticed, NudgedLine, Straight60,
         StraightLine, EveryStep, Waiting;
    FreshStarts(e, 60.0, EveryStep());
    var mode, e1 := SetMode(Mode.Following), After(e, SetMode(Mode.Following));
    var snap, report := Reported(50.0, SNAPPED_BEAT), Reported(2750.0, LATER_BEAT + 0.01);
    WaitingLine(f);
    Answers(f, sqrt);
    var snapped := Answer(f, snap, 50, sqrt);
    OpsAre(e1, f, snapped, Answer(Noticed(snapped), report, 2750, sqrt), snap, report, sqrt);
    EngineCrowds(e, f, Noticed(snapped));
    var a, b := f.Output(), Noticed(snapped).Output();
    assert [mode] + OpsOf(e1, f, Calls(), sqrt)
           == [mode, Start, Render(50, a, false)] + [Observe(b, true), Render(2700, b, false)]
              + [Observe(NudgedLine(), false), Render(1, NudgedLine(), false)];
  }

  /** A follower that waits at beat 0 runs as the one an engine switches to. */
  lemma WaitingLine(f: Following.State)
    requires Waiting(f, 0.0, 0.0) && f.sampleRate == 48000.0 && f.bpm == 60.0
    ensures StraightLine(48000.0, 60.0, 0.0, 0.0) == f.Output()
  {
    RateAt60(f);
    hide Following.Valid, Following.State.EstRate;
    assert 60.0 / (60.0 * 48000.0) == RATE;
  }
}
