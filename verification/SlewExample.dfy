/** Beyond the bound on lookahead and tempo a slew does crowd: at 400 BPM under full shuffle a step is
    queued in the slowest slew, and the one behind it in the fastest. */
module SlewExample {
  import opened Numbers
  import opened Clock
  import opened Pattern
  import opened Scheduling
  import opened QueuedLogs
  import opened Rendering
  import opened Observing
  import opened Controlling
  import opened Engines
  import opened Realigning
  import opened GridHits
  import opened GridRuns
  import opened Tracing
  import opened Counterexamples
  import opened Reporting
  import opened FollowedRuns
  import Pacing
  import Following
  import FollowerRuns
  import AfterJumps

  // ---- The follower: 48 kHz, 400 BPM, Exact ----

  /** Beats a sample: of the tempo, behind the second report, and behind the third. */
  const RATE := 1.0 / 7200.0
  const SLOW := 0.9964 / 7200.0
  const FAST := 1.0036 / 7200.0

  /** Where the output is at 71280, and 1200 samples on in the slowest slew. */
  const HERE := 10.21
  const THERE := 10.21 + 1200.0 * (0.95 * SLOW)

  /** How far the third report puts the estimate ahead of the output. */
  const AHEAD := 0.04356 + 60.0 * SLOW

  /** The third report: 0.088 beats ahead of the estimate. */
  const THIRD := 0.16644 + 1200.0 * SLOW + 0.088

  lemma RateAt400(f: Following.State)
    requires f.sampleRate == 48000.0 && f.bpm == 400.0
    ensures f.EstRate() == RATE * (1.0 + f.drift)
  {
    assert 400.0 / (60.0 * 48000.0) == RATE;
  }

  /** 9.9 beats behind the last report, no residual counts for less than 99 %. */
  lemma Corrects400(f: Following.State, err: real, drift: real, sqrt: real -> real)
    requires f.updates <= 1 && sqrt(0.01) == 0.1
    requires drift == f.drift + 9.0 / 110.0 * err && -0.01 <= drift <= 0.01
    ensures Corrects(f, err, 9.9, 0.99 * err, drift, sqrt)
  {
    assert 9.9 / (9.9 + 0.1) == 0.99;
    assert Following.Step(0.99, f.updates + 1, err) == 0.99 * err;
    assert MaxR(9.9, Following.MIN_UPDATE_BEATS) == 9.9;
    GainAt(err);
  }

  lemma GainAt(err: real)
    ensures Following.Gain(1.0, 0.1, err / 9.9) == 9.0 / 110.0 * err
  {
    assert (1.0 - 0.1) * (1.0 - 0.1) == 0.81;
  }

  lemma Bound400(rate: real)
    requires rate >= SLOW
    ensures OutlierBound(Following.TuningOf(Following.Exact).jumpS, rate, 48000.0) >= 0.088
  {
  }

  /** What the follower answers: the second report, 0.044 beats behind, starts the slowest slew. */
  lemma SlewsBack(f: Following.State, sqrt: real -> real)
    requires Locked(f, 0.0, 0.31) && f.sampleRate == 48000.0 && f.bpm == 400.0 && sqrt(0.01) == 0.1
    ensures var f' := FollowerRuns.After(f, Report(71280.0, 0.166, 400.0), sqrt);
            && Behind(f') && SlowLine().Valid() && f'.Output() == SlowLine()
            && FollowerRuns.After(f', FollowerRuns.Advance(Finite(71280.0)), sqrt) == f'
  {
    RateAt400(f);
    hide Following.Valid, FollowerRuns.After, Following.State.EstRate, SlowLine, Timeline.BeatAtSample, Corrects,
         Following.State.EstBeatAt, Following.GainSpacing, Following.Threshold, Following.NoteSpacing;
    OnLineAt(f, 0.0, 0.31, 71280.0);
    assert 0.31 + (71280.0 - 0.0) * RATE == HERE;
    SpacingIs(f, 71280.0, 9.9);
    BoundIs(f, 1.0);
    Bound400(RATE);
    WrapTurned(-0.044, -10);
    Corrects400(f, -0.044, -0.0036, sqrt);
    InlierSlews(f, 0.0, 71280.0, 0.166, -0.044, 9.9, -0.04356, -0.0036, -0.04356, sqrt);
    RateAt400(FollowerRuns.After(f, Report(71280.0, 0.166, 400.0), sqrt));
    SlowLineIs(SLOW);
    ReportTicks(f, 71280.0, 0.166, sqrt);
  }

  /** Slewing back since the second report. */
  ghost predicate Behind(f: Following.State)
  {
    && Tracking(f, 71280.0) && f.updates == 1 && f.drift == -0.0036 && f.estSample == 71280.0
    && f.estBeat == HERE - 0.04356 && f.meanSpacing == Some(9.9) && f.sampleRate == 48000.0 && f.bpm == 400.0
  }

  function SlowLine(): Timeline
  {
    Timeline(48000.0, 400.0, 71280.0, HERE, SLOW * 0.95, 71280.0 + 0.04356 / (SLOW * 0.05), SLOW)
  }

  function FastLine(): Timeline
  {
    Timeline(48000.0, 400.0, 72480.0, THERE, FAST * 1.05, 72480.0 + AHEAD / (FAST * 0.05), FAST)
  }

  lemma SlowLineIs(rate: real)
    requires rate == SLOW
    ensures Timeline(48000.0, 400.0, 71280.0, HERE, rate * (1.0 + FullSlew(-0.04356)),
                     71280.0 + -0.04356 / (rate * FullSlew(-0.04356)), rate) == SlowLine()
    ensures SlowLine().Valid()
  {
  }

  lemma FastLineIs(rate: real)
    requires rate == FAST
    ensures Timeline(48000.0, 400.0, 72480.0, THERE, rate * (1.0 + FullSlew(AHEAD)),
                     72480.0 + AHEAD / (rate * FullSlew(AHEAD)), rate) == FastLine()
    ensures FastLine().Valid()
  {
  }

  /** Where estimate and output are 1200 samples on. */
  lemma BehindAt(f: Following.State)
    requires Behind(f) && f.Output() == SlowLine()
    ensures f.EstRate() == SLOW
    ensures f.EstBeatAt(72480.0) == 10.0 + THIRD - 0.088 && f.Output().BeatAtSample(72480.0) == THERE
    ensures Following.GainSpacing(f, 72480.0) == Following.Span(9.9)
  {
    RateAt400(f);
    hide Following.State.EstRate, Following.Valid;
    assert 72480.0 <= SlowLine().slewEnd;
    assert (72480.0 - 71280.0) * SLOW == 1200.0 * SLOW;
  }

  /** The third report, 0.088 beats ahead, turns it into the fastest; neither is a jump. */
  lemma SlewsOnward(f: Following.State, sqrt: real -> real)
    requires Behind(f) && f.Output() == SlowLine() && sqrt(0.01) == 0.1
    ensures var f' := FollowerRuns.After(f, Report(72480.0, THIRD, 400.0), sqrt);
            && Following.Valid(f') && !f'.discontinuity && FastLine().Valid() && f'.Output() == FastLine()
            && FollowerRuns.After(f', FollowerRuns.Advance(Finite(72480.0)), sqrt) == f'
  {
    BehindAt(f);
    hide Following.Valid, FollowerRuns.After, Following.State.EstRate, SlowLine, FastLine, Timeline.BeatAtSample,
         Corrects, Following.State.EstBeatAt, Following.GainSpacing, Following.Threshold, Following.NoteSpacing;
    BoundIs(f, 1.0);
    Bound400(SLOW);
    WrapTurned(0.088, -10);
    Corrects400(f, 0.088, 0.0036, sqrt);
    InlierSlews(f, 71280.0, 72480.0, THIRD, 0.088, 9.9, 0.08712, 0.0036, AHEAD, sqrt);
    RateAt400(FollowerRuns.After(f, Report(72480.0, THIRD, 400.0), sqrt));
    FastLineIs(FAST);
    ReportTicks(f, 72480.0, THIRD, sqrt);
  }

  // ---- The engine ----

  /** Under full shuffle, with nothing of nudge or latency. */
  ghost predicate Shuffled(core: ControlState)
  {
    && core.Valid() && core.mode == Mode.Following && core.controls == Controls(0.0, 0.0)
    && core.scheduler.pattern == ShuffledSteps() && core.scheduler.stopAt == None && core.lookahead == 4800
  }

  lemma StepAt(core: ControlState, k: nat, beat: real, at: nat)
    requires Shuffled(core) && at >= 1 && ShuffledSteps().StepBeat(k) == beat
    requires at as real - 0.5 <= core.follower.SampleAtBeat(beat) < at as real + 0.5
    ensures StepPosition(core.Pattern(), core.Adjusted(), k) == at
  {
    hide Timeline.SampleAtBeat, Pattern.StepBeat, Pattern.Valid, ShuffledSteps;
    assert core.Adjusted().SampleAtBeat(beat) == core.follower.SampleAtBeat(beat);
  }

  lemma LateBeats(k: nat)
    ensures ShuffledSteps().StepBeat(k) == k as real * 0.25 + if k % 2 == 1 then 1.0 / 12.0 else 0.0
    ensures ShuffledSteps().Valid() && !ShuffledSteps().HasFlam(k)
  {
    assert ShuffledSteps() != EveryStep() by { assert EveryStep().shuffle == 0.0; }
    hide EveryStep, ShuffledSteps;
    BeatOn(ShuffledSteps(), k);
    PlainSteps(ShuffledSteps(), k);
  }

  lemma SlowBeats()
    ensures SlowLine().Valid()
    ensures 72217.5 <= SlowLine().SampleAtBeat(10.25 + 1.0 / 12.0) < 72218.5
    ensures 73485.5 <= SlowLine().SampleAtBeat(10.5) < 73486.5
    ensures 76020.5 <= SlowLine().SampleAtBeat(10.75 + 1.0 / 12.0) < 76021.5
    ensures 77288.5 <= SlowLine().SampleAtBeat(11.0) < 77289.5
  {
    var t := SlowLine();
    assert t.SlewEndBeat() >= 11.0;
    assert forall beat :: beat <= 11.0 ==> t.SampleAtBeat(beat) == 71280.0 + (beat - HERE) / (SLOW * 0.95);
  }

  /** The steps up to 40 are past. */
  lemma SlowPast(beat: real)
    requires beat <= 10.0
    ensures SlowLine().Valid() && SlowLine().SampleAtBeat(beat) <= 71000.0
  {
    var t := SlowLine();
    assert t.SlewEndBeat() >= 11.0;
    var d := HERE - beat;
    Pacing.AtLeastQuotient(d, SLOW * 0.95, 280.0);
    assert (beat - HERE) / (SLOW * 0.95) == -(d / (SLOW * 0.95));
  }

  lemma FastBeats()
    ensures FastLine().Valid()
    ensures 76799.5 <= FastLine().SampleAtBeat(11.0) < 76800.5
    ensures FastLine().SampleAtBeat(11.25 + 1.0 / 12.0) >= 79000.0
  {
    var t := FastLine();
    assert t.SlewEndBeat() >= 11.4;
    assert forall beat :: beat <= 11.4 ==> t.SampleAtBeat(beat) == 72480.0 + (beat - THERE) / (FAST * 1.05);
  }

  lemma SlowAudible(core: ControlState)
    requires Shuffled(core) && core.follower == SlowLine()
    ensures AudioRate(core.Adjusted())
  {
    hide ShuffledSteps;
    assert SLOW * 32.0 <= 1.0 && SLOW * 0.95 * 32.0 <= 1.0;
  }

  /** A start at 71280 begins with step 41. */
  lemma BeginsAt41(core: ControlState)
    requires Shuffled(core) && core.follower == SlowLine()
    ensures FirstStepAtOrAfter(core.Pattern(), core.Adjusted(), 71280) == 41
  {
    SlowAudible(core);
    hide ShuffledSteps, SlowLine, Timeline.SampleAtBeat, Pattern.StepBeat, FirstStepAtOrAfter, AudioRate;
    forall k: nat | k < 41
      ensures StepPosition(core.Pattern(), core.Adjusted(), k) < 71280
    {
      LateBeats(k);
      SlowPast(ShuffledSteps().StepBeat(k));
      assert core.Adjusted().SampleAtBeat(ShuffledSteps().StepBeat(k))
             == core.follower.SampleAtBeat(ShuffledSteps().StepBeat(k));
    }
    SlowSteps(core);
    hide StepPosition;
    FirstStepExact(core.Pattern(), core.Adjusted(), 71280);
    FirstUnique(core.Pattern(), core.Adjusted(), 71280, FirstStepAtOrAfter(core.Pattern(), core.Adjusted(), 71280), 41);
  }

  /** The steps of the slowest slew. */
  lemma SlowSteps(core: ControlState)
    requires Shuffled(core) && core.follower == SlowLine()
    ensures var at := (k: nat) => StepPosition(core.Pattern(), core.Adjusted(), k);
            at(41) == 72218 && at(42) == 73486 && at(43) == 76021 && at(44) == 77289
  {
    hide ShuffledSteps, SlowLine, Timeline.SampleAtBeat, Pattern.StepBeat, StepPosition, Shuffled;
    SlowBeats();
    LateBeats(41);
    LateBeats(42);
    LateBeats(43);
    LateBeats(44);
    StepAt(core, 41, 10.25 + 1.0 / 12.0, 72218);
    StepAt(core, 42, 10.5, 73486);
    StepAt(core, 43, 10.75 + 1.0 / 12.0, 76021);
    StepAt(core, 44, 11.0, 77289);
  }

  lemma SlowSamples(core: ControlState)
    requires Shuffled(core) && core.follower == SlowLine()
    ensures var at := (k: nat) => StepSample(core.Pattern(), core.Adjusted(), k);
            at(41) == 72218 && at(42) == 73486 && at(43) == 76021 && at(44) == 77289
  {
    SlowSteps(core);
    hide StepPosition, SlowLine, ShuffledSteps;
  }

  /** The first tick queues steps 41, 42 and 43. */
  lemma ThreeQueued(core: ControlState)
    requires Shuffled(core) && core.follower == SlowLine() && core.scheduler.nextStep == 41 && core.log == []
    ensures forall k :: 41 <= k < 44 ==> StepSample(core.Pattern(), core.Adjusted(), k) < 76080
    ensures StepSample(core.Pattern(), core.Adjusted(), 44) >= 76080
    ensures EndsAt(Queueing(core, 44).log)
  {
    SlowSamples(core);
    LateBeats(43);
    hide ShuffledSteps, SlowLine, StepSample, LogSteps, StepSpan, Pattern.Valid, Pattern.HasFlam;
    LogAt([], core.Pattern(), core.Adjusted(), 41, 44);
    LogLength([], core.Pattern(), core.Adjusted(), 41, 43);
    PlainSpan(core.Pattern(), core.Adjusted(), 43);
  }

  ghost predicate EndsAt(log: seq<Queued>) { |log| == 3 && log[2] == Queued(43, 76021, 76021) }

  /** In the fastest slew step 44 comes to 76800, where half a step is 896 samples. */
  lemma FastDue(core: ControlState)
    requires Shuffled(core) && core.follower == FastLine() && core.scheduler.nextStep == 44 && core.scheduler.playing
    requires EndsAt(core.log)
    ensures OneDue(core, 76800, 77280) && Crowded(WithStep(core, 76800), 76021, 76800)
  {
    FastBeats();
    FastHalf(core);
    LateBeats(44);
    LateBeats(45);
    hide ShuffledSteps, FastLine, Timeline.SampleAtBeat, Pattern.StepBeat, Pattern.HasFlam, HalfStep;
    StepAt(core, 44, 11.0, 76800);
    assert core.Adjusted().SampleAtBeat(11.25 + 1.0 / 12.0) == FastLine().SampleAtBeat(11.25 + 1.0 / 12.0);
  }

  lemma FastHalf(core: ControlState)
    requires core.Valid() && core.mode == Mode.Following && core.follower == FastLine()
    ensures HalfStep(core.Active()) > 896.0
  {
    assert 1.0 / FAST == 7200.0 / 1.0036;
  }

  // ---- The run ----

  /** Up to the second report nothing plays. */
  lemma IdleRun(e: Engine, tl: Timeline)
    requires Fresh(e, 400.0, ShuffledSteps(), Controls(0.0, 0.0), 4800) && tl.Valid()
    ensures var ops := [SetMode(Mode.Following), Observe(tl, true), Render(71280, tl, false)];
            && e.Valid() && OpsValid(ops)
            && exists core :: Stands(Run(e, ops), core, 71280, EVENT_QUEUE_CAPACITY) && Shuffled(core) && core.log == []
                              && core.scheduler == SchedulerState(ShuffledSteps(), 0, false, None, None)
  {
    hide After, Stands, ShuffledSteps, Run, StraightLine, ActiveClock.BeatAtSample;
    var core, mode, snap, wait := Core(e.control), SetMode(Mode.Following), Observe(tl, true), Render(71280, tl, false);
    FreshIs(e, 400.0, ShuffledSteps(), Controls(0.0, 0.0), 4800);
    NewStands(e);
    RunThree(e, mode, snap, wait);
    StandsEdit(e, core, 0, EVENT_QUEUE_CAPACITY, mode);
    var following := ControlStep(core, mode, 0, 0);
    var e1 := After(e, mode);
    StandsIs(e1, following, 0, EVENT_QUEUE_CAPACITY);
    StandsEdit(e1, following, 0, EVENT_QUEUE_CAPACITY, snap);
    var snapped := ControlStep(following, snap, 0, 0);
    StandsIs(After(e1, snap), snapped, 0, EVENT_QUEUE_CAPACITY);
    StandsIdle(After(e1, snap), snapped, 0, EVENT_QUEUE_CAPACITY, wait);
    StandsIs(After(After(e1, snap), wait), Planned(snapped, wait), 71280, EVENT_QUEUE_CAPACITY);
  }

  /** Started behind the second report, with three steps queued. */
  lemma SlowRun(e: Engine, tl: Timeline)
    requires Fresh(e, 400.0, ShuffledSteps(), Controls(0.0, 0.0), 4800) && tl.Valid()
    ensures SlowLine().Valid()
    ensures var ops := [SetMode(Mode.Following), Observe(tl, true), Render(71280, tl, false)]
                       + [Observe(SlowLine(), false), Start] + [Render(1200, SlowLine(), false)];
            && e.Valid() && OpsValid(ops)
            && exists core :: Stands(Run(e, ops), core, 72480, 964) && Shuffled(core) && core.scheduler.nextStep == 44
                              && core.scheduler.playing && EndsAt(core.log)
  {
    SlowBeats();
    hide After, Stands, ShuffledSteps, Run, SlowLine, LogSteps, StepSample, FirstStepAtOrAfter, EndsAt;
    var begun := [SetMode(Mode.Following), Observe(tl, true), Render(71280, tl, false)];
    var back, block := Observe(SlowLine(), false), Render(1200, SlowLine(), false);
    IdleRun(e, tl);
    var core :| Stands(Run(e, begun), core, 71280, EVENT_QUEUE_CAPACITY) && Shuffled(core) && core.log == []
        && core.scheduler == SchedulerState(ShuffledSteps(), 0, false, None, None);
    var e1 := Run(e, begun);
    StandsEdit(e1, core, 71280, EVENT_QUEUE_CAPACITY, back);
    var slow := ControlStep(core, back, 0, 71280);
    var e2 := After(e1, back);
    StandsIs(e2, slow, 71280, EVENT_QUEUE_CAPACITY);
    BeginsAt41(slow);
    StandsJoin(e2, slow, 71280, EVENT_QUEUE_CAPACITY);
    var started := slow.(scheduler := slow.scheduler.StartAt(41));
    StandsIs(After(e2, Start), started, 71280, EVENT_QUEUE_CAPACITY);
    ThreeQueued(started);
    assert Planned(started, block) == started;
    StandsRender(After(e2, Start), started, 71280, EVENT_QUEUE_CAPACITY, block, 44);
    RunPair(e, begun, back, Start);
    RunAppend(e, begun + [back, Start], block);
    StandsIs(After(After(e2, Start), block), Queueing(started, 44), 72480, 964);
  }

  lemma EngineCrowds(e: Engine, tl: Timeline)
    requires Fresh(e, 400.0, ShuffledSteps(), Controls(0.0, 0.0), 4800) && tl.Valid()
    ensures SlowLine().Valid() && FastLine().Valid()
    ensures var ops := [SetMode(Mode.Following), Observe(tl, true), Render(71280, tl, false)]
                       + [Observe(SlowLine(), false), Start] + [Render(1200, SlowLine(), false)]
                       + [Observe(FastLine(), false), Render(1, FastLine(), false)];
            && e.Valid() && OpsValid(ops) && Crowded(Run(e, ops).control, 76021, 76800)
  {
    FastBeats();
    SlowBeats();
    hide After, Stands, ShuffledSteps, Run, SlowLine, FastLine, OneDue, Crowded, EndsAt;
    var begun := [SetMode(Mode.Following), Observe(tl, true), Render(71280, tl, false)]
                 + [Observe(SlowLine(), false), Start] + [Render(1200, SlowLine(), false)];
    var report, last := Observe(FastLine(), false), Render(1, FastLine(), false);
    SlowRun(e, tl);
    var core :| Stands(Run(e, begun), core, 72480, 964) && Shuffled(core) && core.scheduler.nextStep == 44
        && core.scheduler.playing && EndsAt(core.log);
    var e1 := Run(e, begun);
    StandsEdit(e1, core, 72480, 964, report);
    var fast := ControlStep(core, report, 0, 72480);
    FastDue(fast);
    StandsIs(After(e1, report), fast, 72480, 964);
    assert Planned(fast, last) == fast;
    RenderOne(After(e1, report), fast, 72480, 964, last, 76800);
    CrowdedCore(After(After(e1, report), last), WithStep(fast, 76800), 72481, 944, 76021, 76800);
    RunPair(e, begun, report, last);
  }

  // ---- Both together ----

  /** A report of a beat phase at 400 BPM. */
  function Reported(sample: real, phase: real): FollowedRuns.Call
  {
    Told(Observation(Finite(sample), Beat(Finite(phase)), Some(Finite(400.0))))
  }

  function CallsOf(first: FollowedRuns.Call, second: FollowedRuns.Call, third: FollowedRuns.Call)
    : (calls: seq<FollowedRuns.Call>)
    requires first.Told? && second.Told? && third.Told?
    ensures CallsValid(calls)
  {
    [first, Frames(71280), second, Other(Start), Frames(1200), third, Frames(1)]
  }

  /** A report in line, one that starts the slowest slew, a start, and one that starts the fastest. */
  function Calls(): seq<FollowedRuns.Call>
  {
    CallsOf(Reported(0.0, 0.31), Reported(71280.0, 0.166), Reported(72480.0, THIRD))
  }

  /** What the follower answers to such calls. */
  ghost predicate Answering(f: Following.State, snapped: Following.State, f2: Following.State, f3: Following.State,
                            first: FollowedRuns.Call, second: FollowedRuns.Call, third: FollowedRuns.Call,
                            sqrt: real -> real)
  {
    && Following.Valid(f) && Following.Valid(snapped) && Following.Valid(f2) && Following.Valid(f3)
    && first.Told? && second.Told? && third.Told? && Answer(f, first, 0, sqrt) == snapped && snapped.discontinuity
    && var f1 := Noticed(snapped);
       && Noticed(f1) == f1 == Answer(f1, Frames(71280), 0, sqrt) && Answer(f1, second, 71280, sqrt) == f2
       && Noticed(f2) == f2 == Answer(f2, Other(Start), 71280, sqrt) && Answer(f2, Frames(1200), 71280, sqrt) == f2
       && Answer(f2, third, 72480, sqrt) == f3 && Noticed(f3) == f3 == Answer(f3, Frames(1), 72480, sqrt)
  }

  /** A first report makes it jump by 0.31 beats. */
  lemma Snaps(f: Following.State, sqrt: real -> real)
    requires Waiting(f, 0.0, 0.0) && f.sampleRate == 48000.0 && f.bpm == 400.0
    ensures Following.Valid(f)
    ensures var f' := FollowerRuns.After(f, Report(0.0, 0.31, 400.0), sqrt);
            var f1 := f'.(discontinuity := false);
            f'.discontinuity && Locked(f1, 0.0, 0.31) && f1.sampleRate == 48000.0 && f1.bpm == 400.0
  {
    hide Following.Valid, FollowerRuns.After, Following.State.EstRate, Timeline.BeatAtSample, AfterJumps.OnEstimate;
    OnLineAt(f, 0.0, 0.0, 0.0);
    assert (0.0 - 0.0) * f.EstRate() == 0.0;
    SnapsTo(f, 0.0, 0.0, 0.0, 0.31, sqrt);
  }

  lemma Answers(f: Following.State, sqrt: real -> real)
    requires Waiting(f, 0.0, 0.0) && f.sampleRate == 48000.0 && f.bpm == 400.0 && sqrt(0.01) == 0.1
    ensures Following.Valid(f) && SlowLine().Valid() && FastLine().Valid()
    ensures var snapped := Answer(f, Reported(0.0, 0.31), 0, sqrt);
            var f2 := Answer(Noticed(snapped), Reported(71280.0, 0.166), 71280, sqrt);
            var f3 := Answer(f2, Reported(72480.0, THIRD), 72480, sqrt);
            && Answering(f, snapped, f2, f3, Reported(0.0, 0.31), Reported(71280.0, 0.166), Reported(72480.0, THIRD),
                         sqrt)
            && f2.Output() == SlowLine() && f3.Output() == FastLine()
  {
    hide Following.Valid, FollowerRuns.After, Following.State.EstRate, SlowLine, FastLine, AfterJumps.OnEstimate;
    Snaps(f, sqrt);
    var f1 := FollowerRuns.After(f, Report(0.0, 0.31, 400.0), sqrt).(discontinuity := false);
    TicksOn(f1, 0.0, 0.31, sqrt);
    SlewsBack(f1, sqrt);
    var f2 := FollowerRuns.After(f1, Report(71280.0, 0.166, 400.0), sqrt);
    SlewsOnward(f2, sqrt);
    assert 0 as real == 0.0 && 71280 as real == 71280.0 && 72480 as real == 72480.0;
  }

  /** The calls the engine gets. */
  lemma OpsAre(e: Engine, f: Following.State, snapped: Following.State, f2: Following.State, f3: Following.State,
               first: FollowedRuns.Call, second: FollowedRuns.Call, third: FollowedRuns.Call, sqrt: real -> real)
    requires e.Valid() && e.renderer.position == 0
    requires Answering(f, snapped, f2, f3, first, second, third, sqrt)
    ensures var tl := Noticed(snapped).Output();
            && CallsValid(CallsOf(first, second, third)) && tl.Valid() && f2.Output().Valid() && f3.Output().Valid()
            && OpsOf(e, f, CallsOf(first, second, third), sqrt)
               == [Observe(tl, true), Render(71280, tl, false), Observe(f2.Output(), false), Start,
                   Render(1200, f2.Output(), false), Observe(f3.Output(), false), Render(1, f3.Output(), false)]
  {
    hide Following.Valid, Answer, Noticed, After, OpsOf;
    var f1 := Noticed(snapped);
    FollowerRuns.OutputValid(f1);
    FollowerRuns.OutputValid(f2);
    FollowerRuns.OutputValid(f3);
    var c4 := [Frames(1200)] + ([third] + [Frames(1)]);
    var c3 := [Other(Start)] + c4;
    var e1 := After(e, Observe(f1.Output(), true));
    PositionAfter(e, Observe(f1.Output(), true));
    OpsTwo(e1, f1, f2, 71280, second, c3, sqrt);
    OpsOn(e, f, first, [Frames(71280)] + ([second] + c3), sqrt);
    var e2 := After(After(e1, Render(71280, f1.Output(), false)), Observe(f2.Output(), false));
    PositionAfter(e2, Start);
    OpsTwo(After(e2, Start), f2, f3, 1200, third, [Frames(1)], sqrt);
    OpsOn(e2, f2, Other(Start), c4, sqrt);
    OpsLast(After(After(After(e2, Start), Render(1200, f2.Output(), false)), Observe(f3.Output(), false)), f3, 1, sqrt);
    assert [first] + ([Frames(71280)] + ([second] + c3)) == CallsOf(first, second, third);
  }

  /** With those answers the engine crowds. */
  lemma RunCrowds(e: Engine, f: Following.State, snapped: Following.State, f2: Following.State, f3: Following.State,
                  first: FollowedRuns.Call, second: FollowedRuns.Call, third: FollowedRuns.Call, sqrt: real -> real)
    requires Fresh(e, 400.0, ShuffledSteps(), Controls(0.0, 0.0), 4800)
    requires Answering(f, snapped, f2, f3, first, second, third, sqrt)
    requires f2.Output() == SlowLine() && f3.Output() == FastLine()
    ensures e.Valid() && After(e, SetMode(Mode.Following)).Valid() && CallsValid(CallsOf(first, second, third))
    ensures var ops := OpsOf(After(e, SetMode(Mode.Following)), f, CallsOf(first, second, third), sqrt);
            && |ops| == 7 && ops[2] == Observe(SlowLine(), false) && ops[5] == Observe(FastLine(), false)
            && OpsValid([SetMode(Mode.Following)] + ops)
            && Crowded(Run(e, [SetMode(Mode.Following)] + ops).control, 76021, 76800)
  {
    hide Fresh, After, Following.Valid, Run, OpsOf, Crowded, Answer, Noticed, SlowLine, FastLine, ShuffledSteps,
         CallsOf;
    FreshStarts(e, 400.0, ShuffledSteps());
    var mode, e1, tl := SetMode(Mode.Following), After(e, SetMode(Mode.Following)), Noticed(snapped).Output();
    OpsAre(e1, f, snapped, f2, f3, first, second, third, sqrt);
    EngineCrowds(e, tl);
    assert [mode] + OpsOf(e1, f, CallsOf(first, second, third), sqrt)
           == [mode, Observe(tl, true), Render(71280, tl, false)] + [Observe(SlowLine(), false), Start]
              + [Render(1200, SlowLine(), false)] + [Observe(FastLine(), false), Render(1, FastLine(), false)];
  }

  /** A new engine, and a new follower (`Reporting.NewWaits`). While the output slews back by 5 %, step 43
      is queued at 76021, step 44 in order behind it. A report that is no jump, with the tempo moved by
      no more than 1 %, turns the slew around: step 44 comes to 76800, where half a step is 896 samples,
      and it is queued there. The tempo is beyond what the lookahead suits. */
  lemma SlewCrowds(e: Engine, f: Following.State, sqrt: real -> real)
    requires Fresh(e, 400.0, ShuffledSteps(), Controls(0.0, 0.0), 4800) && sqrt(0.01) == 0.1
    requires Waiting(f, 0.0, 0.0) && f.sampleRate == 48000.0 && f.bpm == 400.0
    ensures e.Valid() && After(e, SetMode(Mode.Following)).Valid() && Following.Valid(f) && CallsValid(Calls())
    ensures var ops := OpsOf(After(e, SetMode(Mode.Following)), f, Calls(), sqrt);
            && |ops| == 7 && ops[2].Observe? && ops[5].Observe? && !ops[2].snapped && !ops[5].snapped
            && ops[2].next.rate <= ops[5].next.rate <= 1.01 * ops[2].next.rate
            && !Pacing.SlewsReach(ops[2].next.rate, Pacing.Reach(e.control), 1.0 / 6.0)
            && OpsValid([SetMode(Mode.Following)] + ops)
            && Crowded(Run(e, [SetMode(Mode.Following)] + ops).control, 76021, 76800)
  {
    FreshReaches(e);
    Rates();
    hide Fresh, After, Following.Valid, Run, OpsOf, Crowded, Answering, Answer, Noticed, SlowLine, FastLine,
         ShuffledSteps, Waiting, CallsOf, Reported, Pacing.SlewsReach, Pacing.Reach;
    Answers(f, sqrt);
    var first, second, third := Reported(0.0, 0.31), Reported(71280.0, 0.166), Reported(72480.0, THIRD);
    var snapped := Answer(f, first, 0, sqrt);
    var f2 := Answer(Noticed(snapped), second, 71280, sqrt);
    RunCrowds(e, f, snapped, f2, Answer(f2, third, 72480, sqrt), first, second, third, sqrt);
  }

  lemma Rates()
    ensures SlowLine().rate <= FastLine().rate <= 1.01 * SlowLine().rate
  {
  }

  lemma FreshReaches(e: Engine)
    requires Fresh(e, 400.0, ShuffledSteps(), Controls(0.0, 0.0), 4800)
    ensures !Pacing.SlewsReach(SlowLine().rate, Pacing.Reach(e.control), 1.0 / 6.0)
  {
    hide ShuffledSteps;
    assert Pacing.Reach(e.control) == 4800.5;
  }
}
