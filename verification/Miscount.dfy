/** A run in which a re-sync miscounts the steps left to play: a flam half heard, and a jump behind it. */
module Miscounting {
  import opened Numbers
  import opened Clock
  import opened Pattern
  import opened Scheduling
  import opened QueuedLogs
  import opened Rendering
  import opened Controlling
  import opened Engines
  import opened Realigning
  import opened Restarting
  import opened GridHits
  import opened GridRuns
  import opened Tracing
  import opened Counterexamples
  import opened Observing
  import opened TappedRuns
  import TapTempos

  /** Every voice on every step, and a flam of 8 ms on step 3. */
  function FlamOnThree(): Pattern
  {
    var hits := seq(STEP_COUNT, i => Step(true, false, i == 3));
    Pattern(seq(VOICE_COUNT, _ => Track(hits, false)), 0.0, 0.0, 0.0)
  }

  lemma FlamSteps(k: nat)
    requires k < 6
    ensures var p := FlamOnThree();
            p.Valid() && p.StepBeat(k) == k as real * 0.25 && (p.HasFlam(k) <==> k == 3)
  {
    var p := FlamOnThree();
    if k == 3 { assert p.At(0, 3).flam; }
  }

  lemma FlamIs384(c: AdjustedClock)
    requires c.Valid() && c.SampleRate() == 48000.0
    ensures FlamSamples(FlamOnThree(), c) == 384
  {
    assert FlamOnThree().FlamSeconds() == 0.008;
    assert FlamOnThree().FlamSeconds() * 48000.0 == 384.0;
  }

  /** A step at 120 BPM on a line through `anchor`. */
  lemma FlamStep(core: ControlState, anchor: nat, beat: nat, k: nat)
    requires core.Valid() && core.mode == FreeRunning
    requires core.internal == Line(48000.0, 120.0, anchor as real, beat as real)
    requires core.controls == Controls(0.0, 0.0) && core.scheduler.pattern == FlamOnThree() && k < 6
    requires anchor + 6000 * k >= 24000 * beat
    ensures StepPosition(core.Pattern(), core.Adjusted(), k) == anchor + 6000 * k - 24000 * beat
    ensures core.Pattern().Valid()
    ensures StepSpan(core.Pattern(), core.Adjusted(), k)
            == (if k == 3 then SaturatingSub(anchor + 18000 - 24000 * beat, 384) else anchor + 6000 * k - 24000 * beat,
                anchor + 6000 * k - 24000 * beat)
  {
    hide FlamOnThree, StepPosition, FlamSamples, Pattern.HasFlam, Pattern.Valid, Pattern.StepBeat;
    FlamSteps(k);
    FlamIs384(core.Adjusted());
    SpanOf120(core.internal);
    StepOn(core.Pattern(), core.internal, 0.0, k, anchor + 6000 * k - 24000 * beat);
  }

  /** Three steps heard, and of the fourth the grace note. */
  function HalfHeard(): seq<Queued>
  {
    [Queued(0, 0, 0), Queued(1, 6000, 6000), Queued(2, 12000, 12000), Queued(3, 17616, 18000)]
  }

  /** Started on the flammed pattern, to stop after 16 steps. */
  ghost predicate Counting(core: ControlState, next: nat)
  {
    && core.Valid() && core.mode == FreeRunning && core.internal == Line(48000.0, 120.0, 0.0, 0.0)
    && core.controls == Controls(0.0, 0.0) && core.sampleRate == 48000.0 && core.lookahead == 24000
    && core.scheduler == SchedulerState(FlamOnThree(), next, true, Some(16), Some(16)) && core.pendingFlush == None
  }

  lemma FourQueued(core: ControlState)
    requires Counting(core, 0) && core.log == []
    ensures Queueing(core, 4).log == HalfHeard()
    ensures forall k: nat :: k < 4 ==> StepSample(core.Pattern(), core.Adjusted(), k) < 24000
    ensures StepSample(core.Pattern(), core.Adjusted(), 4) >= 24000
  {
    hide FlamOnThree, StepPosition, LogSteps, StepSpan, Pattern.Valid;
    forall k: nat | k <= 4
      ensures StepSample(core.Pattern(), core.Adjusted(), k) == 6000 * k
      ensures core.Pattern().Valid()
      ensures StepSpan(core.Pattern(), core.Adjusted(), k) == (if k == 3 then 17616 else 6000 * k, 6000 * k)
    {
      FlamStep(core, 0, 0, k);
    }
    LogFour(core.Pattern(), core.Adjusted());
  }

  lemma LogFour(p: Pattern, clock: AdjustedClock)
    requires p.Valid() && clock.Valid()
    ensures var span := (k: nat) => StepSpan(p, clock, k);
            LogSteps([], p, clock, 0, 4) == [Queued(0, span(0).0, span(0).1), Queued(1, span(1).0, span(1).1),
                                             Queued(2, span(2).0, span(2).1), Queued(3, span(3).0, span(3).1)]
  {
    hide StepSpan;
    LogAt([], p, clock, 0, 4);
    LogAt([], p, clock, 0, 3);
    LogAt([], p, clock, 0, 2);
    LogAt([], p, clock, 0, 1);
  }

  lemma CutFour()
    ensures CutFrom(HalfHeard(), 17800, None) == Cut(18001, Some(Queued(3, 17616, 18000)), None)
    ensures FlushFrom(HalfHeard(), 18001) == HalfHeard()
    ensures FlushFrom(HalfHeard(), 17800) == HalfHeard()[..3]
  {
    var log := HalfHeard();
    assert log[1..] == [Queued(1, 6000, 6000), Queued(2, 12000, 12000), Queued(3, 17616, 18000)];
    assert log[1..][1..] == [Queued(2, 12000, 12000), Queued(3, 17616, 18000)];
    assert log[1..][1..][1..] == [Queued(3, 17616, 18000)];
    assert log[1..][1..][1..][1..] == [];
    FlushNewest(log, 17800);
    FlushNewest(log[..3], 17800);
  }

  /** A tap at 17800 at 240 BPM puts beat 1 there, and the cursor on step 5. */
  function TappedAhead(core: ControlState): ControlState
  {
    core.(internal := Line(48000.0, 240.0, 17800.0, 1.0),
          scheduler := core.scheduler.(nextStep := 5, stopAt := Some(17)))
  }

  lemma TapAhead(core: ControlState)
    requires Counting(core, 4) && core.log == HalfHeard()
    ensures var moved := core.(internal := Retuned(core.internal, 17800.0, Some(240.0)));
            moved.Valid() && Jumped(moved, Internal(core.internal), 17800) == TappedAhead(core)
  {
    hide FlamOnThree, StepPosition, FirstStepAtOrAfter, CutFrom, FlushFrom, HalfHeard, Pattern.Valid, HalfStepAfter,
         Retuned, Line.BeatAtSample, Line.SamplesPerBeat;
    RetunedTo(core.internal, 17800.0, 240.0);
    NearestBeat(core.internal);
    var moved := core.(internal := Line(48000.0, 240.0, 17800.0, 1.0));
    assert Retuned(core.internal, 17800.0, Some(240.0)) == moved.internal;
    CutFour();
    HalfBehind(moved);
    assert RealignFrom(moved, 17800, Internal(core.internal)) == 19500;
    EarlySteps(moved);
    AudioRateSuffices(moved.internal, moved.controls);
    FindsFifth(moved.Pattern(), moved.Adjusted(), 19500);
  }

  lemma NearestBeat(l: Line)
    requires l == Line(48000.0, 120.0, 0.0, 0.0)
    ensures Round(l.BeatAtSample(17800.0)) == 1
  {
    SpanOf120(l);
    hide Line.SamplesPerBeat;
    assert l.BeatAtSample(17800.0) == 17800.0 / 24000.0;
  }

  lemma HalfBehind(core: ControlState)
    requires core.Valid() && core.mode == FreeRunning && core.internal == Line(48000.0, 240.0, 17800.0, 1.0)
    requires core.controls == Controls(0.0, 0.0) && core.sampleRate == 48000.0
    ensures HalfStepAfter(core, 18000.0) == 19500
  {
    SpanOf240(core.internal);
    hide FlamOnThree;
  }

  lemma SpanOf240(l: Line)
    requires l.Valid() && l.sampleRate == 48000.0 && l.bpm == 240.0
    ensures l.SamplesPerBeat() == 12000.0
  {
  }

  lemma EarlySteps(core: ControlState)
    requires core.Valid() && core.mode == FreeRunning && core.internal == Line(48000.0, 240.0, 17800.0, 1.0)
    requires core.controls == Controls(0.0, 0.0) && core.sampleRate == 48000.0
    requires core.scheduler.pattern == FlamOnThree()
    ensures forall k: nat :: k < 5 ==> StepPosition(core.Pattern(), core.Adjusted(), k) < 19500
    ensures StepPosition(core.Pattern(), core.Adjusted(), 5) >= 19500
  {
    hide FlamOnThree, Pattern.Valid;
    SpanOf240(core.internal);
    forall k: nat | k < 6
      ensures core.Adjusted().SampleAtBeat(core.Pattern().StepBeat(k)) == 3000.0 * k as real + 5800.0
    {
      FlamSteps(k);
    }
  }

  /** What a re-sync on the internal clock leaves of the log and the count. */
  lemma ResyncLeaves(e: Engine, core: ControlState, position: nat, room: int)
    requires Stands(e, core, position, room) && core.Valid() && core.mode == FreeRunning && core.scheduler.playing
    requires core.internal.sampleRate == core.sampleRate && AudioRate(core.Adjusted())
    ensures After(e, Resync).control.log == FlushFrom(core.log, position)
    ensures After(e, Resync).control.scheduler
            == core.scheduler.Seek(0, if |FlushFrom(core.log, position)| < |core.log|
                                      then core.log[|FlushFrom(core.log, position)|].step else core.scheduler.nextStep)
  {
    hide StepSample, RestartAnchor, FlushFrom, AudioRate, RestartInternalAt, FirstStepAtOrAfter;
    var c, published := e.control, e.renderer.published;
    CommitsNow(c, published, position);
    NotedKeeps(c, published);
    var noted := CommitPoint(c, published, position).0;
    RestartKeeps(noted, position);
    FlushSplits(noted.log, position);
    var dropped := DropQueuedFrom(noted, position).0;
    RestartKeepsTempo(dropped, position);
    RestartPutsStepZero(dropped, position);
    var restarted := RestartInternalAt(dropped, position);
    assert AudioRate(restarted.Adjusted()) by { SameTempo(core, restarted); }
    RestartFindsZero(restarted.Pattern(), restarted.Adjusted(), position);
  }

  /** Started to play 16 steps, at 17800: steps 0, 1 and 2 heard, and of step 3 the grace note. */
  lemma CountingRun(e: Engine, tl: Timeline)
    requires Fresh(e, 120.0, FlamOnThree(), Controls(0.0, 0.0), 24000) && tl.Valid()
    ensures var ops := [SetStopAfter(Some(16)), Start, Render(17800, tl, false)];
            && e.Valid() && OpsValid(ops)
            && exists core :: Stands(Run(e, ops), core, 17800, 944) && Counting(core, 4) && core.log == HalfHeard()
  {
    hide After, Stands, FlamOnThree, Run, RestartInternalAt, LogSteps, StepSample, HalfHeard, StepPosition;
    var core, a, b := Core(e.control), SetStopAfter(Some(16)), Render(17800, tl, false);
    FreshIs(e, 120.0, FlamOnThree(), Controls(0.0, 0.0), 24000);
    NewStands(e);
    RunThree(e, a, Start, b);
    StandsEdit(e, core, 0, EVENT_QUEUE_CAPACITY, a);
    var counted := ControlStep(core, a, 0, 0);
    StandsStart(After(e, a), counted, 0, EVENT_QUEUE_CAPACITY);
    StartKeepsLine(counted);
    var started := StartedCore(counted);
    assert Counting(started, 0);
    FourQueued(started);
    var e1 := After(After(e, a), Start);
    StandsIs(e1, started, 0, EVENT_QUEUE_CAPACITY);
    StandsRender(e1, started, 0, EVENT_QUEUE_CAPACITY, b, 4);
    assert Counting(Queueing(started, 4), 4);
  }

  /** Taps at 5800 and 17800, then a re-sync. */
  function Moves(tl: Timeline): seq<Move>
  {
    [Made(SetStopAfter(Some(16))), Made(Start), Made(Render(17800, tl, false)), Press(Finite(5800.0), tl, false),
     Press(Finite(17800.0), tl, false), Made(Resync)]
  }

  /** Of the two taps the second makes a call, at 240 BPM. */
  lemma MovesCall(tl: Timeline)
    requires tl.Valid()
    ensures TapTempos.Valid(TapTempos.TapState(48000.0, [], 0)) && MovesValid(Moves(tl))
    ensures Ops(TapTempos.TapState(48000.0, [], 0), Moves(tl))
            == [SetStopAfter(Some(16)), Start, Render(17800, tl, false)]
               + [Tap(17800.0, Some(240.0), tl, false), Resync]
  {
    hide TapTempos.Valid, Ops;
    var silent := TapTempos.TapState(48000.0, [], 0);
    assert 60.0 * 48000.0 / (17800.0 - 5800.0) == 240.0;
    OpsFirst(48000.0, 5800.0, tl, []);
    OpsSecond(48000.0, 5800.0, 17800.0, tl, [Made(Resync)] + []);
    var s2 := TapTempos.TapState(48000.0, [5800.0, 17800.0], 0);
    OpsMade(s2, Resync, []);
    OpsDone(s2);
    var pressed := [Press(Finite(17800.0), tl, false)] + ([Made(Resync)] + []);
    OpsFirst(48000.0, 5800.0, tl, pressed);
    var both := [Press(Finite(5800.0), tl, false)] + pressed;
    OpsMade(silent, Render(17800, tl, false), both);
    OpsMade(silent, Start, [Made(Render(17800, tl, false))] + both);
    OpsMade(silent, SetStopAfter(Some(16)), [Made(Start)] + ([Made(Render(17800, tl, false))] + both));
    assert Moves(tl)
           == [Made(SetStopAfter(Some(16)))] + ([Made(Start)] + ([Made(Render(17800, tl, false))] + both));
  }

  /** A run of 16 steps: at 17800 steps 0, 1 and 2 are heard and step 3's grace note is. The second of
      two taps moves the cursor on to step 5. A re-sync then takes step 3 back and leaves 14 steps to
      play: 17 in all. */
  lemma ResyncMiscounts(e: Engine, tl: Timeline)
    requires Fresh(e, 120.0, FlamOnThree(), Controls(0.0, 0.0), 24000) && tl.Valid()
    ensures TapTempos.Valid(TapTempos.TapState(48000.0, [], 0)) && MovesValid(Moves(tl))
    ensures var ops := Ops(TapTempos.TapState(48000.0, [], 0), Moves(tl));
            && e.Valid() && Run(e, ops).control.log == HalfHeard()[..3]
            && Run(e, ops).control.scheduler == SchedulerState(FlamOnThree(), 0, true, Some(16), Some(14))
  {
    hide After, Stands, FlamOnThree, Run, HalfHeard, Jumped, Retuned, FlushFrom, TapTempos.Valid, Ops, Moves;
    MovesCall(tl);
    var tap := Tap(17800.0, Some(240.0), tl, false);
    var begun := [SetStopAfter(Some(16)), Start, Render(17800, tl, false)];
    FreshIs(e, 120.0, FlamOnThree(), Controls(0.0, 0.0), 24000);
    CountingRun(e, tl);
    var core :| Stands(Run(e, begun), core, 17800, 944) && Counting(core, 4) && core.log == HalfHeard();
    var e1 := Run(e, begun);
    TapAhead(core);
    StandsTap(e1, core, 17800, 944, tap);
    var tapped := TappedAhead(core);
    StandsIs(After(e1, tap), tapped, 17800, 943);
    AudioRateSuffices(tapped.internal, tapped.controls);
    CutFour();
    ResyncLeaves(After(e1, tap), tapped, 17800, 943);
    FourLong();
    RunPair(e, begun, tap, Resync);
  }

  lemma FourLong()
    ensures |HalfHeard()| == 4 && HalfHeard()[3].step == 3
  {
  }
}
