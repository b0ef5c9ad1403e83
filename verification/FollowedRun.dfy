/** An engine and the follower it follows, run together: what the engine is told is what the follower
    answers, and what a run is asked is asked of the follower. */
module FollowedRuns {
  import opened Numbers
  import opened Clock
  import opened Pattern
  import opened Scheduling
  import opened Rendering
  import opened Observing
  import opened Controlling
  import opened Engines
  import opened QueuedLogs
  import opened Pacing
  import opened Realigning
  import opened Ordering
  import opened GridHits
  import opened GridRuns
  import PaceChanges
  import Following
  import FollowerRuns
  import FollowerClocks
  import AfterJumps

  /** A report or a tap comes in, a block is rendered, or a call is made that leaves the follower's
      timeline alone. */
  datatype Call = Told(obs: Observation) | Frames(n: nat) | Other(op: Op)

  predicate CallValid(call: Call)
  {
    call.Other? ==> OpValid(call.op) && !call.op.Tap? && !call.op.Observe? && !call.op.Render? && !call.op.SetMode?
  }

  predicate CallsValid(calls: seq<Call>) { forall i :: 0 <= i < |calls| ==> CallValid(calls[i]) }

  /** What the call does to the follower. */
  function Answer(f: Following.State, call: Call, now: nat, sqrt: real -> real): (f': Following.State)
    requires Following.Valid(f)
    ensures Following.Valid(f')
  {
    match call
    case Told(obs) =>
      FollowerRuns.AfterValid(f, FollowerRuns.Observe(obs, Finite(now as real)), sqrt);
      FollowerRuns.After(f, FollowerRuns.Observe(obs, Finite(now as real)), sqrt)
    case Frames(_) =>
      FollowerRuns.AfterValid(f, FollowerRuns.Advance(Finite(now as real)), sqrt);
      FollowerRuns.After(f, FollowerRuns.Advance(Finite(now as real)), sqrt)
    case Other(op) => f.(resyncRequested := f.resyncRequested || op.Resync?)
  }

  /** What the engine is told: the follower's new timeline, and whether it jumped. */
  function OpOf(call: Call, f': Following.State): (op: Op)
    requires CallValid(call) && Following.Valid(f')
    ensures OpValid(op)
  {
    FollowerRuns.OutputValid(f');
    match call
    case Told(_) => Observe(f'.Output(), f'.discontinuity)
    case Frames(n) => Render(n, f'.Output(), f'.discontinuity)
    case Other(op) => op
  }

  /** The follower once its jump has been taken note of. */
  function Noticed(f: Following.State): (f': Following.State)
    requires Following.Valid(f)
    ensures Following.Valid(f') && !f'.discontinuity && f'.Output() == f.Output() && f'.sampleRate == f.sampleRate
  {
    FollowerRuns.AfterValid(f, FollowerRuns.TakeDiscontinuity, x => x);
    f.(discontinuity := false)
  }

  /** The engine's calls in a run of both. */
  function OpsOf(e: Engine, f: Following.State, calls: seq<Call>, sqrt: real -> real): (ops: seq<Op>)
    requires e.Valid() && Following.Valid(f) && CallsValid(calls)
    ensures OpsValid(ops)
    decreases |calls|
  {
    if calls == [] then []
    else
      var f' := Answer(f, calls[0], e.renderer.position, sqrt);
      var op := OpOf(calls[0], f');
      AfterValid(e, op);
      [op] + OpsOf(After(e, op), Noticed(f'), calls[1..], sqrt)
  }

  /** The engine follows this follower, at an audio sample rate, and has taken note of its jumps. */
  ghost predicate Follows(e: Engine, f: Following.State)
  {
    && e.Valid() && Following.Valid(f) && !f.discontinuity && f.sampleRate >= 1000.0
    && e.control.mode == Mode.Following && e.control.follower == f.Output() && OneRate(e.control)
  }

  /** The next step is paced, its tempo within 1 %, and still ahead. */
  ghost predicate PacedBy(c: ControlState, f': Following.State, s: Score, rate: real, now: nat)
    requires c.Valid()
  {
    && PaceChanges.Paced(c, s.mark, LastSample(s.plan), rate, now) && BeatsAhead(c, now) >= 0.0
    && rate <= 1.01 * f'.rate && f'.rate <= 1.01 * rate
  }

  /** The follower's line is the one it was, as it is behind a jump until the next report; or the
      step it re-plans is paced; or the call fits what is known before it. */
  ghost predicate KeepsStep(c: ControlState, call: Call, f: Following.State, f': Following.State, s: Score, now: nat)
    requires c.Valid() && CallValid(call) && Following.Valid(f) && Following.Valid(f')
  {
    || (!call.Other? && AfterJumps.SameTimeline(f, f'))
    || (!call.Other? && exists rate: real :: PacedBy(c, f', s, rate, now))
    || NextFits(c, OpOf(call, f'), LastSample(s.plan), now)
  }

  /** What a call of the two together is asked to meet: nothing of its clocks, and of the next step
      only what the follower does not see to itself. */
  ghost predicate Suits(e: Engine, f: Following.State, call: Call, sqrt: real -> real, s: Score)
    requires Follows(e, f) && CallValid(call)
  {
    var c, now := e.control, e.renderer.position;
    var f' := Answer(f, call, now, sqrt);
    var op := OpOf(call, f');
    var moved := Moved(c, op, e.renderer.published, now);
    && c.queue.Vacant() > 0 && moved.scheduler.stopAt != Some(U64_MAX)
    && (moved.scheduler.playing ==> FlamFits(moved))
    && (Realigns(c, op) ==>
          FindsStep(c.log, moved.Pattern(), moved.Adjusted(), SaturatingSub(now, c.Grace()), now))
    && (Joins(c, op) ==> FindsStep(c.log, moved.Pattern(), moved.Adjusted(), now, now))
    && (Realigns(c, op) || Joins(c, op) ==>
          GraceClears(moved, Replanned(s.plan, CutFrom(c.log, now, None).flush)))
    && (!MovesCursor(c, op) && moved.scheduler.playing && Changes(c, moved) ==> KeepsStep(c, call, f, f', s, now))
    && (op.Render? ==> op.frames >= 1 && WithinMemory(moved, ScheduleAndLog(moved, now), now))
  }

  ghost predicate AllSuit(e: Engine, f: Following.State, calls: seq<Call>, sqrt: real -> real, s: Score)
    requires Follows(e, f) && CallsValid(calls)
    decreases |calls|
  {
    calls == [] ||
    (StillFollows(e, f, calls[0], sqrt);
     var f' := Answer(f, calls[0], e.renderer.position, sqrt);
     var op := OpOf(calls[0], f');
     && Suits(e, f, calls[0], sqrt, s)
     && AllSuit(After(e, op), Noticed(f'), calls[1..], sqrt, ScoreAfter(e, op, s)))
  }

  // ---- One call ----

  lemma AnswerRate(f: Following.State, call: Call, now: nat, sqrt: real -> real)
    requires Following.Valid(f)
    ensures Answer(f, call, now, sqrt).sampleRate == f.sampleRate
    ensures call.Other? ==> Answer(f, call, now, sqrt).Output() == f.Output()
    ensures call.Other? ==> Answer(f, call, now, sqrt).discontinuity == f.discontinuity
  {
    hide FollowerRuns.After;
    FollowerRuns.RateKept(f, FollowerRuns.Advance(Finite(now as real)), sqrt);
    if call.Told? { FollowerRuns.RateKept(f, FollowerRuns.Observe(call.obs, Finite(now as real)), sqrt); }
  }

  /** A call leaves the control half following, on the timeline it is given. */
  lemma MovedFollows(c: ControlState, call: Call, f': Following.State, position: nat, now: nat)
    requires c.Valid() && c.mode == Mode.Following && OneRate(c) && CallValid(call) && Following.Valid(f')
    requires call.Other? ==> c.follower == f'.Output()
    requires f'.sampleRate == c.sampleRate
    ensures var c' := Moved(c, OpOf(call, f'), position, now);
            c'.mode == Mode.Following && c'.follower == f'.Output() && OneRate(c')
  {
    hide Following.Valid, FirstStepAtOrAfter, CutFrom, FlushFrom, RealignFrom, HalfStepAfter;
  }

  /** Nor does a tick's scheduling change the clock. */
  lemma TickFollows(c: ControlState, op: Op, position: nat, now: nat)
    requires c.Valid() && OpValid(op)
    ensures var c', moved := ControlStep(c, op, position, now), Moved(c, op, position, now);
            && c'.mode == moved.mode && c'.follower == moved.follower && c'.internal == moved.internal
            && c'.sampleRate == moved.sampleRate
  {
    hide Observed, NoteRenderPosition, FirstStepAtOrAfter, CutFrom, FlushFrom, RealignFrom, HalfStepAfter, Started,
         Resynced, WithMode, Tapped;
  }

  lemma StillFollows(e: Engine, f: Following.State, call: Call, sqrt: real -> real)
    requires Follows(e, f) && CallValid(call)
    ensures var f' := Answer(f, call, e.renderer.position, sqrt); Follows(After(e, OpOf(call, f')), Noticed(f'))
  {
    hide Following.Valid, Answer, ControlStep, Moved, After;
    var c, position, now := e.control, e.renderer.published, e.renderer.position;
    var f' := Answer(f, call, now, sqrt);
    var op := OpOf(call, f');
    AnswerRate(f, call, now, sqrt);
    AfterValid(e, op);
    MovedFollows(c, call, f', position, now);
    TickFollows(c, op, position, now);
    AfterClock(e, op);
    assert OneRate(After(e, op).control);
    assert After(e, op).control.follower == Noticed(f').Output();
  }

  /** Playing a block leaves the clock alone. */
  lemma AfterClock(e: Engine, op: Op)
    requires e.Valid() && OpValid(op)
    ensures var c, c' := ControlStep(e.control, op, e.renderer.published, e.renderer.position), After(e, op).control;
            c'.mode == c.mode && c'.follower == c.follower && c'.internal == c.internal && c'.sampleRate == c.sampleRate
  {
    hide ControlStep, Processed;
  }

  lemma SuitsFits(e: Engine, f: Following.State, call: Call, sqrt: real -> real, s: Score)
    requires Follows(e, f) && CallValid(call) && Suits(e, f, call, sqrt, s)
    requires Aligned(e.control, s, e.renderer.position)
    ensures Fits(e, OpOf(call, Answer(f, call, e.renderer.position, sqrt)), s)
  {
    hide Following.Valid, Answer, Moved, ScheduleAndLog, FindsStep, GraceClears, FlamFits, AudioRate, NextFits, Aligned,
         WithinMemory, Changes, KeepsStep;
    var c, position, now := e.control, e.renderer.published, e.renderer.position;
    var f' := Answer(f, call, now, sqrt);
    AnswerRate(f, call, now, sqrt);
    MovedFollows(c, call, f', position, now);
    MovedRate(f', Moved(c, OpOf(call, f'), position, now));
    if !MovesCursor(c, OpOf(call, f')) {
      MovedPlaying(c, OpOf(call, f'), position, now);
      if c.scheduler.playing && KeepsStep(c, call, f, f', s, now) { KeptFits(c, call, f, sqrt, s, now); }
    }
  }

  lemma MovedRate(f: Following.State, moved: ControlState)
    requires Following.Valid(f) && f.sampleRate >= 1000.0 && moved.Valid()
    requires moved.mode == Mode.Following && moved.follower == f.Output()
    ensures AudioRate(moved.Adjusted())
  {
    hide Following.Valid, AudioRate, Following.State.Output;
    FollowerRuns.SteadyAtAudioRate(f, moved.controls);
  }

  /** What the follower sees to itself leaves the next step in order, so the call fits. */
  lemma KeptFits(c: ControlState, call: Call, f: Following.State, sqrt: real -> real, s: Score, now: nat)
    requires Aligned(c, s, now) && c.Valid() && c.mode == Mode.Following && c.scheduler.playing
    requires Following.Valid(f) && c.follower == f.Output() && !f.discontinuity && CallValid(call)
    requires !MovesCursor(c, OpOf(call, Answer(f, call, now, sqrt)))
    requires KeepsStep(c, call, f, Answer(f, call, now, sqrt), s, now)
    ensures NextFits(c, OpOf(call, Answer(f, call, now, sqrt)), LastSample(s.plan), now)
  {
    hide Aligned, NextFits, InOrder, PaceChanges.Paced, AfterJumps.SameTimeline, Answer, Following.Valid;
    AlignedValid(c, s, now);
    AnswerRate(f, call, now, sqrt);
    var f', last := Answer(f, call, now, sqrt), LastSample(s.plan);
    var c' := c.(follower := f'.Output());
    if call.Other? {
    } else if AfterJumps.SameTimeline(f, f') {
      PaceChanges.SameLineKeepsOrder(c, f, f', last);
      ToldFits(c, call, f', last, now);
    } else if rate: real :| PacedBy(c, f', s, rate, now) {
      PacedFits(c, call, f, sqrt, s, rate, now);
      ToldFits(c, call, f', last, now);
    }
  }

  /** The follower's answer leaves the next step in order if and only if the call fits. */
  lemma ToldFits(c: ControlState, call: Call, f': Following.State, last: Option<nat>, now: nat)
    requires c.Valid() && c.mode == Mode.Following && c.scheduler.playing && OneRate(c)
    requires Following.Valid(f') && !call.Other? && f'.sampleRate == c.sampleRate
    requires !MovesCursor(c, OpOf(call, f'))
    ensures var c' := c.(follower := f'.Output());
            c'.Valid() && (InOrder(c', last) <==> NextFits(c, OpOf(call, f'), last, now))
  {
    hide InOrder, DistanceAt, NextAt, Following.Valid;
    FollowerRuns.OutputValid(f');
    OrderKept(c, Observe(f'.Output(), f'.discontinuity), 0, now, last);
    var told, op := Observe(f'.Output(), f'.discontinuity), OpOf(call, f');
    SameAnswer(c, told, op, now);
  }

  lemma SameAnswer(c: ControlState, op: Op, op': Op, now: nat)
    requires c.Valid() && OpValid(op) && OpValid(op') && op.Observe?
    requires op' == op || (op'.Render? && op'.advanced == op.next)
    ensures NextAt(c, op', now) == NextAt(c, op, now) && DistanceAt(c, op') == DistanceAt(c, op)
  {
    hide Timeline.SampleAtBeat, ActiveClock.SampleAtBeat, Pattern.StepBeat, Pattern.HasFlam, HalfStep, Round, AtTempo,
         ControlState.Valid, Timeline.Valid, SpanAt, EarlyBy;
  }

  lemma PacedFits(c: ControlState, call: Call, f: Following.State, sqrt: real -> real, s: Score, rate: real, now: nat)
    requires c.Valid() && c.mode == Mode.Following && Following.Valid(f) && c.follower == f.Output()
    requires !call.Other? && !Answer(f, call, now, sqrt).discontinuity
    requires PacedBy(c, Answer(f, call, now, sqrt), s, rate, now)
    ensures var c' := c.(follower := Answer(f, call, now, sqrt).Output());
            c'.Valid() && InOrder(c', LastSample(s.plan))
  {
    hide Following.Valid, FollowerRuns.After, PaceChanges.Paced, InOrder, BeatsAhead;
    var op := if call.Told? then FollowerRuns.Observe(call.obs, Finite(now as real))
              else FollowerRuns.Advance(Finite(now as real));
    PaceChanges.FollowerKeepsPace(c, s.mark, LastSample(s.plan), f, op, sqrt, rate, now);
  }

  /** A switch to the follower leaves the engine following a new one. */
  lemma SwitchFollows(e: Engine, p: Following.Precision)
    requires e.Valid() && OneRate(e.control) && e.control.mode == FreeRunning && e.control.sampleRate >= 1000.0
    ensures var c, now := e.control, e.renderer.position as real;
            Follows(After(e, SetMode(Mode.Following)),
                    FollowerClocks.Renewed(c.sampleRate, c.internal.bpm, p, now, c.Active().BeatAtSample(now)))
  {
    hide ActiveClock.BeatAtSample, Following.Valid, Following.State.Output, FollowerRuns.After, Following.New;
    var c, now := e.control, e.renderer.position as real;
    AfterValid(e, SetMode(Mode.Following));
    FollowerClocks.RenewedRunsOn(c.sampleRate, c.internal.bpm, p, now, c.Active().BeatAtSample(now));
    FollowerClocks.RenewedValid(c.sampleRate, c.internal.bpm, p, now, c.Active().BeatAtSample(now));
  }

  // ---- Calls one at a time ----

  /** A run of both, one call on. */
  lemma OpsOn(e: Engine, f: Following.State, call: Call, rest: seq<Call>, sqrt: real -> real)
    requires e.Valid() && Following.Valid(f) && CallValid(call) && CallsValid(rest)
    ensures var f' := Answer(f, call, e.renderer.position, sqrt);
            var op := OpOf(call, f');
            && CallsValid([call] + rest) && After(e, op).Valid()
            && OpsOf(e, f, [call] + rest, sqrt) == [op] + OpsOf(After(e, op), Noticed(f'), rest, sqrt)
  {
    hide After, Following.Valid, Answer, OpOf, Noticed;
    AfterValid(e, OpOf(call, Answer(f, call, e.renderer.position, sqrt)));
    assert ([call] + rest)[1..] == rest;
  }

  /** Where the renderer stands after a call. */
  lemma PositionAfter(e: Engine, op: Op)
    requires e.Valid() && OpValid(op)
    ensures After(e, op).Valid()
    ensures After(e, op).renderer.position == e.renderer.position + if op.Render? then op.frames else 0
  {
    hide ControlStep, Processed;
    AfterValid(e, op);
    if op.Render? { AfterMoves(e, op); }
  }

  /** What the engine is told over a block and a report behind it. */
  lemma OpsTwo(e: Engine, f: Following.State, f': Following.State, frames: nat, report: Call,
               rest: seq<Call>, sqrt: real -> real)
    requires e.Valid() && Following.Valid(f) && !f.discontinuity && CallsValid(rest) && report.Told?
    requires Answer(f, Frames(frames), e.renderer.position, sqrt) == f == Noticed(f)
    requires Answer(f, report, e.renderer.position + frames, sqrt) == f'
    ensures Following.Valid(f') && f.Output().Valid() && f'.Output().Valid()
    ensures var block, told := Render(frames, f.Output(), false), Observe(f'.Output(), f'.discontinuity);
            && After(e, block).Valid() && After(After(e, block), told).Valid()
            && After(After(e, block), told).renderer.position == e.renderer.position + frames
            && CallsValid([report] + rest) && CallsValid([Frames(frames)] + ([report] + rest))
            && OpsOf(e, f, [Frames(frames)] + ([report] + rest), sqrt)
               == [block] + ([told] + OpsOf(After(After(e, block), told), Noticed(f'), rest, sqrt))
  {
    hide Following.Valid, Answer, Noticed, After, OpsOf, Run;
    FollowerRuns.OutputValid(f);
    FollowerRuns.OutputValid(f');
    var block := Render(frames, f.Output(), false);
    PositionAfter(e, block);
    OpsOn(After(e, block), f, report, rest, sqrt);
    OpsOn(e, f, Frames(frames), [report] + rest, sqrt);
    PositionAfter(After(e, block), Observe(f'.Output(), f'.discontinuity));
  }

  lemma OpsLast(e: Engine, f: Following.State, frames: nat, sqrt: real -> real)
    requires e.Valid() && Following.Valid(f)
    requires Noticed(f) == f == Answer(f, Frames(frames), e.renderer.position, sqrt)
    ensures f.Output().Valid() && OpsOf(e, f, [Frames(frames)], sqrt) == [Render(frames, f.Output(), false)]
  {
    hide Following.Valid, Answer, Noticed, After;
    FollowerRuns.OutputValid(f);
    OpsOn(e, f, Frames(frames), [], sqrt);
    assert [Frames(frames)] + [] == [Frames(frames)];
  }

  // ---- Whole runs ----

  /** Whatever reports, taps, blocks and calls a run is made of: where each of them suits, the engine's
      own calls all fit. */
  lemma {:induction false} FollowedRunFits(e: Engine, f: Following.State, calls: seq<Call>, sqrt: real -> real,
                                           s: Score)
    requires Follows(e, f) && CallsValid(calls) && AllSuit(e, f, calls, sqrt, s)
    requires Aligned(e.control, s, e.renderer.position) && InStep(e.control, e.renderer.published, e.renderer.position)
    ensures AllFit(e, OpsOf(e, f, calls, sqrt), s)
    decreases |calls|
  {
    hide Aligned, InStep, Suits, Fits, After, ScoreAfter, Answer, OpOf, Noticed, OneRate, Following.Valid;
    if calls != [] {
      StillFollows(e, f, calls[0], sqrt);
      SuitsFits(e, f, calls[0], sqrt, s);
      var f' := Answer(f, calls[0], e.renderer.position, sqrt);
      var op := OpOf(calls[0], f');
      AfterValid(e, op);
      StepAligned(e, op, s);
      FollowedRunFits(After(e, op), Noticed(f'), calls[1..], sqrt, ScoreAfter(e, op, s));
    }
  }

  /** So an engine and its follower, run together, space their grid hits. */
  lemma FollowedHitsApart(e: Engine, f: Following.State, calls: seq<Call>, sqrt: real -> real, s: Score)
    requires Follows(e, f) && CallsValid(calls) && AllSuit(e, f, calls, sqrt, s)
    requires Aligned(e.control, s, e.renderer.position) && InStep(e.control, e.renderer.published, e.renderer.position)
    ensures var ops := OpsOf(e, f, calls, sqrt);
            var e', s' := Run(e, ops), Scored(e, ops, s);
            && OnlyTriggers(Survivors(e'.control.queue.pushed)) == s'.past + PlanEvents(s'.plan)
            && (forall h <- s'.plan :: HitWhole(h))
            && (forall i, j :: 0 <= i < j < |s'.plan| ==>
                  s'.plan[j].queued.sample as real >= s'.plan[i].queued.sample as real + s'.plan[j].half)
  {
    hide Aligned, InStep, AllSuit, AllFit, OneRate, Following.Valid, OpsOf, Scored, Run, OnlyTriggers, Survivors,
         PlanEvents, HitWhole;
    FollowedRunFits(e, f, calls, sqrt, s);
    GridHitsApart(e, OpsOf(e, f, calls, sqrt), s);
  }
}
