/** What single calls of the control half promise the listener. */
module Calls {
  import opened Numbers
  import opened Clock
  import opened Pattern
  import opened Scheduling
  import opened QueuedLogs
  import opened Rendering
  import opened Controlling
  import opened Engines
  import opened Realigning
  import opened Offsets

  // ---- A tap ----

  /** Next to this, no more than half a beat away, and whole. */
  predicate NearestWhole(x: real, beat: real)
  {
    x == x.Floor as real && -0.5 <= x - beat <= 0.5
  }

  /** A tap of the internal clock makes the beat it falls on a whole one, the nearest there was, at the tempo tapped if
      there is one. A stopped machine does nothing else. */
  lemma TapPullsGrid(c: ControlState, sample: real, bpm: Option<real>, position: nat, now: nat)
    requires c.Valid() && c.mode == FreeRunning
    ensures var c' := Tapped(c, sample, bpm, position, now);
            && c'.Valid() && c'.mode == FreeRunning && c'.controls == c.controls
            && NearestWhole(c'.internal.BeatAtSample(sample), c.internal.BeatAtSample(sample))
            && c'.internal.bpm == (if bpm.Some? then Clamp(bpm.value, MIN_BPM, MAX_BPM) else c.internal.bpm)
            && c'.internal.sampleRate == c.internal.sampleRate
            && (!c.scheduler.playing ==> c' == c.(internal := c'.internal))
  {
    TappedValid(c, sample, bpm, position, now);
    TappedLine(c, sample, bpm, position, now);
    if bpm.Some? { TempoChangeIsContinuous(c.internal, bpm.value, sample); }
    var line := if bpm.Some? then c.internal.WithTempo(bpm.value, sample) else c.internal;
    var beat := c.internal.BeatAtSample(sample);
    RoundNear(beat);
    AlignedAt(line, sample, Round(beat) as real);
  }

  lemma AlignedAt(l: Line, sample: real, beat: real)
    requires l.Valid()
    ensures l.Aligned(sample, beat).BeatAtSample(sample) == beat
  {
    assert (sample - sample) / l.SamplesPerBeat() == 0.0;
  }

  lemma TappedLine(c: ControlState, sample: real, bpm: Option<real>, position: nat, now: nat)
    requires c.Valid() && c.mode == FreeRunning
    ensures var line := if bpm.Some? then c.internal.WithTempo(bpm.value, sample) else c.internal;
            var c' := Tapped(c, sample, bpm, position, now);
            && c'.internal == line.Aligned(sample, Round(line.BeatAtSample(sample)) as real)
            && c'.mode == c.mode && c'.controls == c.controls
            && (!c.scheduler.playing ==> c' == c.(internal := c'.internal))
  {
    hide FirstStepAtOrAfter, RealignFrom, CutFrom, FlushFrom, Line.WithTempo, Line.BeatAtSample;
  }

  // ---- A start, and a re-sync ----

  /** Where a call at `now` begins a bar anew. */
  function Begins(c: ControlState, position: nat, now: nat): nat { CommitPoint(c, position, now).1 }

  /** A start on the internal clock, and a re-sync whether it plays or not, put step 0 on the commit point. A start
      plays on from there, as many steps as configured; a re-sync of a stopped machine leaves it stopped, with
      nothing queued; one while following leaves everything to the follower. */
  lemma BarBegins(c: ControlState, position: nat, now: nat)
    requires c.Valid() && c.internal.sampleRate == c.sampleRate
    ensures c.mode == FreeRunning ==>
              var started, synced := Started(c, position, now), Resynced(c, position, now);
              && started.Valid() && StepSample(c.Pattern(), started.Adjusted(), 0) == Begins(c, position, now)
              && started.scheduler.playing && started.scheduler.nextStep == 0
              && (c.scheduler.stopAfter.Some? && c.scheduler.stopAfter.value < U64_MAX ==>
                    started.scheduler.stopAt == c.scheduler.stopAfter)
              && synced.Valid() && StepSample(c.Pattern(), synced.Adjusted(), 0) == Begins(c, position, now)
              && (!c.scheduler.playing ==> synced.queue == c.queue && synced.scheduler == c.scheduler)
    ensures c.mode == Mode.Following ==> Resynced(c, position, now) == c
  {
    if c.mode == FreeRunning {
      StartedValid(c, position, now);
      ResyncedValid(c, position, now);
      hide FlushFrom, StepSample, RestartInternalAt, FirstStepAtOrAfter;
      var (c1, commit) := CommitPoint(c, position, now);
      RestartPutsStepZero(c1, commit);
      RestartValid(c1, commit);
      DropValid(c1, commit);
      var c2 := DropQueuedFrom(c1, commit).0;
      RestartPutsStepZero(c2, commit);
      RestartValid(c2, commit);
    }
  }

  // ---- A switch of the clock ----

  /** The clock switched to goes on at the tempo of the old one, and keeps it. */
  lemma SwitchKeepsTempo(c: ControlState, mode: Mode, now: nat)
    requires c.Valid()
    ensures var c' := WithMode(c, mode, now);
            && c'.Valid() && c'.mode == mode && Tempo(c'.Active()) == Tempo(c.Active())
            && (mode != c.mode ==> KeepsTempo(c'.Active()))
            && c'.controls == c.controls && c'.scheduler == c.scheduler && c'.queue == c.queue && c'.log == c.log
  {
    SwitchKeepsBeat(c, mode, now);
    DivPos(c.internal.bpm, 60.0 * c.sampleRate);
  }

  // ---- A parameter change ----

  lemma InsertHolds(pending: seq<Event>, e: Event, x: Event)
    requires x in pending || x == e
    ensures x in Insert(pending, e)
  {
    InsertKeeps(pending, e);
    assert x in multiset(pending) + multiset{e};
  }

  /** A flush takes the triggers at and behind it off the list, all of them, and nothing else. */
  lemma FlushTakes(es: seq<Event>, f: nat, e: Event)
    ensures multiset(FlushTriggers(es, f))[e] == if e.kind.Trigger? && e.sample >= f then 0 else multiset(es)[e]
  {
    FlushCounts(es, f, e);
  }

  /** A pull that takes everything holds every parameter change there was. */
  lemma {:induction false} PullHolds(pending: seq<Event>, waiting: seq<Event>, x: Event)
    requires x in pending || x in waiting
    requires x.kind.Param? && Pull(pending, waiting).1 == []
    ensures x in Pull(pending, waiting).0
    decreases |waiting|
  {
    hide Insert, FlushTriggers;
    if waiting != [] && |pending| < PENDING_CAPACITY {
      var e := waiting[0];
      if e.kind.Flush? {
        FlushCounts(pending, e.sample, x);
        assert x in pending ==> x in multiset(FlushTriggers(pending, e.sample));
        PullHolds(FlushTriggers(pending, e.sample), waiting[1..], x);
      } else {
        if x in pending || x == e { InsertHolds(pending, e, x); }
        PullHolds(Insert(pending, e), waiting[1..], x);
      }
    }
  }

  /** What is due takes effect on the sample to be rendered next, whenever it was due. */
  lemma AppliesNow(s: RenderState)
    ensures var t := ApplyDue(s);
            && s.applied <= t.applied
            && forall i :: |s.applied| <= i < |t.applied| ==> t.applied[i].time == s.position
  {
    hide DueCount;
    DueCountSplits(s.pending, s.position);
  }

  lemma EarlierIn(es: seq<Event>, n: nat, i: nat)
    requires Sorted(es) && n <= |es| && i < |es| && (n < |es| ==> es[n].sample > es[i].sample)
    ensures i < n
  {
  }

  /** A pending event of now is applied in the block that begins now. */
  lemma PlaysNow(s: RenderState, n: nat, x: Event)
    requires Sorted(s.pending) && n >= 1 && x in s.pending && x.sample == s.position
    ensures Applied(s.position, x) in Play(s, n).applied
  {
    hide Before, DueCount;
    PlayApplies(s, n);
    BeforeSplits(s.pending, s.position + n);
    var k := Before(s.pending, s.position + n);
    var i :| 0 <= i < |s.pending| && s.pending[i] == x;
    EarlierIn(s.pending, k, i);
    assert Stamp(s.pending[..k], s.position)[i] == Applied(s.position, x);
  }

  /** Nothing that was queued is taken out by the producer. */
  ghost predicate Extends(q: Ring, q': Ring)
  {
    q'.Valid() && q.pushed <= q'.pushed && q'.popped == q.popped
  }

  lemma FlushExtends(c: ControlState, at: nat)
    requires c.Valid()
    ensures Extends(c.queue, SendFlush(c, at).queue) && SendFlush(c, at).Valid()
  {
  }

  lemma ScheduleExtends(c: ControlState, now: nat)
    requires c.Valid()
    ensures Extends(c.queue, ScheduleAndLog(c, now).queue)
  {
    hide Scheduled, LogSteps, Stream;
    ScheduleRefines(c.scheduler, c.Adjusted(), now + c.lookahead, c.queue, []);
  }

  lemma ObservedExtends(c: ControlState, next: Timeline, snapped: bool, position: nat, now: nat)
    requires c.Valid() && next.Valid()
    ensures Extends(c.queue, Observed(c, next, snapped, position, now).queue)
  {
    hide FirstStepAtOrAfter, RealignFrom, CutFrom, FlushFrom;
  }

  lemma TickExtends(c: ControlState, next: Timeline, snapped: bool, position: nat, now: nat)
    requires c.Valid() && next.Valid()
    ensures Extends(c.queue, Ticked(c, next, snapped, position, now).queue)
  {
    hide ScheduleAndLog, Observed;
    var c1 := NoteRenderPosition(c, position);
    ObservedValid(c1, next, snapped, position, now);
    ObservedExtends(c1, next, snapped, position, now);
    var c2 := Observed(c1, next, snapped, position, now);
    if c2.pendingFlush.Some? {
      FlushExtends(c2.(pendingFlush := None), c2.pendingFlush.value);
      ScheduleExtends(SendFlush(c2.(pendingFlush := None), c2.pendingFlush.value), now);
    } else {
      ScheduleExtends(c2, now);
    }
  }

  lemma QueueHolds(q: Ring, q': Ring, x: Event)
    requires q.Valid() && Extends(q, q') && x in q.Waiting()
    ensures x in q'.Waiting()
  {
    var i :| 0 <= i < |q.Waiting()| && q.Waiting()[i] == x;
    assert q'.Waiting()[i] == x;
  }

  lemma RenderHolds(e: Engine, op: Op, c: ControlState, x: Event)
    requires e.Valid() && op.Render? && OpValid(op) && Sorted(e.renderer.pending) && op.frames >= 1
    requires c == ControlStep(e.control, op, e.renderer.published, e.renderer.position) && c.Valid()
    requires x in c.queue.Waiting() && x.kind.Param? && x.sample == e.renderer.position
    requires After(e, op).control.queue.popped == |c.queue.pushed|
    ensures Applied(e.renderer.position, x) in After(e, op).renderer.applied
  {
    hide ControlStep, Pull, Play, Sorted;
    var (pending, rest) := Pull(e.renderer.pending, c.queue.Waiting());
    PullHolds(e.renderer.pending, c.queue.Waiting(), x);
    PullKeepsSorted(e.renderer.pending, c.queue.Waiting());
    PlaysNow(e.renderer.(pending := pending, published := e.renderer.position), op.frames, x);
  }

  /** A parameter change takes effect on the next sample rendered, if the queue has room for more than the flushes kept
      clear of, and the renderer gets to it; without that room it is dropped and nothing changes. */
  lemma ParamArrives(e: Engine, e1: Engine, target: ParamTarget, value: real, render: Op)
    requires e.Valid() && e1.Valid() && e1 == After(e, SetParam(target, value))
    requires Sorted(e.renderer.pending) && render.Render? && OpValid(render) && render.frames >= 1
    ensures e.control.queue.Vacant() <= 2 ==> e1 == e
    ensures var played, now := After(e1, render), e.renderer.position;
            e.control.queue.Vacant() > 2 && played.control.queue.popped == |played.control.queue.pushed| ==>
              Applied(now, Event(now, Param(target, value))) in played.renderer.applied
  {
    hide ControlStep, Processed, Sorted;
    ParamIsQueued(e, target, value);
    if e.control.queue.Vacant() > 2 {
      var x, published := Event(e.renderer.position, Param(target, value)), e1.renderer.published;
      var c := ControlStep(e1.control, render, published, e1.renderer.position);
      ControlStepValid(e1.control, render, published, e1.renderer.position);
      RenderExtends(e1.control, render, published, e1.renderer.position);
      QueueHolds(e1.control.queue, c.queue, x);
      if After(e1, render).control.queue.popped == |c.queue.pushed| { RenderHolds(e1, render, c, x); }
    }
  }

  lemma RenderExtends(c: ControlState, op: Op, position: nat, now: nat)
    requires c.Valid() && op.Render? && OpValid(op)
    ensures Extends(c.queue, ControlStep(c, op, position, now).queue)
  {
    hide Ticked;
    TickExtends(c, op.advanced, op.jumped, position, now);
  }

  lemma ParamIsQueued(e: Engine, target: ParamTarget, value: real)
    requires e.Valid()
    ensures var e1, q := After(e, SetParam(target, value)), e.control.queue;
            && e1.renderer == e.renderer && e1.control.queue.Valid()
            && (q.Vacant() <= 2 ==> e1 == e)
            && (q.Vacant() > 2 ==> Event(e.renderer.position, Param(target, value)) in e1.control.queue.Waiting())
  {
    var q, x := e.control.queue, Event(e.renderer.position, Param(target, value));
    assert (q.pushed + [x])[q.popped..][|q.pushed| - q.popped] == x;
  }

  // ---- A tick ----

  /** A tick leaves a running machine with everything queued that is due before the horizon, unless the queue ran short
      of room; only a flush still waiting for room holds it up, and then nothing is queued behind that. */
  lemma TickReachesHorizon(c: ControlState, next: Timeline, snapped: bool, position: nat, now: nat)
    requires c.Valid() && next.Valid()
    ensures var c' := Ticked(c, next, snapped, position, now);
            && c'.Valid()
            && (c'.pendingFlush.Some? ==> c'.queue == c.queue && c'.queue.Vacant() == 0)
            && (c'.pendingFlush.None? && c'.scheduler.playing ==>
                  || StepSample(c'.Pattern(), c'.Adjusted(), c'.scheduler.nextStep) >= now + c.lookahead
                  || c'.queue.Vacant() < STEP_SLOTS + FLUSH_RESERVE)
  {
    hide ScheduleAndLog, Observed, StepSample;
    TickedValid(c, next, snapped, position, now);
    var c1 := NoteRenderPosition(c, position);
    ObservedValid(c1, next, snapped, position, now);
    ObservedFlushes(c1, next, snapped, position, now);
    var c2 := Observed(c1, next, snapped, position, now);
    if c2.pendingFlush.Some? {
      var c3 := SendFlush(c2.(pendingFlush := None), c2.pendingFlush.value);
      if c3.pendingFlush.None? { ScheduleReaches(c3, now); }
    } else {
      ScheduleReaches(c2, now);
    }
  }

  lemma ObservedFlushes(c: ControlState, next: Timeline, snapped: bool, position: nat, now: nat)
    requires c.Valid() && next.Valid()
    ensures var c' := Observed(c, next, snapped, position, now);
            && c'.lookahead == c.lookahead
            && (c'.pendingFlush.Some? ==> c'.queue == c.queue || c'.queue.Vacant() > 0)
  {
    hide FirstStepAtOrAfter, RealignFrom, CutFrom, FlushFrom;
  }

  lemma ScheduleReaches(c: ControlState, now: nat)
    requires c.Valid()
    ensures var c' := ScheduleAndLog(c, now);
            && c'.pendingFlush == c.pendingFlush && c'.Pattern() == c.Pattern() && c'.Adjusted() == c.Adjusted()
            && c'.queue.Valid()
            && (c'.scheduler.playing ==>
                  || StepSample(c.Pattern(), c.Adjusted(), c'.scheduler.nextStep) >= now + c.lookahead
                  || c'.queue.Vacant() < STEP_SLOTS + FLUSH_RESERVE)
  {
    hide Scheduled, LogSteps, Stream, StepSample;
    ScheduleRefines(c.scheduler, c.Adjusted(), now + c.lookahead, c.queue, []);
  }

  // ---- The render block ----

  function NotedAll(c: ControlState, positions: seq<nat>): ControlState
  {
    if positions == [] then c
    else NoteRenderPosition(NotedAll(c, positions[..|positions| - 1]), positions[|positions| - 1])
  }

  /** The renderer moved on between two looks at its position. */
  predicate Advances(positions: seq<nat>, i: nat)
  {
    1 <= i < |positions| && positions[i] > positions[i - 1]
  }

  /** What two looks in a row, at `before` and `after`, make of the block learned so far. */
  lemma NoteStep(c: ControlState, before: nat, after: nat)
    requires c.published == before > 0
    ensures var c' := NoteRenderPosition(c, after);
            && c'.published == after
            && c'.renderBlock == if after <= before then c.renderBlock
                                 else if c.renderBlock == 0 || c.renderBlock > after - before then after - before
                                 else c.renderBlock
  {
  }

  /** However often the position is looked at, and though the renderer may have started over in between: the block is
      the smallest advance seen between two looks. */
  lemma {:induction false} BlockIsSmallest(c: ControlState, positions: seq<nat>) returns (at: nat)
    requires c.published == 0 && c.renderBlock == 0 && positions != []
    requires forall i :: 0 <= i < |positions| ==> positions[i] > 0
    ensures var c' := NotedAll(c, positions);
            && c'.published == positions[|positions| - 1]
            && (forall i: nat :: Advances(positions, i) ==>
                  1 <= c'.renderBlock <= positions[i] - positions[i - 1])
            && (c'.renderBlock > 0 ==>
                  Advances(positions, at) && c'.renderBlock == positions[at] - positions[at - 1])
  {
    hide NoteRenderPosition;
    var n := |positions|;
    var front := positions[..n - 1];
    if n == 1 {
      assert front == [];
      FirstNote(c, positions[0]);
      at := 0;
    } else {
      at := BlockIsSmallest(c, front);
      NoteStep(NotedAll(c, front), positions[n - 2], positions[n - 1]);
      forall i: nat | Advances(positions, i) && i < n - 1 ensures Advances(front, i) {}
      if NotedAll(c, positions).renderBlock != NotedAll(c, front).renderBlock { at := n - 1; }
    }
  }

  lemma FirstNote(c: ControlState, position: nat)
    requires c.published == 0 && c.renderBlock == 0
    ensures NoteRenderPosition(c, position) == c.(published := position)
  {
  }

  // ---- Edits ----

  /** A new tempo holds from now on, within its range, and moves no beat that is now. */
  lemma TempoTakesHold(c: ControlState, bpm: real, position: nat, now: nat)
    requires c.Valid()
    ensures var c' := ControlStep(c, SetTempo(bpm), position, now);
            && c' == c.(internal := c'.internal) && c'.internal.Valid()
            && c'.internal.bpm == Clamp(bpm, MIN_BPM, MAX_BPM) && c'.internal.sampleRate == c.internal.sampleRate
            && c'.internal.BeatAtSample(now as real) == c.internal.BeatAtSample(now as real)
  {
    TempoChangeIsContinuous(c.internal, bpm, now as real);
  }

  /** A new pattern, or new timing controls, hold from the next step not queued yet: nothing queued is taken back, and
      the next tick of a machine on its internal clock queues that step and those behind it by them. */
  lemma EditsPlay(c: ControlState, op: Op, next: Timeline, position: nat, now: nat)
    requires c.Valid() && OpValid(op) && next.Valid() && (op.SetPattern? || op.SetControls?)
    requires c.mode == FreeRunning && c.pendingFlush == None
    ensures ControlStep(c, op, position, now).Valid()
    ensures var c' := Ticked(ControlStep(c, op, position, now), next, false, position, now);
            var p := if op.SetPattern? then op.pattern else c.Pattern();
            var clock := AdjustedClock(c.Active(), if op.SetControls? then op.controls else c.controls);
            var first := c.scheduler.nextStep;
            first <= c'.scheduler.nextStep
            && c'.queue.pushed == c.queue.pushed + Stream(p, clock, first, c'.scheduler.nextStep)
  {
    hide Scheduled, LogSteps, Stream;
    var c1 := NoteRenderPosition(ControlStep(c, op, position, now), position);
    ScheduleRefines(c1.scheduler, c1.Adjusted(), now + c1.lookahead, c1.queue, []);
  }

  /** A number of steps to stop after, set while playing, counts from the next step not queued yet: a tick never goes
      beyond, and ends the run exactly when it gets there; without a number it never ends by itself. */
  lemma StopsAfter(c: ControlState, steps: Option<nat>, next: Timeline, position: nat, now: nat)
    requires c.Valid() && next.Valid() && c.mode == FreeRunning && c.pendingFlush == None && c.scheduler.playing
    ensures ControlStep(c, SetStopAfter(steps), position, now).Valid()
    ensures var c' := Ticked(ControlStep(c, SetStopAfter(steps), position, now), next, false, position, now);
            var first := c.scheduler.nextStep;
            && (steps.None? ==> c'.scheduler.playing)
            && (steps.Some? && first + steps.value < U64_MAX ==>
                  var end := first + steps.value;
                  && first <= c'.scheduler.nextStep <= end
                  && c'.scheduler.stopAt == Some(end) && c'.scheduler.stopAfter == steps
                  && (c'.scheduler.playing <==> c'.scheduler.nextStep < end))
  {
    hide Scheduled, LogSteps, Stream, StepSample;
    var c1 := NoteRenderPosition(ControlStep(c, SetStopAfter(steps), position, now), position);
    ScheduleRefines(c1.scheduler, c1.Adjusted(), now + c1.lookahead, c1.queue, []);
    var end := Scheduled(c1.scheduler, c1.Adjusted(), now + c1.lookahead, c1.queue, []).0.nextStep;
    if end > c.scheduler.nextStep { assert StepSample(c1.Pattern(), c1.Adjusted(), end - 1) < now + c1.lookahead; }
  }
}
