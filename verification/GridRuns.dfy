/** Every call and every lockstep run: queue, log, cursor and plan stay in agreement, so no two grid
    hits land closer than half a step between restarts of the internal clock. */
module GridRuns {
  import opened Numbers
  import opened Clock
  import opened Pattern
  import opened Scheduling
  import opened QueuedLogs
  import opened Rendering
  import opened Controlling
  import opened Engines
  import opened Pacing
  import opened Realigning
  import opened Restarting
  import opened Ordering
  import opened GridHits

  // ---- Calls that move the cursor ----

  lemma RealignKeepsClock(c: ControlState, commit: nat, before: ActiveClock)
    requires c.Valid() && before.Valid()
    ensures var c' := RealignContinuous(c, commit, before);
            && c'.Valid() && c'.Pattern() == c.Pattern() && c'.Adjusted() == c.Adjusted()
            && c'.mode == c.mode && c'.internal == c.internal && c'.follower == c.follower
            && c'.sampleRate == c.sampleRate
            && c'.scheduler.playing == c.scheduler.playing
  {
    hide FirstStepAtOrAfter, CutFrom, FlushFrom, RealignFrom;
  }

  lemma FlamFitsSame(c: ControlState, c': ControlState)
    requires c.Valid() && FlamFits(c)
    requires c'.Valid() && c'.Pattern() == c.Pattern() && c'.Adjusted() == c.Adjusted()
    ensures FlamFits(c')
  {
  }

  /** A jump under a running pattern. */
  lemma JumpAligned(c: ControlState, moved: ControlState, before: ActiveClock, s: Score, position: nat, now: nat)
    requires c.Valid() && Aligned(c, s, now) && c.queue.Vacant() > 0 && before.Valid() && InStep(c, position, now)
    requires moved.Valid() && moved == c.(internal := moved.internal, follower := moved.follower)
    requires OneRate(moved) && AudioRate(moved.Adjusted()) && FlamFits(moved)
    requires FindsStep(c.log, moved.Pattern(), moved.Adjusted(), SaturatingSub(now, c.Grace()), now)
    requires var c' := RealignContinuous(CommitPoint(moved, position, now).0, now, before);
             && c'.scheduler.stopAt != Some(U64_MAX) && c'.Valid()
             && GraceClears(c', Replanned(s.plan, CutFrom(c.log, now, None).flush))
    ensures var c' := RealignContinuous(CommitPoint(moved, position, now).0, now, before);
            c'.Valid() && Aligned(c', s.(plan := Replanned(s.plan, CutFrom(c.log, now, None).flush),
                                         mark := FreshMark(c', now)), now)
  {
    hide Spaced, NextInOrder, AudioRate, FlamFits, RealignContinuous, Replanned, CutFrom, Remembers, Consecutive,
         Aligned, FindsStep, FreshMark, Marked, FromQueue, LastKept, IsFirstStep, GraceClears;
    AlignedValid(c, s, now);
    var noted := CommitPoint(moved, position, now).0;
    assert FlamFits(noted) by { FlamFitsSame(moved, noted); }
    RealignAligned(noted, before, s, now);
  }

  /** What a start does while following. */
  lemma JoinShape(c: ControlState, position: nat, now: nat)
    requires Ready(c) && c.mode == Following && InStep(c, position, now)
    ensures var c', cut := Started(c, position, now), CutFrom(c.log, now, None);
            && c'.Valid() && c'.pendingFlush == None && c'.sampleRate == c.sampleRate
            && c'.mode == c.mode && c'.internal == c.internal && c'.follower == c.follower
            && c'.lookahead == c.lookahead
            && c'.Adjusted() == c.Adjusted() && c'.Pattern() == c.Pattern()
            && c'.log == FlushFrom(c.log, cut.flush)
            && c'.queue.pushed == (if cut.dropped.Some? then SendFlush(c, cut.flush) else c).queue.pushed
            && c'.scheduler == c.scheduler.StartAt(FirstStepAtOrAfter(c.Pattern(), c.Adjusted(), Earliest(c, now, now)))
  {
    hide FirstStepAtOrAfter, CutFrom, FlushFrom, HalfStep, Ceil;
    StartedValid(c, position, now);
    CommitsNow(c, position, now);
  }

  /** The first step after the commit point, and half a step after what was heard, is in order. */
  lemma JoinsBehind(c: ControlState, c': ControlState, plan: seq<Hit>, now: nat)
    requires c.Valid() && AudioRate(c.Adjusted()) && FlamFits(c)
    requires c'.Valid() && c'.Pattern() == c.Pattern() && c'.Adjusted() == c.Adjusted()
    requires FindsStep(c.log, c.Pattern(), c.Adjusted(), now, now)
    requires plan != [] ==> CutFrom(c.log, now, None).heard == Some(plan[|plan| - 1].queued)
    requires c'.scheduler.nextStep == FirstStepAtOrAfter(c.Pattern(), c.Adjusted(), Earliest(c, now, now))
    requires GraceClears(c', plan)
    ensures NextInOrder(c', plan)
  {
    hide FirstStepAtOrAfter, StepPosition, AudioRate, FlamSamples, HalfStepAfter, HalfStep, CutFrom, InOrder;
    FirstStepExact(c.Pattern(), c.Adjusted(), Earliest(c, now, now));
    var heard := CutFrom(c.log, now, None).heard;
    if heard.Some? { HalfStepAfterIsLater(c, heard.value.sample); }
    SameOrder(c, c', plan);
  }

  /** A start while following: what was heard stays, the rest of the old run is taken back, and
      the new run begins at the first step that keeps clear of what was heard. */
  lemma JoinAligned(c: ControlState, s: Score, position: nat, now: nat)
    requires c.Valid() && Aligned(c, s, now) && c.queue.Vacant() > 0 && InStep(c, position, now) && c.mode == Following
    requires AudioRate(c.Adjusted()) && FlamFits(c) && FindsStep(c.log, c.Pattern(), c.Adjusted(), now, now)
    requires var c' := Started(c, position, now);
             && c'.scheduler.stopAt != Some(U64_MAX) && c'.Valid()
             && GraceClears(c', Replanned(s.plan, CutFrom(c.log, now, None).flush))
    ensures var c', plan' := Started(c, position, now), Replanned(s.plan, CutFrom(c.log, now, None).flush);
            var n := c.scheduler.stopAfter;
            c'.Valid() && Aligned(c', s.(plan := plan', mark := FreshMark(c', now),
                                         total := if n.Some? then s.played + |plan'| + n.value else s.total), now)
  {
    hide FirstStepAtOrAfter, CutFrom, FlushFrom, Spaced, HalfStepAfter, Survivors, OnlyTriggers, PlanEvents, Replanned,
         StepPosition, AudioRate, FlamFits, NextInOrder, Started, Queues, SendFlush, Aligned, Remembers, FindsStep,
         Earliest, Marked, FromQueue, FreshMark;
    AlignedValid(c, s, now);
    RealignCuts(c.log, s.plan, now);
    var c', cut := Started(c, position, now), CutFrom(c.log, now, None);
    var plan' := Replanned(s.plan, cut.flush);
    var n := c.scheduler.stopAfter;
    SpacedPrefix(s.plan, |plan'|);
    FlushQueues(c, s.plan, s.past, now, cut.flush, |plan'|);
    JoinShape(c, position, now);
    assert s.plan[..|s.plan|] == s.plan;
    QueuesSame(if cut.dropped.Some? then SendFlush(c, cut.flush) else c, c', plan', s.past, now);
    JoinsBehind(c, c', plan', now);
    FreshIsMarked(c', now);
    FreshFromQueue(c', now, LastSample(plan'));
    LogReaches(c.log, s.plan, now);
    FlushShorter(c.log, cut.flush);
    AlignedIs(c', s.(plan := plan', mark := FreshMark(c', now),
                     total := if n.Some? then s.played + |plan'| + n.value else s.total), now);
  }

  /** The internal clock after a tap: the tapped tempo, and the nearest beat on the tap. */
  function Retuned(l: Line, sample: real, bpm: Option<real>): (l': Line)
    requires l.Valid()
    ensures l'.Valid() && l'.sampleRate == l.sampleRate
  {
    var line := if bpm.Some? then l.WithTempo(bpm.value, sample) else l;
    line.Aligned(sample, Round(line.BeatAtSample(sample)) as real)
  }

  lemma TappedShape(c: ControlState, sample: real, bpm: Option<real>, position: nat, now: nat)
    requires c.Valid() && c.mode == FreeRunning && InStep(c, position, now)
    ensures var moved := c.(internal := Retuned(c.internal, sample, bpm));
            && moved.Valid()
            && Tapped(c, sample, bpm, position, now)
               == if c.scheduler.playing
                  then RealignContinuous(CommitPoint(moved, position, now).0, now, Internal(c.internal)) else moved
  {
    hide RealignContinuous;
    CommitsNow(c.(internal := Retuned(c.internal, sample, bpm)), position, now);
  }

  lemma TappedAligned(c: ControlState, sample: real, bpm: Option<real>, s: Score, position: nat, now: nat)
    requires c.Valid() && Aligned(c, s, now) && c.queue.Vacant() > 0 && c.mode == FreeRunning
             && InStep(c, position, now)
    requires var c' := Tapped(c, sample, bpm, position, now);
             && c'.Valid() && c'.scheduler.stopAt != Some(U64_MAX) && OneRate(c')
             && (c.scheduler.playing ==>
                   && AudioRate(c'.Adjusted()) && FlamFits(c')
                   && FindsStep(c.log, c'.Pattern(), c'.Adjusted(), SaturatingSub(now, c.Grace()), now)
                   && GraceClears(c', Replanned(s.plan, CutFrom(c.log, now, None).flush)))
    ensures var c' := Tapped(c, sample, bpm, position, now);
            Aligned(c', if c.scheduler.playing
                        then s.(plan := Replanned(s.plan, CutFrom(c.log, now, None).flush), mark := FreshMark(c', now))
                        else s.(mark := Repaced(c, c', s.mark, now)), now)
  {
    hide Aligned, NextInOrder, AudioRate, FlamFits, RealignContinuous, Replanned, CutFrom, Retuned, Tapped, FreshMark,
         Repaced, FindsStep;
    var c' := Tapped(c, sample, bpm, position, now);
    AlignedValid(c, s, now);
    var moved := c.(internal := Retuned(c.internal, sample, bpm));
    TappedShape(c, sample, bpm, position, now);
    if c.scheduler.playing {
      RealignKeepsClock(CommitPoint(moved, position, now).0, now, Internal(c.internal));
      FlamFitsSame(c', moved);
      JumpAligned(c, moved, Internal(c.internal), s, position, now);
    } else {
      QuietAligned(c, c', s, s.total, now);
    }
  }

  lemma ObservedAligned(c: ControlState, next: Timeline, snapped: bool, s: Score, position: nat, now: nat)
    requires c.Valid() && Aligned(c, s, now) && c.queue.Vacant() > 0 && next.Valid() && InStep(c, position, now)
    requires var c' := Observed(c, next, snapped, position, now);
             var jumps := c.scheduler.playing && c.mode == Following && snapped;
             && c'.Valid() && c'.scheduler.stopAt != Some(U64_MAX) && OneRate(c')
             && (c'.scheduler.playing ==> AudioRate(c'.Adjusted()) && FlamFits(c'))
             && (jumps ==>
                   && FindsStep(c.log, c'.Pattern(), c'.Adjusted(), SaturatingSub(now, c.Grace()), now)
                   && GraceClears(c', Replanned(s.plan, CutFrom(c.log, now, None).flush)))
             && (!jumps && c'.scheduler.playing && Changes(c, c') ==> InOrder(c', LastSample(s.plan)))
    ensures var c' := Observed(c, next, snapped, position, now);
            Aligned(c', if c.scheduler.playing && c.mode == Following && snapped
                        then s.(plan := Replanned(s.plan, CutFrom(c.log, now, None).flush), mark := FreshMark(c', now))
                        else s.(mark := Repaced(c, c', s.mark, now)), now)
  {
    hide Aligned, NextInOrder, AudioRate, FlamFits, RealignContinuous, Replanned, CutFrom, FreshMark, Repaced,
         FindsStep, InOrder;
    AlignedValid(c, s, now);
    var c' := Observed(c, next, snapped, position, now);
    var moved := c.(follower := next);
    if c.scheduler.playing && c.mode == Following && snapped {
      CommitsNow(moved, position, now);
      RealignKeepsClock(CommitPoint(moved, position, now).0, now, Follow(c.follower));
      FlamFitsSame(c', moved);
      JumpAligned(c, moved, Follow(c.follower), s, position, now);
    } else {
      QuietAligned(c, c', s, s.total, now);
    }
  }

  // ---- Restarts of the internal clock ----

  /** After a restart at `now` the search from `now` finds step 0. */
  lemma RestartFindsZero(p: Pattern, c: AdjustedClock, now: nat)
    requires c.Valid() && AudioRate(c) && c.SampleAtBeat(0.0) == now as real
    ensures FirstStepAtOrAfter(p, c, now) == 0
  {
    hide FirstStepAtOrAfter, AudioRate;
    assert StepPosition(p, c, 0) == now by { assert p.StepBeat(0) == 0.0; }
    hide StepPosition;
    FirstStepExact(p, c, now);
  }

  lemma RestartKeeps(c: ControlState, now: nat)
    requires c.Valid()
    ensures var c1 := DropQueuedFrom(c, now).0;
            var c2 := RestartInternalAt(c1, now);
            && c1.Valid() && c2.Valid() && c2.scheduler == c.scheduler && c2.mode == c.mode
            && c1.internal.sampleRate == c.internal.sampleRate && c1.sampleRate == c.sampleRate && c1.mode == c.mode
  {
    hide FlushFrom, RestartInternalAt;
    DropValid(c, now);
    RestartValid(DropQueuedFrom(c, now).0, now);
  }

  /** The state a restart leaves, whichever call made it. */
  lemma RestartShape(c: ControlState, op: Op, position: nat, now: nat)
    requires c.Valid() && OpValid(op) && Restarts(c, op) && InStep(c, position, now)
    requires c.internal.sampleRate == c.sampleRate
    requires AudioRate(ControlStep(c, op, position, now).Adjusted())
    ensures var c', noted := ControlStep(c, op, position, now), CommitPoint(c, position, now).0;
            var dropped := DropQueuedFrom(noted, now).0;
            && dropped.Valid() && c'.Valid() && c' == RestartInternalAt(dropped, now).(scheduler := c'.scheduler)
            && c'.scheduler == if op.Start? then c.scheduler.StartAt(0)
                               else c.scheduler.Seek(0, DropQueuedFrom(noted, now).1)
  {
    hide DropQueuedFrom, RestartInternalAt, FirstStepAtOrAfter, AudioRate, SaturatingAdd, SaturatingSub;
    CommitsNow(c, position, now);
    var noted := CommitPoint(c, position, now).0;
    NotedKeeps(c, position);
    RestartKeeps(noted, now);
    var restarted := RestartInternalAt(DropQueuedFrom(noted, now).0, now);
    RestartPutsStepZero(DropQueuedFrom(noted, now).0, now);
    if op.Resync? {
      assert ControlStep(c, op, position, now).Adjusted() == restarted.Adjusted();
      RestartFindsZero(restarted.Pattern(), restarted.Adjusted(), now);
    }
    ControlStepValid(c, op, position, now);
  }

  lemma RestartCounted(c: ControlState, op: Op, c': SchedulerState, s: Score, m: nat, now: nat)
    requires c.Valid() && Restarts(c, op) && Counted(c.scheduler, s.plan, s.total - s.played) && m <= |s.plan|
    requires c' == if op.Start? then c.scheduler.StartAt(0) else c.scheduler.Seek(0, DropQueuedFrom(c, now).1)
    requires c'.stopAt != Some(U64_MAX)
    requires |s.plan| - m == |c.log| - |FlushFrom(c.log, now)|
    requires op.Resync? && c.scheduler.stopAt.Some? ==> DropsNewest(c, now)
    ensures var n := c.scheduler.stopAfter;
            Counted(c', [], (if op.Start? && n.Some? then s.played + m + n.value else s.total) - s.played - m)
  {
    hide DropQueuedFrom, FlushFrom;
  }

  lemma RestartPlays(c: ControlState, op: Op, position: nat, now: nat)
    requires c.Valid() && OpValid(op) && Restarts(c, op)
    ensures ControlStep(c, op, position, now).scheduler.playing
  {
    hide FirstStepAtOrAfter, FlushFrom, RestartInternalAt;
    var (noted, commit) := CommitPoint(c, position, now);
    NotedKeeps(c, position);
    RestartKeeps(noted, commit);
  }

  lemma RestartStep(c: ControlState, op: Op, s: Score, position: nat, now: nat)
    requires c.Valid() && OpValid(op) && Restarts(c, op)
    requires Aligned(c, s, now) && c.queue.Vacant() > 0 && InStep(c, position, now)
    requires var c' := ControlStep(c, op, position, now);
             c'.Valid() && AudioRate(c'.Adjusted()) && FlamFits(c') && c'.scheduler.stopAt != Some(U64_MAX)
    requires op.Resync? && c.scheduler.stopAt.Some? ==> DropsNewest(c, now)
    ensures var c' := ControlStep(c, op, position, now); Aligned(c', ScoreMoved(c, op, s, c', now), now)
  {
    hide ControlStep, DropQueuedFrom, RestartInternalAt, Spaced, Remembers, Replanned, AudioRate, FlamFits, Aligned,
         Counted, Consecutive, Queues, FlushFrom, RestartScore, NextInOrder, Marked, FromQueue;
    AlignedValid(c, s, now);
    var c', noted := ControlStep(c, op, position, now), CommitPoint(c, position, now).0;
    NotedKeeps(c, position);
    RestartShape(c, op, position, now);
    RestartCuts(c.log, s.plan, now);
    DropSame(c, noted, now);
    RestartCounted(c, op, c'.scheduler, s, |Replanned(s.plan, now)|, now);
    QueuesSame(c, noted, s.plan, s.past, now);
    var n := c.scheduler.stopAfter;
    RestartAligned(noted, c', s, if op.Start? && n.Some? then s.played + |Replanned(s.plan, now)| + n.value
        else s.total, now);
  }

  lemma DropSame(c: ControlState, c': ControlState, now: nat)
    requires c.Valid() && c'.Valid() && c'.log == c.log && c'.scheduler == c.scheduler
    ensures DropQueuedFrom(c', now).1 == DropQueuedFrom(c, now).1
  {
    hide FlushFrom;
  }

  /** A re-sync counts the dropped steps back in if and only if no jump has come since the grace note
      of a step still to sound. */
  lemma ResyncCounts(c: ControlState, s: Score, position: nat, now: nat)
    requires c.Valid() && Aligned(c, s, now) && c.mode == FreeRunning && c.scheduler.playing
    requires InStep(c, position, now) && AudioRate(Resynced(c, position, now).Adjusted())
    requires c.scheduler.stopAt.Some? && c.scheduler.stopAt.value <= U64_MAX
    ensures var sch, sch' := c.scheduler, Resynced(c, position, now).scheduler;
            && sch'.stopAt.Some? && sch'.nextStep == 0
            && (sch'.stopAt.value == sch.stopAt.value - sch.nextStep + (|c.log| - |FlushFrom(c.log, now)|)
                <==> NoJumpSince(c.log, sch.nextStep, now))
  {
    hide DropQueuedFrom, FlushFrom, AudioRate, Aligned, Remembers, Spaced, Consecutive, Queues, NextInOrder, Marked,
         FromQueue, NoJumpSince;
    AlignedValid(c, s, now);
    RestartShape(c, Resync, position, now);
    DropSame(c, CommitPoint(c, position, now).0, now);
    DropsNewestExactly(c, s.plan, now);
  }

  // ---- Any call ----

  /** The calls that neither move the cursor nor reach the follower. */
  lemma QuietShape(c: ControlState, op: Op, position: nat, now: nat)
    requires c.Valid() && OpValid(op) && !MovesCursor(c, op)
    requires !op.Tap? && !op.Observe? && !op.Render? && !op.SetParam?
    ensures var c' := ControlStep(c, op, position, now);
            && c'.Valid() && c'.queue == c.queue && c'.log == c.log && c'.pendingFlush == c.pendingFlush
            && c'.sampleRate == c.sampleRate && c'.lookahead == c.lookahead
            && c'.scheduler.nextStep == c.scheduler.nextStep
            && (c'.scheduler.playing ==> c.scheduler.playing)
            && c'.scheduler == c.scheduler.(playing := c'.scheduler.playing, pattern := c'.scheduler.pattern,
                                            stopAfter := c'.scheduler.stopAfter, stopAt := c'.scheduler.stopAt)
            && (!op.SetStopAfter? ==> c'.scheduler.stopAt == c.scheduler.stopAt)
  {
    hide RestartInternalAt, DropQueuedFrom;
    ControlStepValid(c, op, position, now);
    if op.Resync? && c.mode == FreeRunning {
      RestartValid(CommitPoint(c, position, now).0, CommitPoint(c, position, now).1);
    }
  }

  lemma QuietCounted(c: SchedulerState, c': SchedulerState, op: Op, s: Score)
    requires Counted(c, s.plan, s.total - s.played) && c'.nextStep == c.nextStep && c'.stopAt != Some(U64_MAX)
    requires if op.SetStopAfter? then c'.stopAt == c.SetStopAfter(op.steps).stopAt else c'.stopAt == c.stopAt
    ensures var total := if op.SetStopAfter? && op.steps.Some? then s.played + |s.plan| + op.steps.value else s.total;
            Counted(c', s.plan, total - s.played)
  {
  }

  lemma StartedKeeps(c: ControlState, position: nat, now: nat)
    requires c.Valid() && c.mode == Following
    ensures var c' := Started(c, position, now);
            c'.Valid() && c'.Pattern() == c.Pattern() && c'.Adjusted() == c.Adjusted() && c'.scheduler.playing
  {
    hide FirstStepAtOrAfter, CutFrom, FlushFrom, HalfStepAfter;
    StartedValid(c, position, now);
  }

  lemma TappedKeeps(c: ControlState, sample: real, bpm: Option<real>, position: nat, now: nat)
    requires c.Valid() && c.mode == FreeRunning
    ensures Tapped(c, sample, bpm, position, now).scheduler.playing == c.scheduler.playing
  {
    hide FirstStepAtOrAfter, CutFrom, FlushFrom, RealignFrom;
  }

  lemma ObservedKeeps(c: ControlState, next: Timeline, snapped: bool, position: nat, now: nat)
    requires c.Valid() && next.Valid()
    ensures Observed(c, next, snapped, position, now).scheduler.playing == c.scheduler.playing
  {
    hide FirstStepAtOrAfter, CutFrom, FlushFrom, RealignFrom;
  }

  /** Learning the render position changes nothing the score speaks of. */
  lemma NotedAligned(c: ControlState, s: Score, position: nat, now: nat)
    requires c.Valid() && Aligned(c, s, now)
    ensures var noted := NoteRenderPosition(c, position); noted.Valid() && Aligned(noted, s, now)
  {
    hide Aligned, Spaced, Remembers, Counted, Consecutive, NextInOrder, Marked, FromQueue, NoteRenderPosition, Queues;
    AlignedValid(c, s, now);
    NotedKeeps(c, position);
    var noted := NoteRenderPosition(c, position);
    QueuesSame(c, noted, s.plan, s.past, now);
    if c.scheduler.playing {
      SameMark(c, noted, s.mark, LastSample(s.plan), now);
      SameNext(c, noted, s.plan);
    }
    AlignedIs(noted, s, now);
  }

  lemma SameFrom(c: ControlState, noted: ControlState, c': ControlState, s: Score, now: nat)
    requires c.Valid() && noted.Valid() && c'.Valid()
    requires noted == c.(published := noted.published, renderBlock := noted.renderBlock)
    ensures Repaced(noted, c', s.mark, now) == Repaced(c, c', s.mark, now)
    ensures Changes(noted, c') == Changes(c, c')
  {
  }

  lemma TickMoves(c: ControlState, next: Timeline, snapped: bool, s: Score, position: nat, now: nat)
    requires c.Valid() && Aligned(c, s, now) && c.queue.Vacant() > 0 && next.Valid() && InStep(c, position, now)
    requires NoteRenderPosition(c, position).Valid()
    requires var c' := Observed(NoteRenderPosition(c, position), next, snapped, position, now);
             var jumps := c.scheduler.playing && c.mode == Following && snapped;
             && c'.Valid() && c'.scheduler.stopAt != Some(U64_MAX) && OneRate(c')
             && (c'.scheduler.playing ==> AudioRate(c'.Adjusted()) && FlamFits(c'))
             && (jumps ==>
                   && FindsStep(c.log, c'.Pattern(), c'.Adjusted(), SaturatingSub(now, c.Grace()), now)
                   && GraceClears(c', Replanned(s.plan, CutFrom(c.log, now, None).flush)))
             && (!jumps && c'.scheduler.playing && Changes(c, c') ==> InOrder(c', LastSample(s.plan)))
    ensures var c' := Observed(NoteRenderPosition(c, position), next, snapped, position, now);
            Aligned(c', if c.scheduler.playing && c.mode == Following && snapped
                        then s.(plan := Replanned(s.plan, CutFrom(c.log, now, None).flush), mark := FreshMark(c', now))
                        else s.(mark := Repaced(c, c', s.mark, now)), now)
  {
    hide Aligned, AudioRate, FlamFits, Observed, Replanned, CutFrom, FreshMark, Repaced, FindsStep, InOrder, Changes,
         NoteRenderPosition;
    var noted := NoteRenderPosition(c, position);
    NotedAligned(c, s, position, now);
    NotedKeeps(c, position);
    CommitsNow(c, position, now);
    var c' := Observed(noted, next, snapped, position, now);
    SameFrom(c, noted, c', s, now);
    ObservedAligned(noted, next, snapped, s, position, now);
  }

  lemma MovedPlaying(c: ControlState, op: Op, position: nat, now: nat)
    requires c.Valid() && OpValid(op) && !MovesCursor(c, op)
    ensures Moved(c, op, position, now).scheduler.playing ==> c.scheduler.playing
  {
    hide RestartInternalAt, DropQueuedFrom, RealignContinuous, FirstStepAtOrAfter, ScheduleAndLog, NoteRenderPosition;
    NotedKeeps(c, position);
    if op.Resync? && c.mode == FreeRunning {
      RestartValid(CommitPoint(c, position, now).0, CommitPoint(c, position, now).1);
    }
  }

  /** Every call but the scheduling itself. */
  lemma MovedAligned(e: Engine, op: Op, s: Score)
    requires e.Valid() && OpValid(op) && Fits(e, op, s)
    requires Aligned(e.control, s, e.renderer.position) && InStep(e.control, e.renderer.published, e.renderer.position)
    ensures var moved := Moved(e.control, op, e.renderer.published, e.renderer.position);
            Aligned(moved, ScoreMoved(e.control, op, s, moved, e.renderer.position), e.renderer.position)
  {
    hide Aligned, NextInOrder, AudioRate, FlamFits, Tapped, Observed, Started, Replanned, CutFrom, Ticked, PushReserved,
         FindsStep, FreshMark, GraceClears, Repaced, WithMode, DropsNewest, NoJumpSince, Resynced, RestartScore,
         WithinMemory, NextFits, InOrder;
    var c, position, now := e.control, e.renderer.published, e.renderer.position;
    AlignedValid(c, s, now);
    var moved := Moved(c, op, position, now);
    if Restarts(c, op) {
      RestartPlays(c, op, position, now);
      DropsNewestExactly(c, s.plan, now);
      RestartStep(c, op, s, position, now);
    } else if Joins(c, op) {
      StartedKeeps(c, position, now);
      FlamFitsSame(moved, c);
      JoinAligned(c, s, position, now);
    } else {
      if moved.scheduler.playing && !Realigns(c, op) {
        MovedPlaying(c, op, position, now);
        OrderKept(c, op, position, now, LastSample(s.plan));
      }
      match op
      case Tap(sample, bpm, next, snapped) =>
        if c.mode == FreeRunning {
          TappedKeeps(c, sample, bpm, position, now);
          TappedAligned(c, sample, bpm, s, position, now);
        } else {
          ObservedKeeps(c, next, snapped, position, now);
          ObservedAligned(c, next, snapped, s, position, now);
        }
      case Observe(next, snapped) =>
        ObservedKeeps(c, next, snapped, position, now);
        ObservedAligned(c, next, snapped, s, position, now);
      case SetParam(target, value) => ParamAligned(c, Event(now, Param(target, value)), s, now);
      case Render(_, next, snapped) => TickMoves(c, next, snapped, s, position, now);
      case Start => assert false;
      case _ =>
        QuietShape(c, op, position, now);
        QuietCounted(c.scheduler, moved.scheduler, op, s);
        QuietAligned(c, moved, s, ScoreMoved(c, op, s, moved, now).total, now);
    }
  }

  lemma StepAligned(e: Engine, op: Op, s: Score)
    requires e.Valid() && OpValid(op) && Fits(e, op, s)
    requires Aligned(e.control, s, e.renderer.position) && InStep(e.control, e.renderer.published, e.renderer.position)
    ensures var e' := After(e, op);
            && Aligned(e'.control, ScoreAfter(e, op, s), e'.renderer.position)
            && InStep(e'.control, e'.renderer.published, e'.renderer.position)
  {
    hide Aligned, Observed, Processed, ScheduleAndLog, ScoreMoved, ScoreTicked, InStep;
    var c, position, now := e.control, e.renderer.published, e.renderer.position;
    MovedAligned(e, op, s);
    InStepKept(e, op);
    if op.Render? {
      var moved := Moved(c, op, position, now);
      var s1 := ScoreMoved(c, op, s, moved, now);
      assert moved.pendingFlush == None by { AlignedValid(moved, s1, now); }
      assert ControlStep(c, op, position, now) == ScheduleAndLog(moved, now);
      ScheduleAligned(moved, s1, now);
      AfterValid(e, op);
      var s2 := ScoreAfter(e, op, s);
      PopAligned(ScheduleAndLog(moved, now), After(e, op).control, s2, now);
      AfterMoves(e, op);
      AlignedLater(After(e, op).control, s2, now, After(e, op).renderer.position);
    }
  }

  lemma PopAligned(c: ControlState, c': ControlState, s: Score, now: nat)
    requires Aligned(c, s, now) && c'.Valid()
    requires c' == c.(queue := c.queue.(popped := c'.queue.popped))
    ensures Aligned(c', s, now)
  {
    hide Aligned, Spaced, Remembers, Counted, Consecutive, NextInOrder, Marked, FromQueue, Queues;
    AlignedValid(c, s, now);
    QueuesSame(c, c', s.plan, s.past, now);
    if c.scheduler.playing {
      SameMark(c, c', s.mark, LastSample(s.plan), now);
      SameNext(c, c', s.plan);
    }
    AlignedIs(c', s, now);
  }

  lemma AfterMoves(e: Engine, op: Op)
    requires e.Valid() && OpValid(op) && op.Render?
    ensures var r := After(e, op).renderer;
            r.position == e.renderer.position + op.frames && r.published == e.renderer.position
  {
    hide ControlStep, Pull, Play;
    var c := ControlStep(e.control, op, e.renderer.published, e.renderer.position);
    ControlStepValid(e.control, op, e.renderer.published, e.renderer.position);
    var pulled := e.renderer.(pending := Pull(e.renderer.pending, c.queue.Waiting()).0,
        published := e.renderer.position);
    PlayPosition(pulled, op.frames);
    PlayPublished(pulled, op.frames);
  }

  lemma {:induction false} PlayPublished(r: RenderState, n: nat)
    ensures Play(r, n).published == r.published
    decreases n
  {
    hide Stamp, DueCount;
    if n > 0 { PlayPublished(r, n - 1); }
  }

  lemma InStepKept(e: Engine, op: Op)
    requires e.Valid() && OpValid(op) && (op.Render? ==> op.frames >= 1)
    requires InStep(e.control, e.renderer.published, e.renderer.position)
    ensures var e' := After(e, op); InStep(e'.control, e'.renderer.published, e'.renderer.position)
  {
    hide ControlStep, Processed;
    if op.Render? {
      AfterMoves(e, op);
    } else if e.renderer.published == e.renderer.position {
      BlockUnlearned(e.control, op, e.renderer.position);
    }
  }

  /** Before anything is rendered there is no block to learn. */
  lemma BlockUnlearned(c: ControlState, op: Op, position: nat)
    requires c.Valid() && OpValid(op) && !op.Render? && position == c.published
    ensures var c' := ControlStep(c, op, position, position);
            c'.published == c.published && c'.renderBlock == c.renderBlock
  {
    hide FirstStepAtOrAfter, FlushFrom, CutFrom, RealignFrom, HalfStepAfter, StepSample, RestartAnchor;
    assert NoteRenderPosition(c, position) == c;
  }

  // ---- Whole runs ----

  ghost predicate AllFit(e: Engine, ops: seq<Op>, s: Score)
    requires e.Valid() && OpsValid(ops)
    decreases |ops|
  {
    ops == [] ||
    (AfterValid(e, ops[0]);
     Fits(e, ops[0], s) && AllFit(After(e, ops[0]), ops[1..], ScoreAfter(e, ops[0], s)))
  }

  /** The score of a whole run. */
  ghost function Scored(e: Engine, ops: seq<Op>, s: Score): Score
    requires e.Valid() && OpsValid(ops)
    decreases |ops|
  {
    if ops == [] then s
    else
      AfterValid(e, ops[0]);
      Scored(After(e, ops[0]), ops[1..], ScoreAfter(e, ops[0], s))
  }

  lemma {:induction false} RunAligned(e: Engine, ops: seq<Op>, s: Score)
    requires e.Valid() && OpsValid(ops) && AllFit(e, ops, s)
    requires Aligned(e.control, s, e.renderer.position) && InStep(e.control, e.renderer.published, e.renderer.position)
    ensures var e' := Run(e, ops); Aligned(e'.control, Scored(e, ops, s), e'.renderer.position)
    decreases |ops|
  {
    hide Aligned, Fits, After, ScoreAfter, InStep;
    if ops != [] {
      AfterValid(e, ops[0]);
      StepAligned(e, ops[0], s);
      RunAligned(After(e, ops[0]), ops[1..], ScoreAfter(e, ops[0], s));
    }
  }

  lemma {:induction false} HitsApart(plan: seq<Hit>, i: nat, j: nat)
    requires Spaced(plan) && i < j < |plan|
    ensures plan[j].queued.sample as real >= plan[i].queued.sample as real + plan[j].half
    decreases j
  {
    assert Follows(plan[j - 1].queued, plan[j]);
    if i < j - 1 {
      HitsApart(plan, i, j - 1);
      assert HitWhole(plan[j - 1]);
    }
  }

  /** However often a run's timeline jumps: the triggers that survive in the queue are those of
      whole planned steps and what was heard before the internal clock was last restarted; no two
      grid hits since then lie closer than half a step of the clock the later one was queued on;
      and the steps heard, planned and still to play make up the number configured. */
  lemma GridHitsApart(e: Engine, ops: seq<Op>, s: Score)
    requires e.Valid() && OpsValid(ops) && AllFit(e, ops, s)
    requires Aligned(e.control, s, e.renderer.position) && InStep(e.control, e.renderer.published, e.renderer.position)
    ensures var e', s' := Run(e, ops), Scored(e, ops, s);
            && OnlyTriggers(Survivors(e'.control.queue.pushed)) == s'.past + PlanEvents(s'.plan)
            && (forall t <- s'.past :: t.sample < e'.renderer.position)
            && (forall h <- s'.plan :: HitWhole(h))
            && (forall i, j :: 0 <= i < j < |s'.plan| ==>
                  s'.plan[j].queued.sample as real >= s'.plan[i].queued.sample as real + s'.plan[j].half)
            && var sch := e'.control.scheduler;
               sch.stopAt.Some? ==>
                 s'.played + |s'.plan| + (sch.stopAt.value - sch.nextStep) == s'.total
                     && sch.nextStep <= sch.stopAt.value
  {
    hide AllFit, Scored, Run, OnlyTriggers, Survivors, PlanEvents, HitWhole, Follows, NextInOrder, Aligned, Remembers,
         Consecutive, Marked, FromQueue;
    RunAligned(e, ops, s);
    var e', s' := Run(e, ops), Scored(e, ops, s);
    AlignedValid(e'.control, s', e'.renderer.position);
    forall i, j | 0 <= i < j < |s'.plan|
      ensures s'.plan[j].queued.sample as real >= s'.plan[i].queued.sample as real + s'.plan[j].half
    {
      HitsApart(s'.plan, i, j);
    }
  }

  /** A run that ends by itself has played and planned exactly the configured number of steps. */
  lemma EndedRunIsWhole(e: Engine, ops: seq<Op>, s: Score)
    requires e.Valid() && OpsValid(ops) && AllFit(e, ops, s)
    requires Aligned(e.control, s, e.renderer.position) && InStep(e.control, e.renderer.published, e.renderer.position)
    requires Run(e, ops).control.scheduler.AtEnd()
    ensures var s' := Scored(e, ops, s); s'.played + |s'.plan| == s'.total
  {
    hide AllFit, Scored, Run, OnlyTriggers, Survivors, PlanEvents, HitWhole, Follows, NextInOrder, Aligned, InStep;
    GridHitsApart(e, ops, s);
  }

  // ---- From a new engine on ----

  /** A new engine: stopped at sample 0 on the internal clock, with nothing queued. */
  predicate IsNew(e: Engine)
  {
    && e.Valid() && OneRate(e.control) && e.control.mode == FreeRunning
    && e.control.pendingFlush == None && e.control.log == [] && e.control.published == 0 && e.control.renderBlock == 0
    && e.control.queue.pushed == [] && e.control.queue.popped == 0
    && !e.control.scheduler.playing && e.control.scheduler.stopAt == None
    && e.renderer == RenderState(0, [], [], 0)
  }

  const SILENCE := Score([], 0, [], 0, Mark(0.0, 0.0, 1.0, 1.0, false, 0.0, 0.0))

  lemma NewIsAligned(e: Engine)
    requires IsNew(e)
    ensures Aligned(e.control, SILENCE, e.renderer.position)
    ensures InStep(e.control, e.renderer.published, e.renderer.position)
  {
  }

  /** A run of a new engine: all that was ever played or waits to be is the whole steps of its
      score, spaced and counted as above. */
  lemma NewEngineHitsApart(e: Engine, ops: seq<Op>)
    requires IsNew(e) && OpsValid(ops) && AllFit(e, ops, SILENCE)
    ensures var e', s' := Run(e, ops), Scored(e, ops, SILENCE);
            && OnlyTriggers(Survivors(e'.control.queue.pushed)) == s'.past + PlanEvents(s'.plan)
            && (forall h <- s'.plan :: HitWhole(h))
            && (forall i, j :: 0 <= i < j < |s'.plan| ==>
                  s'.plan[j].queued.sample as real >= s'.plan[i].queued.sample as real + s'.plan[j].half)
            && (e'.control.scheduler.AtEnd() ==> s'.played + |s'.plan| == s'.total)
  {
    hide *;
    NewValid(e);
    NewIsAligned(e);
    GridHitsApart(e, ops, SILENCE);
    if Run(e, ops).control.scheduler.AtEnd() { EndedRunIsWhole(e, ops, SILENCE); }
  }

  lemma NewValid(e: Engine)
    requires IsNew(e)
    ensures e.Valid()
  {
  }

  /** A start on the internal clock fits whatever was played before: at a tempo and a sample rate
      that leave a beat its 32 samples and flams their half step. */
  lemma StartFits(e: Engine, s: Score)
    requires e.Valid() && OneRate(e.control) && e.control.mode == FreeRunning && e.control.queue.Vacant() > 0
    requires AudioRate(e.control.Adjusted()) && FlamFits(e.control)
    requires e.control.scheduler.stopAfter.Some? ==> e.control.scheduler.stopAfter.value < U64_MAX
    ensures Fits(e, Start, s)
  {
    hide FlushFrom, StepSample, RestartAnchor;
    var c, now := e.control, e.renderer.position;
    var (noted, commit) := CommitPoint(c, e.renderer.published, now);
    RestartKeeps(noted, commit);
    RestartKeepsTempo(DropQueuedFrom(noted, commit).0, commit);
    var moved := Moved(c, Start, e.renderer.published, now);
    SameTempo(c, moved);
  }

  lemma RestartKeepsTempo(c: ControlState, sample: nat)
    requires c.Valid()
    ensures var c' := RestartInternalAt(c, sample);
            && c'.internal.bpm == c.internal.bpm && c'.internal.sampleRate == c.internal.sampleRate
            && c' == c.(internal := c'.internal)
  {
    hide StepSample, RestartAnchor;
  }

  lemma SameTempo(c: ControlState, c': ControlState)
    requires c.Valid() && c'.Valid() && c.mode == c'.mode == FreeRunning && c'.Pattern() == c.Pattern()
    requires c'.internal.bpm == c.internal.bpm && c'.internal.sampleRate == c.internal.sampleRate
    ensures AudioRate(c.Adjusted()) ==> AudioRate(c'.Adjusted())
    ensures FlamFits(c) ==> FlamFits(c')
  {
  }

  /** A render on the internal clock fits as long as no more than 32 steps get ahead. */
  lemma RenderFits(e: Engine, op: Op, s: Score)
    requires e.Valid() && op.Render? && OpValid(op) && op.frames >= 1
    requires e.control.mode == FreeRunning && OneRate(e.control) && e.control.queue.Vacant() > 0
    requires e.control.scheduler.stopAt != Some(U64_MAX)
    requires e.control.scheduler.playing ==> AudioRate(e.control.Adjusted()) && FlamFits(e.control)
    requires var noted := NoteRenderPosition(e.control, e.renderer.published);
             noted.Valid() && WithinMemory(noted, ScheduleAndLog(noted, e.renderer.position), e.renderer.position)
    ensures Fits(e, op, s)
  {
    hide ScheduleAndLog, WithinMemory, AudioRate, FlamFits, NoteRenderPosition;
    var noted := NoteRenderPosition(e.control, e.renderer.published);
    NotedKeeps(e.control, e.renderer.published);
    if e.control.scheduler.playing { FlamFitsSame(e.control, noted); }
    assert Moved(e.control, op, e.renderer.published, e.renderer.position) == noted;
  }

  /** The first tick behind a start queues step 0, and no more steps than the log remembers. */
  lemma FirstTick(c: ControlState)
    requires c.Valid() && c.mode == FreeRunning && AudioRate(c.Adjusted())
    requires c.scheduler.playing && c.scheduler.stopAt == None && c.scheduler.nextStep == 0 && c.log == []
    requires c.Adjusted().SampleAtBeat(0.0) == 0.0
    requires c.queue.Vacant() >= STEP_SLOTS + FLUSH_RESERVE
    requires 1 <= c.lookahead && c.lookahead as real <= 7.0 * c.internal.SamplesPerBeat()
    ensures WithinMemory(c, ScheduleAndLog(c, 0), 0) && ScheduleAndLog(c, 0).scheduler.nextStep >= 1
  {
    hide Scheduled, LogSteps, StepPosition, AudioRate, Stream;
    var p, clock := c.Pattern(), c.Adjusted();
    ScheduleRefines(c.scheduler, clock, c.lookahead, c.queue, []);
    NoStream(p, clock, 0);
    StepZeroPosition(c, 0);
    SevenBeats(c);
    var c' := ScheduleAndLog(c, 0);
    var end := c'.scheduler.nextStep;
    assert end > 28 ==> StepSample(p, clock, 28) < c.lookahead;
    LogLength(c.log, p, clock, 0, end);
  }

  lemma SevenBeats(c: ControlState)
    requires c.Valid() && c.mode == FreeRunning && c.Adjusted().SampleAtBeat(0.0) == 0.0
    requires c.lookahead as real <= 7.0 * c.internal.SamplesPerBeat()
    ensures StepPosition(c.Pattern(), c.Adjusted(), 28) >= c.lookahead
  {
    var l, spb := c.internal, c.internal.SamplesPerBeat();
    hide Line.SamplesPerBeat;
    assert c.Pattern().StepBeat(28) == 7.0;
    var x := c.controls.nudgeBeats - l.anchorBeat;
    Distribute(x, 7.0, spb);
    assert c.Adjusted().SampleAtBeat(7.0) == c.Adjusted().SampleAtBeat(0.0) + 7.0 * spb;
    RoundMonotone(c.lookahead as real, 7.0 * spb);
  }

  lemma {:induction false} LogLength(log: seq<Queued>, p: Pattern, c: AdjustedClock, first: nat, end: nat)
    requires p.Valid() && c.Valid() && first <= end && |log| + (end - first) < QUEUED_MEMORY
    ensures |LogSteps(log, p, c, first, end)| == |log| + (end - first)
    decreases end
  {
    hide StepSpan;
    if first < end { LogLength(log, p, c, first, end - 1); }
  }

  /** The theorem is about something: a new engine that is started and rendered fits, and has
      steps planned. */
  lemma NewEnginePlays(e: Engine, op: Op)
    requires IsNew(e) && AudioRate(e.control.Adjusted()) && FlamFits(e.control)
             && e.control.scheduler.stopAfter == None
    requires e.control.queue.capacity >= STEP_SLOTS + FLUSH_RESERVE
    requires 1 <= e.control.lookahead && e.control.lookahead as real <= 7.0 * e.control.internal.SamplesPerBeat()
    requires op.Render? && OpValid(op) && op.frames >= 1
    ensures OpsValid([Start, op]) && AllFit(e, [Start, op], SILENCE)
    ensures Scored(e, [Start, op], SILENCE).plan != []
  {
    hide AudioRate, FlamFits, Fits, ScoreMoved, ScheduleAndLog, RestartInternalAt, Aligned;
    StartFits(e, SILENCE);
    NewStarted(e);
    var e1, s1 := After(e, Start), ScoreAfter(e, Start, SILENCE);
    AfterValid(e, Start);
    var c := e1.control;
    FirstTick(c);
    RenderFits(e1, op, s1);
    AfterValid(e1, op);
    var moved := Moved(c, op, e1.renderer.published, e1.renderer.position);
    assert moved == c;
    assert ScoreAfter(e1, op, s1) == ScoreTicked(moved, ScoreMoved(c, op, s1, moved, 0), 0);
    TwoOps(e, Start, op, SILENCE);
  }

  /** What a start makes of a new engine. */
  lemma NewStarted(e: Engine)
    requires IsNew(e) && AudioRate(e.control.Adjusted()) && FlamFits(e.control)
             && e.control.scheduler.stopAfter == None
    ensures After(e, Start).Valid() && After(e, Start).renderer == e.renderer
    ensures var c := After(e, Start).control;
            && c.Valid() && c == e.control.(internal := c.internal, scheduler := e.control.scheduler.StartAt(0))
            && c.Adjusted().SampleAtBeat(0.0) == 0.0
            && c.internal.SamplesPerBeat() == e.control.internal.SamplesPerBeat()
            && AudioRate(c.Adjusted()) && FlamFits(c) && OneRate(c)
  {
    hide StepSample, RestartAnchor, AudioRate, FlamFits, RestartInternalAt;
    AfterValid(e, Start);
    var c0 := e.control;
    assert CommitPoint(c0, 0, 0) == (c0, 0);
    assert DropQueuedFrom(c0, 0) == (c0, c0.scheduler.nextStep);
    RestartPutsStepZero(c0, 0);
    RestartKeepsTempo(c0, 0);
    var c := After(e, Start).control;
    SameTempo(c0, c);
  }

  lemma TwoOps(e: Engine, a: Op, b: Op, s: Score)
    requires e.Valid() && OpValid(a) && OpValid(b) && After(e, a).Valid() && After(After(e, a), b).Valid()
    requires Fits(e, a, s) && Fits(After(e, a), b, ScoreAfter(e, a, s))
    ensures OpsValid([a, b]) && AllFit(e, [a, b], s)
    ensures Scored(e, [a, b], s) == ScoreAfter(After(e, a), b, ScoreAfter(e, a, s))
  {
    hide Fits, After, ScoreAfter;
    assert [a, b][1..] == [b] && [b][1..] == [];
    var e1, s1 := After(e, a), ScoreAfter(e, a, s);
    AfterValid(e, a);
    AfterValid(e1, b);
    assert AllFit(e1, [b], s1) && Scored(e1, [b], s1) == ScoreAfter(e1, b, s1);
  }
}
