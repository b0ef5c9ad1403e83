/** Over whole lockstep runs: no two grid hits land closer than half a step, however often the
    timeline jumps, and the number of steps left to play survives every jump. */
module GridHits {
  import opened Numbers
  import opened Clock
  import opened Pattern
  import opened Scheduling
  import opened QueuedLogs
  import opened Rendering
  import opened Controlling
  import opened Engines
  import opened Pacing
  import opened Realigning
  import opened Restarting
  import opened Ordering

  // ---- A tick extends the plan ----

  function NewHit(p: Pattern, c: AdjustedClock, step: nat): Hit
    requires p.Valid() && c.Valid()
  {
    var span := StepSpan(p, c, step);
    Hit(Queued(step, span.0, span.1), StepEvents(p, c, step), HalfStep(c.inner))
  }

  function NewHits(p: Pattern, c: AdjustedClock, first: nat, end: nat): (hits: seq<Hit>)
    requires p.Valid() && c.Valid() && first <= end
    ensures |hits| == end - first
    decreases end
  {
    if first == end then [] else NewHits(p, c, first, end - 1) + [NewHit(p, c, end - 1)]
  }

  /** The grid hit of `step` on clock `c` lies half a step behind the last planned one, and its
      grace note, if it has one, behind that too. */
  ghost predicate Behind(p: Pattern, c: AdjustedClock, plan: seq<Hit>, step: nat)
    requires p.Valid() && c.Valid()
  {
    && StepPosition(p, c, step) >= 0
    && (plan != [] ==>
          && StepPosition(p, c, step) as real >= plan[|plan| - 1].queued.sample as real + HalfStep(c.inner)
          && (p.HasFlam(step) ==> StepPosition(p, c, step) > plan[|plan| - 1].queued.sample + FlamSamples(p, c)))
  }

  lemma NewHitFollows(p: Pattern, c: AdjustedClock, plan: seq<Hit>, step: nat)
    requires p.Valid() && c.Valid() && Behind(p, c, plan, step)
    ensures HitWhole(NewHit(p, c, step)) && NewHit(p, c, step).queued.sample == StepSample(p, c, step)
    ensures plan != [] ==> Follows(plan[|plan| - 1].queued, NewHit(p, c, step))
  {
    HalfStepAbove(c.inner);
    hide StepPosition, FlamSamples, StepEvents, HalfStep, Pattern.HasFlam;
    StepEventsInSpan(p, c, step);
  }

  lemma HalfStepAbove(c: ActiveClock)
    requires c.Valid()
    ensures HalfStep(c) > 0.0
  {
  }

  /** The grace note of the step behind `step` comes behind it. */
  ghost predicate FlamClears(p: Pattern, c: AdjustedClock, step: nat)
    requires c.Valid()
  {
    StepPosition(p, c, step + 1) > StepPosition(p, c, step) + FlamSamples(p, c)
  }

  lemma FlamsClear(c: ControlState)
    requires c.Valid() && FlamFits(c)
    ensures forall step: nat :: FlamClears(c.Pattern(), c.Adjusted(), step)
  {
    hide StepPosition, FlamSamples;
    forall step: nat
      ensures FlamClears(c.Pattern(), c.Adjusted(), step)
    {
      FlamBehind(c, step);
    }
  }

  lemma SpacedExtends(plan: seq<Hit>, h: Hit)
    requires Spaced(plan) && HitWhole(h) && (plan != [] ==> Follows(plan[|plan| - 1].queued, h))
    ensures Spaced(plan + [h])
  {
  }

  lemma {:induction false} NewHitsSpaced(p: Pattern, c: AdjustedClock, plan: seq<Hit>, first: nat, end: nat)
    requires p.Valid() && AudioRate(c) && first <= end && forall step: nat :: FlamClears(p, c, step)
    requires Spaced(plan) && Behind(p, c, plan, first)
    ensures Spaced(plan + NewHits(p, c, first, end)) && Behind(p, c, plan + NewHits(p, c, first, end), end)
    decreases end
  {
    hide StepPosition, FlamSamples, StepEvents, HalfStep, Spaced, HitWhole, Follows, Pattern.HasFlam;
    if first == end {
      assert plan + NewHits(p, c, first, end) == plan;
    } else {
      NewHitsSpaced(p, c, plan, first, end - 1);
      var longer := plan + NewHits(p, c, first, end - 1);
      NewHitFollows(p, c, longer, end - 1);
      SpacedExtends(longer, NewHit(p, c, end - 1));
      NextStepIsHalfAStepOn(p, c, end - 1);
      assert FlamClears(p, c, end - 1);
      assert plan + NewHits(p, c, first, end) == longer + [NewHit(p, c, end - 1)];
    }
  }

  lemma {:induction false} NewHitsAt(p: Pattern, c: AdjustedClock, first: nat, end: nat, k: nat)
    requires p.Valid() && c.Valid() && first <= k < end
    ensures NewHits(p, c, first, end)[k - first] == NewHit(p, c, k)
    decreases end
  {
    hide StepEvents, StepSpan, HalfStep;
    if k < end - 1 { NewHitsAt(p, c, first, end - 1, k); }
  }

  lemma {:induction false} NewHitsEvents(p: Pattern, c: AdjustedClock, plan: seq<Hit>, first: nat, end: nat)
    requires p.Valid() && c.Valid() && first <= end
    ensures PlanEvents(plan + NewHits(p, c, first, end)) == PlanEvents(plan) + Stream(p, c, first, end)
    decreases end
  {
    hide StepEvents, StepSpan, HalfStep, PlanEvents;
    if first == end {
      assert plan + NewHits(p, c, first, end) == plan;
    } else {
      NewHitsEvents(p, c, plan, first, end - 1);
      var longer := plan + NewHits(p, c, first, end - 1);
      assert plan + NewHits(p, c, first, end) == longer + [NewHit(p, c, end - 1)];
      PlanEventsPush(longer, NewHit(p, c, end - 1));
      assert PlanEvents(plan) + (Stream(p, c, first, end - 1) + StepEvents(p, c, end - 1))
             == PlanEvents(longer) + StepEvents(p, c, end - 1);
    }
  }

  lemma PlanEventsPush(plan: seq<Hit>, h: Hit)
    ensures PlanEvents(plan + [h]) == PlanEvents(plan) + h.events
  {
    assert (plan + [h])[..|plan|] == plan;
  }

  /** The log holds the newest steps of the plan, and before them only steps that are heard. */
  ghost predicate IsTail(log: seq<Queued>, plan: seq<Hit>, now: nat)
  {
    && |log| <= QUEUED_MEMORY
    && (forall i :: 0 <= i < Earlier(log, plan) ==> log[i].first <= log[i].sample < now)
    && (forall i :: Earlier(log, plan) <= i < |log| ==> log[i] == plan[|plan| - |log| + i].queued)
  }

  lemma RemembersTail(log: seq<Queued>, plan: seq<Hit>, now: nat)
    ensures Remembers(log, plan, now)
            <==> IsTail(log, plan, now) && (|log| < |plan| ==> log != [] && log[0].first < now)
  {
    var k := Earlier(log, plan);
    var own := log[k..];
    if Remembers(log, plan, now) {
      forall i | k <= i < |log|
        ensures log[i] == plan[|plan| - |log| + i].queued
      {
        assert own[i - k] == plan[|plan| - |own| + (i - k)].queued;
      }
    }
  }

  lemma TailExtends(log: seq<Queued>, plan: seq<Hit>, h: Hit, now: nat)
    requires IsTail(log, plan, now)
    ensures IsTail(Remember(log, h.queued), plan + [h], now)
  {
  }

  /** Logging the new steps keeps the log the tail of the plan; as long as nothing was forgotten,
      the oldest entry stays. */
  lemma {:induction false} LogIsTail(p: Pattern, c: AdjustedClock, log: seq<Queued>, plan: seq<Hit>,
                                     first: nat, end: nat, now: nat)
    requires p.Valid() && c.Valid() && first <= end && IsTail(log, plan, now)
    ensures var log' := LogSteps(log, p, c, first, end);
            && IsTail(log', plan + NewHits(p, c, first, end), now)
            && |log'| == Min(|log| + (end - first), QUEUED_MEMORY)
            && (|log| + (end - first) <= QUEUED_MEMORY && log != [] ==> log'[0] == log[0])
    decreases end
  {
    hide StepEvents, StepSpan, HalfStep, IsTail;
    if first == end {
      assert plan + NewHits(p, c, first, end) == plan;
      assert |log| <= QUEUED_MEMORY by { TailIsShort(log, plan, now); }
    } else {
      LogIsTail(p, c, log, plan, first, end - 1, now);
      var longer := plan + NewHits(p, c, first, end - 1);
      TailExtends(LogSteps(log, p, c, first, end - 1), longer, NewHit(p, c, end - 1), now);
      assert plan + NewHits(p, c, first, end) == longer + [NewHit(p, c, end - 1)];
    }
  }

  lemma TailIsShort(log: seq<Queued>, plan: seq<Hit>, now: nat)
    requires IsTail(log, plan, now)
    ensures |log| <= QUEUED_MEMORY
  {
  }

  lemma LogRemembers(p: Pattern, c: AdjustedClock, log: seq<Queued>, plan: seq<Hit>, first: nat, end: nat, now: nat)
    requires p.Valid() && c.Valid() && first <= end && Remembers(log, plan, now)
    requires var log' := LogSteps(log, p, c, first, end); |log'| == QUEUED_MEMORY ==> log'[0].first < now
    ensures Remembers(LogSteps(log, p, c, first, end), plan + NewHits(p, c, first, end), now)
  {
    hide LogSteps, NewHits, Remembers, IsTail;
    RemembersTail(log, plan, now);
    LogIsTail(p, c, log, plan, first, end, now);
    RemembersTail(LogSteps(log, p, c, first, end), plan + NewHits(p, c, first, end), now);
  }

  lemma NewHitsConsecutive(p: Pattern, c: AdjustedClock, plan: seq<Hit>, first: nat, end: nat, now: nat)
    requires p.Valid() && c.Valid() && first <= end && Consecutive(plan, first, now)
    ensures Consecutive(plan + NewHits(p, c, first, end), end, now)
  {
    hide NewHits, NewHit;
    var plan' := plan + NewHits(p, c, first, end);
    forall i | 0 <= i < |plan'| && plan'[i].queued.first >= now
      ensures plan'[i].queued.step + (|plan'| - i) == end
    {
      if i >= |plan| {
        NewHitsAt(p, c, first, end, first + (i - |plan|));
        NewHitStep(p, c, first + (i - |plan|));
      }
    }
  }

  lemma NewHitStep(p: Pattern, c: AdjustedClock, step: nat)
    requires p.Valid() && c.Valid()
    ensures NewHit(p, c, step).queued.step == step
  {
  }

  lemma NewHitsQueue(p: Pattern, c: AdjustedClock, plan: seq<Hit>, past: seq<Event>, pushed: seq<Event>,
                     first: nat, end: nat)
    requires p.Valid() && c.Valid() && first <= end
    requires OnlyTriggers(Survivors(pushed)) == past + PlanEvents(plan)
    ensures OnlyTriggers(Survivors(pushed + Stream(p, c, first, end)))
            == past + PlanEvents(plan + NewHits(p, c, first, end))
  {
    hide Survivors, OnlyTriggers, PlanEvents, Stream, NewHits;
    var stream := Stream(p, c, first, end);
    StreamIsTriggers(p, c, first, end);
    SurvivorsWithoutFlush(pushed, stream);
    OnlyTriggersConcat(Survivors(pushed), stream);
    OnlyTriggersAll(stream);
    NewHitsEvents(p, c, plan, first, end);
    assert past + (PlanEvents(plan) + stream) == past + PlanEvents(plan) + stream;
  }

  /** What a tick adds to the plan. */
  function TickHits(c: ControlState, now: nat): seq<Hit>
    requires c.Valid()
  {
    ScheduleAndLogGrows(c, now);
    NewHits(c.Pattern(), c.Adjusted(), c.scheduler.nextStep, ScheduleAndLog(c, now).scheduler.nextStep)
  }

  lemma ScheduleAndLogGrows(c: ControlState, now: nat)
    requires c.Valid()
    ensures ScheduleAndLog(c, now).scheduler.nextStep >= c.scheduler.nextStep
  {
    hide Scheduled, LogSteps;
    ScheduleRefines(c.scheduler, c.Adjusted(), now + c.lookahead, c.queue, []);
  }

  /** The log reaches back to what has been heard: no more than 32 steps are ahead. */
  predicate WithinMemory(c: ControlState, c': ControlState, now: nat)
  {
    && c'.scheduler.nextStep <= c.scheduler.nextStep + QUEUED_MEMORY
    && (|c'.log| == QUEUED_MEMORY ==> c'.log[0].first < now)
  }

  /** What scheduling does, in the terms of the plan. */
  lemma ScheduleShape(c: ControlState, now: nat)
    requires c.Valid() && WithinMemory(c, ScheduleAndLog(c, now), now)
    ensures var c' := ScheduleAndLog(c, now);
            var first, end := c.scheduler.nextStep, c'.scheduler.nextStep;
            && c'.Valid() && first <= end
            && c' == c.(scheduler := c'.scheduler, queue := c'.queue, log := c'.log)
            && c'.scheduler == c.scheduler.(nextStep := end, playing := c'.scheduler.playing)
            && (c'.scheduler.playing ==> c.scheduler.playing) && (!c.scheduler.playing ==> end == first)
            && c'.queue.pushed == c.queue.pushed + Stream(c.Pattern(), c.Adjusted(), first, end)
            && c'.log == LogSteps(c.log, c.Pattern(), c.Adjusted(), first, end)
            && (end > first && c.scheduler.stopAt.Some? ==> end <= c.scheduler.stopAt.value)
            && (end > first ==> StepPosition(c.Pattern(), c.Adjusted(), end - 1) < now + c.lookahead)
  {
    hide Scheduled, LogSteps, Stream;
    ScheduleRefines(c.scheduler, c.Adjusted(), now + c.lookahead, c.queue, []);
    ScheduleAndLogValid(c, now);
    var end := ScheduleAndLog(c, now).scheduler.nextStep;
    if end > c.scheduler.nextStep { var last := StepSample(c.Pattern(), c.Adjusted(), end - 1); }
  }

  /** The score after scheduling: the steps queued, and a mark taken if there were any. */
  ghost function ScoreTicked(c: ControlState, s: Score, now: nat): Score
    requires c.Valid()
  {
    var hits := TickHits(c, now);
    ScheduleAndLogValid(c, now);
    ScheduleAndLogGrows(c, now);
    s.(plan := s.plan + hits, mark := if hits == [] then s.mark else QueuedMark(ScheduleAndLog(c, now), now))
  }

  lemma ScheduleAligned(c: ControlState, s: Score, now: nat)
    requires Aligned(c, s, now) && WithinMemory(c, ScheduleAndLog(c, now), now)
    ensures Aligned(ScheduleAndLog(c, now), ScoreTicked(c, s, now), now)
  {
    hide Spaced, Survivors, OnlyTriggers, PlanEvents, Stream, LogSteps, NewHits, StepPosition, AudioRate, HalfStep,
         FlamSamples, ScheduleAndLog, Consecutive, Remembers, Marked, FromQueue, QueuedMark;
    ScheduleShape(c, now);
    var c' := ScheduleAndLog(c, now);
    var p, clock, first, end := c.Pattern(), c.Adjusted(), c.scheduler.nextStep, c'.scheduler.nextStep;
    LogRemembers(p, clock, c.log, s.plan, first, end, now);
    NewHitsConsecutive(p, clock, s.plan, first, end, now);
    NewHitsQueue(p, clock, s.plan, s.past, c.queue.pushed, first, end);
    if c.scheduler.playing {
      FlamsClear(c);
      InOrderBehind(c, s.plan);
      NewHitsSpaced(p, clock, s.plan, first, end);
      if end > first {
        NewHitsSpaced(p, clock, s.plan, first, end - 1);
        NewestHit(p, clock, s.plan, first, end);
        QueueingMarks(c', now);
      } else {
        assert s.plan + TickHits(c, now) == s.plan;
        SameMark(c, c', s.mark, LastSample(s.plan), now);
      }
    } else {
      assert s.plan + TickHits(c, now) == s.plan;
    }
  }

  lemma InOrderBehind(c: ControlState, plan: seq<Hit>)
    requires c.Valid()
    ensures InOrder(c, LastSample(plan)) <==> Behind(c.Pattern(), c.Adjusted(), plan, c.scheduler.nextStep)
  {
  }

  lemma NewestHit(p: Pattern, c: AdjustedClock, plan: seq<Hit>, first: nat, end: nat)
    requires p.Valid() && c.Valid() && first < end
    requires Behind(p, c, plan + NewHits(p, c, first, end - 1), end - 1)
    ensures LastSample(plan + NewHits(p, c, first, end)) == Some(StepSample(p, c, end - 1))
    ensures StepPosition(p, c, end - 1) >= 0
  {
    NewHitsAt(p, c, first, end, end - 1);
  }

  lemma SameMark(c: ControlState, c': ControlState, m: Mark, last: Option<nat>, now: nat)
    requires c.Valid() && c'.Valid() && c'.Pattern() == c.Pattern() && c'.Adjusted() == c.Adjusted()
    requires c'.scheduler.nextStep == c.scheduler.nextStep && c'.lookahead == c.lookahead
    ensures Marked(c, m, now) ==> Marked(c', m, now)
    ensures FromQueue(c, m, last) ==> FromQueue(c', m, last)
  {
  }

  // ---- One call ----

  /** The score after a call, before a render's tick schedules. */
  ghost function ScoreMoved(c: ControlState, op: Op, s: Score, moved: ControlState, now: nat): Score
    requires c.Valid() && moved.Valid()
  {
    var n := c.scheduler.stopAfter;
    if Restarts(c, op) then
      RestartScore(s, moved, if op.Start? && n.Some? then s.played + |Replanned(s.plan, now)| + n.value else s.total,
          now)
    else if Realigns(c, op) || Joins(c, op) then
      var plan' := Replanned(s.plan, CutFrom(c.log, now, None).flush);
      s.(plan := plan', mark := FreshMark(moved, now),
         total := if op.Start? && n.Some? then s.played + |plan'| + n.value else s.total)
    else
      s.(mark := Repaced(c, moved, s.mark, now),
         total := if op.SetStopAfter? && op.steps.Some? then s.played + |s.plan| + op.steps.value else s.total)
  }

  ghost function ScoreAfter(e: Engine, op: Op, s: Score): Score
    requires e.Valid() && OpValid(op)
  {
    var now := e.renderer.position;
    var moved := Moved(e.control, op, e.renderer.published, now);
    var s' := ScoreMoved(e.control, op, s, moved, now);
    if op.Render? then ScoreTicked(moved, s', now) else s'
  }

  /** What a call is asked to meet: room for a flush, clocks at an audio rate that count the
      engine's samples, flams shorter than a step, a jump that finds its step, clear of what was
      heard, a change of clock or pattern that leaves the next step in order, no re-sync while a flam
      is half heard behind which a jump went elsewhere, no more than 32 steps ahead, and no stop
      position past 64 bits. */
  ghost predicate Fits(e: Engine, op: Op, s: Score)
    requires e.Valid() && OpValid(op)
  {
    var c, now := e.control, e.renderer.position;
    var moved := Moved(c, op, e.renderer.published, now);
    && c.queue.Vacant() > 0 && OneRate(moved) && moved.scheduler.stopAt != Some(U64_MAX)
    && (moved.scheduler.playing ==> AudioRate(moved.Adjusted()) && FlamFits(moved))
    && (Realigns(c, op) ==>
          FindsStep(c.log, moved.Pattern(), moved.Adjusted(), SaturatingSub(now, c.Grace()), now))
    && (Joins(c, op) ==> FindsStep(c.log, moved.Pattern(), moved.Adjusted(), now, now))
    && (Realigns(c, op) || Joins(c, op) ==>
          GraceClears(moved, Replanned(s.plan, CutFrom(c.log, now, None).flush)))
    && (Restarts(c, op) && op.Resync? && c.scheduler.stopAt.Some? ==> NoJumpSince(c.log, c.scheduler.nextStep, now))
    && (!MovesCursor(c, op) && moved.scheduler.playing && Changes(c, moved) ==>
          NextFits(c, op, LastSample(s.plan), now))
    && (op.Render? ==> op.frames >= 1 && WithinMemory(moved, ScheduleAndLog(moved, now), now))
  }

  /** In lockstep the commit point is the render position: either the renderer is past what it
      last published, or it has rendered nothing yet. */
  predicate InStep(c: ControlState, published: nat, position: nat)
  {
    published < position || (published == position == c.published && c.renderBlock == 0)
  }

  lemma CommitsNow(c: ControlState, published: nat, position: nat)
    requires InStep(c, published, position)
    ensures CommitPoint(c, published, position).1 == position
    ensures InStep(NoteRenderPosition(c, published), published, position)
  {
  }

  // ---- Calls that leave the cursor alone ----

  lemma AlignedLater(c: ControlState, s: Score, now: nat, later: nat)
    requires Aligned(c, s, now) && now <= later
    ensures Aligned(c, s, later)
  {
    hide Spaced, NextInOrder, Marked, FromQueue, Survivors, OnlyTriggers, PlanEvents;
    if c.scheduler.playing { MarkedLater(c, s.mark, now, later); }
    RemembersLater(c.log, s.plan, now, later);
  }

  lemma RemembersLater(log: seq<Queued>, plan: seq<Hit>, now: nat, later: nat)
    requires Remembers(log, plan, now) && now <= later
    ensures Remembers(log, plan, later)
  {
  }

  lemma AlignedValid(c: ControlState, s: Score, now: nat)
    requires Aligned(c, s, now)
    ensures c.Valid() && c.pendingFlush == None && OneRate(c) && Counted(c.scheduler, s.plan, s.total - s.played)
    ensures Spaced(s.plan) && Remembers(c.log, s.plan, now) && (|c.log| == QUEUED_MEMORY ==> c.log[0].first < now)
    ensures Consecutive(s.plan, c.scheduler.nextStep, now) && Queues(c, s.plan, s.past, now)
    ensures c.scheduler.playing ==>
              NextInOrder(c, s.plan) && Marked(c, s.mark, now) && FromQueue(c, s.mark, LastSample(s.plan))
  {
    hide Spaced, Remembers, Counted, Consecutive, Queues, NextInOrder, Marked, FromQueue;
  }

  /** The queue, the log and the cursor are as they were. */
  predicate Quiet(c: ControlState, c': ControlState)
  {
    && c'.queue == c.queue && c'.log == c.log && c'.pendingFlush == c.pendingFlush && c'.sampleRate == c.sampleRate
    && c'.lookahead == c.lookahead && c'.scheduler.nextStep == c.scheduler.nextStep
    && (c'.scheduler.playing ==> c.scheduler.playing)
  }

  lemma QuietAligned(c: ControlState, c': ControlState, s: Score, total: int, now: nat)
    requires Aligned(c, s, now) && c'.Valid() && Quiet(c, c') && OneRate(c')
    requires Counted(c'.scheduler, s.plan, total - s.played)
    requires c'.scheduler.playing ==> AudioRate(c'.Adjusted()) && FlamFits(c')
    requires c'.scheduler.playing && Changes(c, c') ==> InOrder(c', LastSample(s.plan))
    requires c.Valid()
    ensures Aligned(c', s.(mark := Repaced(c, c', s.mark, now), total := total), now)
  {
    hide Spaced, Remembers, Counted, Consecutive, AudioRate, FlamFits, Marked, FromQueue, InOrder, Repaced, Survivors,
         OnlyTriggers, PlanEvents, Aligned;
    AlignedValid(c, s, now);
    if c'.scheduler.playing {
      SameClock(c, c');
      RepacedIsMarked(c, c', s.mark, LastSample(s.plan), now);
      if !Changes(c, c') { SameInOrder(c, c', LastSample(s.plan)); }
    }
    AlignedIs(c', s.(mark := Repaced(c, c', s.mark, now), total := total), now);
  }

  lemma AlignedIs(c: ControlState, s: Score, now: nat)
    requires c.Valid() && c.pendingFlush == None && OneRate(c) && Counted(c.scheduler, s.plan, s.total - s.played)
    requires Spaced(s.plan) && Remembers(c.log, s.plan, now) && (|c.log| == QUEUED_MEMORY ==> c.log[0].first < now)
    requires Consecutive(s.plan, c.scheduler.nextStep, now) && Queues(c, s.plan, s.past, now)
    requires c.scheduler.playing ==>
               NextInOrder(c, s.plan) && Marked(c, s.mark, now) && FromQueue(c, s.mark, LastSample(s.plan))
    ensures Aligned(c, s, now)
  {
    hide Spaced, Remembers, Counted, Consecutive, Queues, NextInOrder, Marked, FromQueue;
  }

  lemma SameClock(c: ControlState, c': ControlState)
    requires c.Valid() && c'.Valid() && OneRate(c) && OneRate(c') && c'.sampleRate == c.sampleRate
    ensures c'.controls == c.controls ==> Latency(c') == Latency(c)
    ensures !Changes(c, c') ==> forall sample :: c'.Active().BeatAtSample(sample) == c.Active().BeatAtSample(sample)
  {
  }

  lemma SameInOrder(c: ControlState, c': ControlState, last: Option<nat>)
    requires c.Valid() && c'.Valid() && !Changes(c, c') && c'.scheduler.nextStep == c.scheduler.nextStep
    ensures InOrder(c, last) ==> InOrder(c', last)
  {
  }

  lemma ParamAligned(c: ControlState, e: Event, s: Score, now: nat)
    requires c.Valid() && Aligned(c, s, now) && e.kind.Param?
    ensures var c' := PushReserved(c, e); c'.Valid() && Aligned(c', s.(mark := Repaced(c, c', s.mark, now)), now)
  {
    hide Spaced, Survivors, OnlyTriggers, PlanEvents, NextInOrder, Remembers, Counted, Consecutive, Aligned, Repaced,
         Marked, FromQueue, AudioRate, FlamFits;
    AlignedValid(c, s, now);
    var c' := PushReserved(c, e);
    SurvivorsPush(c.queue.pushed, e);
    OnlyTriggersConcat(Survivors(c.queue.pushed), [e]);
    OnlyTriggersNone(e);
    if c.scheduler.playing { OrderRates(c, s.plan); }
    QuietAligned(c, c, s, s.total, now);
    SameRepaced(c, c', s.mark, now);
    var s' := s.(mark := Repaced(c, c', s.mark, now));
    AlignedValid(c, s', now);
    if c.scheduler.playing {
      SameMark(c, c', s'.mark, LastSample(s.plan), now);
      SameNext(c, c', s.plan);
    }
    AlignedIs(c', s', now);
  }

  lemma OrderRates(c: ControlState, plan: seq<Hit>)
    requires c.Valid() && NextInOrder(c, plan)
    ensures AudioRate(c.Adjusted()) && FlamFits(c)
  {
  }

  lemma SameRepaced(c: ControlState, c': ControlState, m: Mark, now: nat)
    requires c.Valid() && c'.Valid() && c'.Pattern() == c.Pattern() && c'.mode == c.mode && c'.internal == c.internal
    requires c'.follower == c.follower && c'.controls == c.controls && c'.scheduler == c.scheduler
    requires c'.lookahead == c.lookahead
    ensures Repaced(c, c', m, now) == Repaced(c, c, m, now)
  {
    hide Margin, Fastest, Slowest, BeatOf, Latency, Reach, BeatsAhead, ActiveClock.BeatAtSample, Pattern.StepBeat;
    SameMeasures(c, c', now);
    assert Shifted(c, c', m) == Shifted(c, c, m) && FreshMark(c', now) == FreshMark(c, now);
  }

  /** A mark is made and judged by the pattern, the clock, the controls and the cursor. */
  lemma SameMeasures(c: ControlState, c': ControlState, now: nat)
    requires c.Valid() && c'.Valid() && c'.Pattern() == c.Pattern() && c'.mode == c.mode && c'.internal == c.internal
    requires c'.follower == c.follower && c'.controls == c.controls && c'.scheduler == c.scheduler
    requires c'.lookahead == c.lookahead
    ensures c'.Active() == c.Active() && BeatsAhead(c', now) == BeatsAhead(c, now)
    ensures Reach(c') == Reach(c) && Margin(c') == Margin(c)
  {
    assert c'.Active() == c.Active() && c'.Adjusted() == c.Adjusted();
    hide ControlState.Active, ControlState.Adjusted, Fastest, Slowest, ActiveClock.BeatAtSample;
  }

  lemma SameNext(c: ControlState, c': ControlState, plan: seq<Hit>)
    requires c.Valid() && c'.Valid() && !Changes(c, c') && c'.scheduler.nextStep == c.scheduler.nextStep
    ensures NextInOrder(c, plan) ==> NextInOrder(c', plan)
  {
  }

  lemma OnlyTriggersNone(e: Event)
    requires !e.kind.Trigger?
    ensures OnlyTriggers([e]) == []
  {
    assert [e][..0] == [];
  }
}
