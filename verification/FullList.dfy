/** A run that fills the renderer's list: with five seconds of lookahead a restart's flush stays
    in the queue, and a step it takes back is played. */
module FullLists {
  import opened Numbers
  import opened Clock
  import opened Pattern
  import opened Scheduling
  import opened QueuedLogs
  import opened Rendering
  import opened Controlling
  import opened Engines
  import opened BlockSizes
  import opened Pacing
  import opened Realigning
  import opened GridHits
  import opened GridRuns

  // ---- A pull up to the last place of the list ----

  /** With no flush among the first `n` and no room for all of them, a pull takes what fits. */
  lemma {:induction false} PullFills(pending: seq<Event>, waiting: seq<Event>, n: nat)
    requires |pending| <= PENDING_CAPACITY <= |pending| + n && n <= |waiting| && NoFlush(waiting[..n])
    ensures var m := PENDING_CAPACITY - |pending|;
            Pull(pending, waiting) == (InsertAll(pending, waiting[..m]), waiting[m..])
    decreases |waiting|
  {
    hide Insert;
    PullNext(pending, waiting);
    if |pending| == PENDING_CAPACITY {
      assert waiting[..0] == [] && waiting[0..] == waiting;
    } else {
      var m := PENDING_CAPACITY - |pending|;
      assert waiting[0] in waiting[..n];
      assert forall w <- waiting[1..][..n - 1] :: w in waiting[..n];
      PullFills(Insert(pending, waiting[0]), waiting[1..], n - 1);
      assert InsertAll(pending, [waiting[0]]) == Insert(pending, waiting[0]) by { assert [waiting[0]][..0] == []; }
      InsertAllConcat(pending, [waiting[0]], waiting[1..][..m - 1]);
      assert [waiting[0]] + waiting[1..][..m - 1] == waiting[..m];
    }
  }

  lemma InsertAllHolds(pending: seq<Event>, es: seq<Event>, t: Event)
    requires Sorted(pending) && (t in pending || t in es)
    ensures t in InsertAll(pending, es)
  {
    hide InsertAll, Sorted;
    InsertAllKeeps(pending, es);
    assert t in multiset(pending) + multiset(es);
  }

  // ---- The song: ten hits on every step, 6000 samples apart ----

  lemma {:induction false} TenHits(c: AdjustedClock, step: nat, voices: nat)
    requires c.Valid() && voices <= VOICE_COUNT
    ensures EveryStep().Valid() && |EventsOfFirst(EveryStep(), c, step, voices)| == voices
    ensures forall e <- EventsOfFirst(EveryStep(), c, step, voices) ::
              e.kind.Trigger? && e.sample == StepSample(EveryStep(), c, step)
  {
    hide StepSample;
    if voices > 0 {
      TenHits(c, step, voices - 1);
      assert EveryStep().At(voices - 1, step) == Step(true, false, false);
    }
  }

  lemma {:induction false} SongFrom(c: AdjustedClock, first: nat, end: nat)
    requires c.Valid() && first <= end
    requires forall k :: first <= k < end ==> StepSample(EveryStep(), c, k) == 6000 * k
    ensures EveryStep().Valid() && |Stream(EveryStep(), c, first, end)| == 10 * (end - first)
    ensures forall e <- Stream(EveryStep(), c, first, end) :: e.kind.Trigger? && e.sample >= 6000 * first
    decreases end
  {
    hide StepSample, EventsOfFirst;
    TenHits(c, 0, 0);
    if first < end {
      SongFrom(c, first, end - 1);
      TenHits(c, end - 1, VOICE_COUNT);
    }
  }

  /** 120 BPM from sample 0 at 48 kHz. */
  ghost predicate SixThousand(c: AdjustedClock)
  {
    c == AdjustedClock(Internal(Line(48000.0, 120.0, 0.0, 0.0)), Controls(0.0, 0.0))
  }

  lemma SixThousandApart(c: AdjustedClock, k: nat)
    requires SixThousand(c)
    ensures c.Valid() && StepSample(EveryStep(), c, k) == 6000 * k
  {
    var l := c.inner.line;
    assert l.SamplesPerBeat() == 24000.0;
    assert EveryStep().StepBeat(k) == k as real * 0.25;
    assert c.SampleAtBeat(k as real * 0.25) == (6000 * k) as real;
  }

  // ---- The run ----

  /** A new engine at 48 kHz and 120 BPM with every voice on every step and five seconds of
      lookahead. */
  ghost predicate FarAhead(e: Engine)
  {
    && IsNew(e) && e.control.scheduler == SchedulerState(EveryStep(), 0, false, None, None)
    && e.control.internal == Line(48000.0, 120.0, 0.0, 0.0) && e.control.controls == Controls(0.0, 0.0)
    && e.control.lookahead == 240000 && e.control.queue.capacity == EVENT_QUEUE_CAPACITY
  }

  lemma FarAheadAudible(e: Engine)
    requires FarAhead(e)
    ensures e.Valid() && SixThousand(e.control.Adjusted()) && AudioRate(e.control.Adjusted()) && FlamFits(e.control)
  {
    AudioRateSuffices(e.control.internal, e.control.controls);
    assert e.control.internal.SamplesPerBeat() == 24000.0;
    assert EveryStep().FlamSeconds() == 0.008;
    assert EveryStep().FlamSeconds() * 48000.0 == 384.0;
  }

  /** The first tick queues at least 27 steps: more than the list holds. */
  lemma TickOverfills(c: ControlState)
    requires c.Valid() && c.mode == FreeRunning && SixThousand(c.Adjusted()) && c.lookahead == 240000
    requires c.scheduler == SchedulerState(EveryStep(), 0, true, None, None)
    requires c.queue.pushed == [] && c.queue.popped == 0 && c.queue.capacity == EVENT_QUEUE_CAPACITY
    ensures var c' := ScheduleAndLog(c, 0);
            var end := c'.scheduler.nextStep;
            && c'.Valid() && c' == c.(scheduler := c'.scheduler, queue := c'.queue, log := c'.log)
            && end >= 27 && c'.queue.pushed == Stream(EveryStep(), c.Adjusted(), 0, end) && c'.queue.popped == 0
            && c'.queue.Vacant() >= FLUSH_RESERVE && c'.queue.capacity == c.queue.capacity
            && c'.log != [] && c'.log[|c'.log| - 1].sample >= 6000
  {
    hide Scheduled, LogSteps, StepSample, Stream, SixThousand, StepSpan;
    var clock := c.Adjusted();
    ScheduleRefines(c.scheduler, clock, 240000, c.queue, []);
    ScheduleAndLogValid(c, 0);
    var end := ScheduleAndLog(c, 0).scheduler.nextStep;
    forall k | 0 <= k <= end
      ensures StepSample(EveryStep(), clock, k) == 6000 * k
    {
      SixThousandApart(clock, k);
    }
    SongFrom(clock, 0, end);
    LogNewest(c.log, EveryStep(), clock, Max(0, SaturatingSub(end, QUEUED_MEMORY)), end);
    SpanEndsAtHit(EveryStep(), clock, end - 1);
  }

  lemma LogNewest(log: seq<Queued>, p: Pattern, c: AdjustedClock, first: nat, end: nat)
    requires p.Valid() && c.Valid() && first < end
    ensures var log' := LogSteps(log, p, c, first, end);
            log' != [] && log'[|log'| - 1].sample == StepSpan(p, c, end - 1).1
  {
    hide StepSpan;
  }

  lemma SpanEndsAtHit(p: Pattern, c: AdjustedClock, step: nat)
    requires p.Valid() && c.Valid()
    ensures StepSpan(p, c, step).1 == StepSample(p, c, step)
  {
  }

  /** What one frame of it leaves: ten hits played, 246 held, more waiting. */
  ghost predicate Overfull(e: Engine, t: Event)
  {
    && e.Valid() && e.renderer.position == 1 && Sorted(e.renderer.pending)
    && |e.renderer.pending| == PENDING_CAPACITY - 10 && |e.control.queue.Waiting()| >= 10
    && NoFlush(e.control.queue.Waiting()) && e.control.queue.Vacant() >= 2
    && t in e.renderer.pending && t.kind.Trigger? && 1 <= t.sample <= 6000 && e.renderer.published == 0
    && e.control.mode == FreeRunning && e.control.pendingFlush == None
    && e.control.log != [] && e.control.log[|e.control.log| - 1].sample >= 6000
  }

  lemma FrameLeaves(song: seq<Event>, end: nat, clock: AdjustedClock, t: Event)
    requires SixThousand(clock) && end >= 27 && clock.Valid() && EveryStep().Valid()
             && song == Stream(EveryStep(), clock, 0, end)
    requires t in StepEvents(EveryStep(), clock, 1)
    ensures |song| >= 270 && NoFlush(song)
    ensures var held := InsertAll([], song[..256]);
            Sorted(held) && Before(held, 1) == 10 && t in held && t.kind.Trigger? && t.sample == 6000
  {
    hide StepSample, StepEvents, InsertAll, Before, SixThousand, CountBefore;
    forall k | 0 <= k < end
      ensures StepSample(EveryStep(), clock, k) == 6000 * k
    {
      SixThousandApart(clock, k);
    }
    SongFrom(clock, 0, end);
    SongFrom(clock, 0, 1);
    SongFrom(clock, 1, 2);
    SongFrom(clock, 1, end);
    StreamSplits(EveryStep(), clock, 0, 1, end);
    StreamSplits(EveryStep(), clock, 1, 2, end);
    StepHits(clock, t);
    var early, late := Stream(EveryStep(), clock, 0, 1), Stream(EveryStep(), clock, 1, end)[..246];
    assert song[..256] == early + late;
    StepZeroHits(clock);
    CountConcat(early, late, 1);
    CountAll(early, 1);
    CountAll(late, 1);
    CountInsertAll([], song[..256], 1);
    InsertAllKeeps([], song[..256]);
    CountSorted(InsertAll([], song[..256]), 1);
    CountAll([], 1);
    assert t in late by { InFirst(clock, end, t); }
    InsertAllHolds([], song[..256], t);
  }

  lemma StepZeroHits(clock: AdjustedClock)
    requires SixThousand(clock) && clock.Valid() && EveryStep().Valid()
    ensures forall e <- Stream(EveryStep(), clock, 0, 1) :: e.sample == 0
  {
    hide StepSample, SixThousand;
    SixThousandApart(clock, 0);
    TenHits(clock, 0, VOICE_COUNT);
    StreamOne(EveryStep(), clock, 0);
  }

  lemma StepHits(clock: AdjustedClock, t: Event)
    requires SixThousand(clock) && clock.Valid() && EveryStep().Valid() && t in StepEvents(EveryStep(), clock, 1)
    ensures t.kind.Trigger? && t.sample == 6000
  {
    hide StepSample, SixThousand;
    SixThousandApart(clock, 1);
    TenHits(clock, 1, VOICE_COUNT);
  }

  lemma InFirst(clock: AdjustedClock, end: nat, t: Event)
    requires clock.Valid() && EveryStep().Valid() && end >= 2 && t in StepEvents(EveryStep(), clock, 1)
    requires |Stream(EveryStep(), clock, 1, 2)| == 10 && |Stream(EveryStep(), clock, 1, end)| >= 246
    requires Stream(EveryStep(), clock, 1, end) == Stream(EveryStep(), clock, 1, 2) + Stream(EveryStep(), clock, 2, end)
    ensures t in Stream(EveryStep(), clock, 1, end)[..246]
  {
    hide StepEvents, Stream;
    StreamOne(EveryStep(), clock, 1);
    var one := Stream(EveryStep(), clock, 1, 2);
    var i :| 0 <= i < |one| && one[i] == t;
    assert Stream(EveryStep(), clock, 1, end)[..246][i] == t;
  }

  /** Started, and nothing rendered yet. */
  ghost predicate AboutToFill(e: Engine)
  {
    && e.Valid()
    && e.renderer == RenderState(0, [], [], 0) && e.control.mode == FreeRunning && e.control.lookahead == 240000
    && SixThousand(e.control.Adjusted()) && e.control.scheduler == SchedulerState(EveryStep(), 0, true, None, None)
    && e.control.queue.pushed == [] && e.control.queue.popped == 0
    && e.control.queue.capacity == EVENT_QUEUE_CAPACITY && e.control.pendingFlush == None
    && e.control.published == 0 && EveryStep().Valid()
  }

  /** The first frame: a full list, ten hits of it played. */
  lemma FirstFrame(e: Engine, op: Op, t: Event)
    requires AboutToFill(e) && op.Render? && op.frames == 1 && OpValid(op)
    requires t in StepEvents(EveryStep(), e.control.Adjusted(), 1)
    ensures Unblocked(e, op) && Overfull(After(e, op), t)
  {
    hide ScheduleAndLog, SixThousand, StepEvents, Stream, Play, Played, Pull, Before, InsertAll, Sorted, EveryStep,
         SendFlush, Observed, NoteRenderPosition;
    FirstTick(e, op);
    var c := e.control;
    var c' := ScheduleAndLog(c, 0);
    var song := c'.queue.pushed;
    FrameLeaves(song, c'.scheduler.nextStep, c.Adjusted(), t);
    assert !FlushFindsFull([], song);
    RoomSuffices(e, op);
    assert forall w <- song[..256] :: w in song;
    PullFills([], song, 256);
    RenderShape(e, op);
    var held := InsertAll([], song[..256]);
    FirstHitsPlay(e.renderer.(pending := held, published := 0), t);
    AfterValid(e, op);
    assert forall w <- song[256..] :: w in song;
    assert After(e, op).control.queue.Waiting() == song[256..];
  }

  lemma FirstTick(e: Engine, op: Op)
    requires AboutToFill(e) && op.Render? && op.frames == 1 && OpValid(op)
    ensures var c' := ScheduleAndLog(e.control, 0);
            var end := c'.scheduler.nextStep;
            && ControlStep(e.control, op, 0, 0) == c' && Offered(e, op) == c'.queue.pushed
            && c'.Valid() && c' == e.control.(scheduler := c'.scheduler, queue := c'.queue, log := c'.log)
            && end >= 27 && c'.queue.pushed == Stream(EveryStep(), e.control.Adjusted(), 0, end)
            && c'.queue.popped == 0 && c'.queue.Vacant() >= FLUSH_RESERVE
            && c'.log != [] && c'.log[|c'.log| - 1].sample >= 6000
  {
    hide ScheduleAndLog, SixThousand, Stream;
    assert NoteRenderPosition(e.control, 0) == e.control;
    TickOverfills(e.control);
  }

  lemma FirstHitsPlay(r: RenderState, t: Event)
    requires r.position == 0 && Sorted(r.pending) && |r.pending| == PENDING_CAPACITY && Before(r.pending, 1) == 10
    requires t in r.pending && t.sample == 6000
    ensures var r' := Play(r, 1);
            && r'.position == 1 && r'.published == r.published && Sorted(r'.pending)
            && |r'.pending| == PENDING_CAPACITY - 10 && t in r'.pending
  {
    hide Play, Played, Before, Sorted;
    PlayApplies(r, 1);
    PlayedIs(r, 1);
    DueIsBefore(r.pending, 1, t);
    InTail(r.pending, 10, t);
    TailSorted(r.pending, 10);
  }

  lemma InTail(es: seq<Event>, k: nat, t: Event)
    requires k <= |es| && t in es && t !in es[..k]
    ensures t in es[k..]
  {
    assert es == es[..k] + es[k..];
  }

  /** A restart then queues its flush behind what waits. */
  lemma RestartWaits(e: Engine, t: Event)
    requires Overfull(e, t)
    ensures var e' := After(e, Start);
            && e'.Valid() && e'.renderer == e.renderer && e'.control.queue.Vacant() > 0
            && e'.control.queue.Waiting() == e.control.queue.Waiting() + [Event(1, Flush)]
  {
    hide Overfull, RestartInternalAt;
    OverfullIs(e, t);
    AfterValid(e, Start);
    var noted := NoteRenderPosition(e.control, 0);
    FlushNewest(e.control.log, 1);
    FlushShorter(e.control.log[..|e.control.log| - 1], 1);
    DropValid(noted, 1);
    RestartValid(DropQueuedFrom(noted, 1).0, 1);
    var q := e.control.queue;
    assert After(e, Start).control.queue == q.Push(Event(1, Flush));
    assert (q.pushed + [Event(1, Flush)])[q.popped..] == q.pushed[q.popped..] + [Event(1, Flush)];
  }

  lemma OverfullIs(e: Engine, t: Event)
    requires Overfull(e, t)
    ensures e.Valid() && e.renderer.position == 1 && e.control.queue.Vacant() >= 2 && e.renderer.published == 0
    ensures e.control.mode == FreeRunning && e.control.pendingFlush == None
    ensures e.control.log != [] && e.control.log[|e.control.log| - 1].sample >= 6000
  {
  }

  /** The next block finds the list full before it comes to the flush. */
  lemma NextBlockMisses(e: Engine, waiting: seq<Event>, op: Op, t: Event)
    requires e.Valid() && op.Render? && op.frames == 6001 && OpValid(op)
    requires e.renderer.position == 1 && Sorted(e.renderer.pending) && |e.renderer.pending| == PENDING_CAPACITY - 10
    requires t in e.renderer.pending && t.kind.Trigger? && 1 <= t.sample <= 6000
    requires e.control.pendingFlush == None && e.control.queue.Vacant() > 0 && |waiting| >= 10 && NoFlush(waiting)
    requires e.control.queue.Waiting() == waiting + [Event(1, Flush)]
    ensures MissesFlush(e.renderer.pending, Offered(e, op), e.renderer.position + op.frames)
  {
    hide ControlStep, Pull, InsertAll, Sorted;
    ControlStepPushes(e.control, op, e.renderer.published, 1);
    ControlStepValid(e.control, op, e.renderer.published, 1);
    var offered, n := Offered(e, op), |waiting|;
    var q := e.control.queue;
    assert offered[..n + 1] == q.pushed[q.popped..];
    assert offered[..n] == waiting && offered[n] == Event(1, Flush);
    PullFills(e.renderer.pending, offered, n);
    InsertAllHolds(e.renderer.pending, offered[..10], t);
    var (held, rest) := Pull(e.renderer.pending, offered);
    assert rest[n - 10] == offered[n];
    assert t in held && !Kept(t, 1);
  }

  lemma NewSettled(e: Engine)
    requires IsNew(e)
    ensures Settled(e)
  {
    assert Events([]) == [];
  }

  lemma StartUnblocked(e: Engine)
    requires e.Valid() && e.control.queue.Vacant() > 0
    ensures Unblocked(e, Start)
  {
  }

  lemma SettledKeeps(e: Engine)
    requires Settled(e)
    ensures e.Valid() && e.control.pendingFlush == None && Sorted(e.renderer.pending)
  {
  }

  lemma OverfullFacts(e: Engine, t: Event)
    requires Overfull(e, t)
    ensures e.Valid() && e.renderer.position == 1 && Sorted(e.renderer.pending)
    ensures |e.renderer.pending| == PENDING_CAPACITY - 10 && |e.control.queue.Waiting()| >= 10
    ensures NoFlush(e.control.queue.Waiting())
    ensures t in e.renderer.pending && t.kind.Trigger? && 1 <= t.sample <= 6000
  {
  }

  /** A start at sample 0 leaves the clock as it is. */
  lemma StartedClock(e: Engine, e1: Engine)
    requires FarAhead(e) && e.Valid() && e1 == After(e, Start) && e1.Valid()
    ensures SixThousand(e1.control.Adjusted())
  {
    var c := e.control;
    assert CommitPoint(c, 0, 0) == (c, 0);
    assert DropQueuedFrom(c, 0) == (c, c.scheduler.nextStep);
    RestartPutsStepZero(c, 0);
    assert RestartAnchor(c.internal, c.controls, c.sampleRate, 0) == 0.0;
    assert RestartInternalAt(c, 0).internal == Line(48000.0, 120.0, 0.0, 0.0);
  }

  lemma RunFour(e: Engine, a: Op, b: Op, c: Op, d: Op)
    requires e.Valid() && OpValid(a) && OpValid(b) && OpValid(c) && OpValid(d)
    ensures var ops := [a, b, c, d];
            && OpsValid(ops) && After(e, a).Valid() && After(After(e, a), b).Valid()
            && After(After(After(e, a), b), c).Valid()
            && Run(e, ops) == After(After(After(After(e, a), b), c), d)
  {
    hide After, Run;
    RunFirst(e, []);
    assert [] + [a] == [a];
    RunAppend(e, [], a);
    assert [a] + [b] == [a, b];
    RunAppend(e, [a], b);
    assert [a, b] + [c] == [a, b, c];
    RunAppend(e, [a, b], c);
    assert [a, b, c] + [d] == [a, b, c, d];
    RunAppend(e, [a, b, c], d);
  }

  /** The list can fill up, and then a flush is missed: from a new engine, a start, one frame, a
      second start and a block of 6001 frames. The old run's step 1 is heard although the second
      start took it back. */
  lemma FullListMissesFlush(e: Engine, next: Timeline)
    requires FarAhead(e) && next.Valid()
    ensures var ops := [Start, Render(1, next, false), Start, Render(6001, next, false)];
            && e.Valid() && OpsValid(ops)
            && var e', q := Run(e, ops), Run(e, ops).control.queue;
               exists k :: q.popped <= k < |q.pushed| && q.pushed[k].kind.Flush?
                           && Missed(Events(e'.renderer.applied), q.pushed, k)
  {
    hide After, AboutToFill, Overfull, SixThousand, Settled, MissesFlush, Missed, FarAhead, Run, Offered, OpValid;
    var frame, block := Render(1, next, false), Render(6001, next, false);
    RendersValid(next);
    FillStarts(e);
    RunFour(e, Start, frame, Start, block);
    var e1 := After(e, Start);
    var t := OneHit(e1);
    FirstFrame(e1, frame, t);
    StepSettles(e1, frame);
    RestartMisses(After(e1, frame), block, t);
    MissedFlushIsHeard(After(After(e1, frame), Start), block);
  }

  lemma RendersValid(next: Timeline)
    requires next.Valid()
    ensures OpValid(Start) && OpValid(Render(1, next, false)) && OpValid(Render(6001, next, false))
  {
  }

  lemma FarAheadIs(e: Engine)
    requires FarAhead(e)
    ensures IsNew(e) && e.Valid() && e.control.scheduler == SchedulerState(EveryStep(), 0, false, None, None)
    ensures e.control.lookahead == 240000 && e.control.queue.Vacant() > 0 && EveryStep().Valid()
    ensures e.renderer == RenderState(0, [], [], 0) && e.control.mode == FreeRunning
    ensures e.control.queue.pushed == [] && e.control.queue.popped == 0 && e.control.published == 0
    ensures e.control.queue.capacity == EVENT_QUEUE_CAPACITY && e.control.pendingFlush == None
  {
    TenHits(e.control.Adjusted(), 0, 0);
  }

  lemma FillStarts(e: Engine)
    requires FarAhead(e)
    ensures e.Valid() && AboutToFill(After(e, Start)) && Settled(After(e, Start))
  {
    hide After, SixThousand, Settled, AudioRate, FlamFits, FarAhead, IsNew, EveryStep, AboutToFill,
         SchedulerState.StartAt;
    FarAheadIs(e);
    FarAheadAudible(e);
    FillSettles(e);
    NewStarted(e);
    StartedClock(e, After(e, Start));
    ShapeFills(e, After(e, Start));
  }

  lemma FillSettles(e: Engine)
    requires IsNew(e) && e.Valid() && e.control.queue.Vacant() > 0
    ensures Settled(After(e, Start))
  {
    hide After, Settled, IsNew, Unblocked;
    NewSettled(e);
    StartUnblocked(e);
    StepSettles(e, Start);
  }

  lemma ShapeFills(e: Engine, e1: Engine)
    requires e.Valid() && e1.Valid() && e1.renderer == e.renderer == RenderState(0, [], [], 0)
    requires e.control.scheduler == SchedulerState(EveryStep(), 0, false, None, None) && e.control.mode == FreeRunning
    requires e.control.lookahead == 240000 && e.control.queue.pushed == [] && e.control.queue.popped == 0
    requires e.control.queue.capacity == EVENT_QUEUE_CAPACITY && e.control.pendingFlush == None
             && e.control.published == 0
    requires e1.control == e.control.(internal := e1.control.internal, scheduler := e.control.scheduler.StartAt(0))
    requires SixThousand(e1.control.Adjusted()) && EveryStep().Valid()
    ensures AboutToFill(e1)
  {
    hide SixThousand, EveryStep;
  }

  lemma OneHit(e: Engine) returns (t: Event)
    requires AboutToFill(e)
    ensures t in StepEvents(EveryStep(), e.control.Adjusted(), 1)
  {
    TenHits(e.control.Adjusted(), 1, VOICE_COUNT);
    t := StepEvents(EveryStep(), e.control.Adjusted(), 1)[0];
  }

  lemma RestartMisses(e: Engine, block: Op, t: Event)
    requires Overfull(e, t) && e.Valid() && Settled(e) && block.Render? && block.frames == 6001 && OpValid(block)
    ensures var e' := After(e, Start);
            && e'.Valid() && Settled(e') && e'.control.queue.Vacant() > 0
            && MissesFlush(e'.renderer.pending, Offered(e', block), e'.renderer.position + block.frames)
  {
    hide After, Overfull, Settled, MissesFlush, Offered;
    OverfullFacts(e, t);
    OverfullIs(e, t);
    RestartWaits(e, t);
    StartUnblocked(e);
    StepSettles(e, Start);
    SettledKeeps(After(e, Start));
    NextBlockMisses(After(e, Start), e.control.queue.Waiting(), block, t);
  }
}
