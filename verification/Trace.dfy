/** Following a run from a new engine call by call: what each call leaves of the control half, the
    queue's contents left out. */
module Tracing {
  import opened Numbers
  import opened Clock
  import opened Pattern
  import opened Scheduling
  import opened QueuedLogs
  import opened Rendering
  import opened Controlling
  import opened Engines
  import opened BlockSizes
  import opened Realigning
  import opened Ordering
  import opened GridHits
  import opened GridRuns

  /** The control half but for what has gone through the queue and what it learned of the renderer. */
  function Core(c: ControlState): ControlState
  {
    c.(queue := Ring(EVENT_QUEUE_CAPACITY, [], 0), published := 0, renderBlock := 0)
  }

  /** The engine stands at `position` with this core, and the queue has room for that many events
      more even if nothing were ever taken. */
  ghost predicate Stands(e: Engine, core: ControlState, position: nat, room: int)
  {
    && e.Valid() && Core(e.control) == core && core.Valid() && core.pendingFlush == None
    && e.renderer.position == position && InStep(e.control, e.renderer.published, position)
    && e.control.queue.capacity == EVENT_QUEUE_CAPACITY
    && |e.control.queue.pushed| + room <= EVENT_QUEUE_CAPACITY && room > 0
  }

  /** Two steps of a log, one after the other, closer than half a step. */
  ghost predicate Crowded(c: ControlState, sample: nat, next: nat)
    requires c.Valid()
  {
    && |c.log| >= 2 && c.log[|c.log| - 2].sample == sample && c.log[|c.log| - 1].sample == next
    && next as real < sample as real + HalfStep(c.Active())
  }

  lemma NewStands(e: Engine)
    requires IsNew(e) && e.control.queue.capacity == EVENT_QUEUE_CAPACITY
    ensures Stands(e, Core(e.control), 0, EVENT_QUEUE_CAPACITY)
  {
  }

  lemma StandsIs(e: Engine, core: ControlState, position: nat, room: int)
    requires Stands(e, core, position, room)
    ensures e.Valid() && core.Valid() && core.pendingFlush == None && e.renderer.position == position
    ensures e.control.queue.Vacant() >= room > 0 && InStep(e.control, e.renderer.published, position)
    ensures Core(e.control) == core
  {
  }

  // ---- A render ----

  /** A tick queues exactly the steps before its horizon, if there is room for them. */
  lemma TickQueues(c: ControlState, now: nat, n: nat)
    requires c.Valid() && c.scheduler.playing && c.scheduler.nextStep <= n <= c.scheduler.nextStep + QUEUED_MEMORY
    requires c.scheduler.stopAt.Some? ==> n < c.scheduler.stopAt.value
    requires forall k :: c.scheduler.nextStep <= k < n ==> StepSample(c.Pattern(), c.Adjusted(), k) < now + c.lookahead
    requires StepSample(c.Pattern(), c.Adjusted(), n) >= now + c.lookahead
    requires c.queue.Vacant() >= STEP_SLOTS * (n - c.scheduler.nextStep) + STEP_SLOTS + FLUSH_RESERVE
    ensures var c', first := ScheduleAndLog(c, now), c.scheduler.nextStep;
            && c'.Valid() && c'.queue.capacity == c.queue.capacity
            && |c'.queue.pushed| <= |c.queue.pushed| + STEP_SLOTS * (n - first)
            && c' == c.(scheduler := c.scheduler.(nextStep := n), queue := c'.queue,
                        log := LogSteps(c.log, c.Pattern(), c.Adjusted(), first, n))
  {
    hide Scheduled, LogSteps, Stream, StepSample;
    var p, clock, s := c.Pattern(), c.Adjusted(), c.scheduler;
    ScheduleRefines(s, clock, now + c.lookahead, c.queue, []);
    ScheduleAndLogValid(c, now);
    var (s', q') := Scheduled(s, clock, now + c.lookahead, c.queue, []);
    StreamIsShort(p, clock, s.nextStep, s'.nextStep);
    assert s'.nextStep <= n;
  }

  /** What the follower's answer leaves. */
  function Planned(core: ControlState, op: Op): ControlState
    requires op.Render? || op.Observe?
  {
    var next := if op.Render? then op.advanced else op.next;
    if core.mode == Following then core.(follower := next) else core
  }

  /** The core after a tick that queues the steps up to `n`. */
  function Queueing(core: ControlState, n: nat): ControlState
    requires core.Valid() && core.scheduler.nextStep <= n
  {
    core.(scheduler := core.scheduler.(nextStep := n),
          log := LogSteps(core.log, core.Pattern(), core.Adjusted(), core.scheduler.nextStep, n))
  }

  lemma StandsRender(e: Engine, core: ControlState, position: nat, room: int, op: Op, n: nat)
    requires Stands(e, core, position, room) && op.Render? && OpValid(op) && op.frames >= 1 && !op.jumped
    requires var c := Planned(core, op);
             && core.Valid() && c.Valid() && c.scheduler.playing
             && c.scheduler.nextStep <= n <= c.scheduler.nextStep + QUEUED_MEMORY
             && (c.scheduler.stopAt.Some? ==> n < c.scheduler.stopAt.value)
             && (forall k :: c.scheduler.nextStep <= k < n ==>
                   StepSample(c.Pattern(), c.Adjusted(), k) < position + c.lookahead)
             && StepSample(c.Pattern(), c.Adjusted(), n) >= position + c.lookahead
             && room > STEP_SLOTS * (n - c.scheduler.nextStep) + STEP_SLOTS + FLUSH_RESERVE
    ensures Stands(After(e, op), Queueing(Planned(core, op), n), position + op.frames,
                   room - STEP_SLOTS * (n - core.scheduler.nextStep))
  {
    hide StepSample, LogSteps, ScheduleAndLog, NoteRenderPosition, Processed;
    var noted := NoteRenderPosition(e.control, e.renderer.published);
    NotedKeeps(e.control, e.renderer.published);
    var c := if noted.mode == Following then noted.(follower := op.advanced) else noted;
    assert Core(c) == Planned(core, op);
    assert c.Adjusted() == Planned(core, op).Adjusted() && c.Pattern() == Planned(core, op).Pattern();
    TickQueues(c, position, n);
    assert ControlStep(e.control, op, e.renderer.published, position) == ScheduleAndLog(c, position);
    AfterValid(e, op);
    AfterMoves(e, op);
    InStepKept(e, op);
    assert After(e, op).control.queue.pushed == ScheduleAndLog(c, position).queue.pushed;
  }

  /** A render while nothing plays. */
  lemma StandsIdle(e: Engine, core: ControlState, position: nat, room: int, op: Op)
    requires Stands(e, core, position, room) && op.Render? && OpValid(op) && op.frames >= 1 && !op.jumped
    requires core.Valid() && !core.scheduler.playing
    ensures Planned(core, op).Valid() && Stands(After(e, op), Planned(core, op), position + op.frames, room)
  {
    hide NoteRenderPosition, Processed;
    var noted := NoteRenderPosition(e.control, e.renderer.published);
    NotedKeeps(e.control, e.renderer.published);
    var c := if noted.mode == Following then noted.(follower := op.advanced) else noted;
    assert Core(c) == Planned(core, op);
    assert ScheduleAndLog(c, position) == c;
    assert ControlStep(e.control, op, e.renderer.published, position) == c;
    AfterValid(e, op);
    AfterMoves(e, op);
    InStepKept(e, op);
  }

  // ---- Calls that leave the queue alone ----

  /** Edits of the clock, the pattern, the controls or the count, and an answer of the follower under
      which nothing jumps. */
  predicate Edits(core: ControlState, op: Op)
  {
    match op
    case SetTempo(_) => true
    case SetMode(_) => true
    case SetPattern(_) => true
    case SetControls(_) => true
    case SetStopAfter(_) => true
    case Observe(_, snapped) => !(core.scheduler.playing && core.mode == Following && snapped)
    case _ => false
  }

  lemma StandsEdit(e: Engine, core: ControlState, position: nat, room: int, op: Op)
    requires Stands(e, core, position, room) && OpValid(op) && Edits(core, op)
    ensures core.Valid() && Stands(After(e, op), ControlStep(core, op, 0, position), position, room)
  {
    hide RealignContinuous, Line.WithTempo, StraightLine, ActiveClock.BeatAtSample;
    AfterValid(e, op);
    ControlStepValid(core, op, 0, position);
    InStepKept(e, op);
  }

  // ---- Calls that move the cursor ----

  /** A start with nothing queued, on the internal clock. */
  lemma StandsStart(e: Engine, core: ControlState, position: nat, room: int)
    requires Stands(e, core, position, room) && core.mode == FreeRunning && core.log == []
    ensures core.Valid()
    ensures var c := RestartInternalAt(core, position);
            Stands(After(e, Start), c.(scheduler := core.scheduler.StartAt(0)), position, room)
  {
    hide StepSample, RestartAnchor;
    AfterValid(e, Start);
    CommitsNow(e.control, e.renderer.published, position);
    var noted := CommitPoint(e.control, e.renderer.published, position).0;
    NotedKeeps(e.control, e.renderer.published);
    assert DropQueuedFrom(noted, position) == (noted, noted.scheduler.nextStep);
    RestartValid(noted, position);
    RestartValid(core, position);
    InStepKept(e, Start);
  }

  /** A start with nothing queued, following. */
  lemma StandsJoin(e: Engine, core: ControlState, position: nat, room: int)
    requires Stands(e, core, position, room) && core.mode == Following && core.log == []
    ensures core.Valid()
    ensures var first := FirstStepAtOrAfter(core.Pattern(), core.Adjusted(), position);
            Stands(After(e, Start), core.(scheduler := core.scheduler.StartAt(first)), position, room)
  {
    hide FirstStepAtOrAfter;
    AfterValid(e, Start);
    CommitsNow(e.control, e.renderer.published, position);
    var noted := CommitPoint(e.control, e.renderer.published, position).0;
    NotedKeeps(e.control, e.renderer.published);
    assert noted.Pattern() == core.Pattern() && noted.Adjusted() == core.Adjusted();
    InStepKept(e, Start);
  }

  /** What a jump at `now` leaves of a core whose clock has moved. */
  function Jumped(core: ControlState, before: ActiveClock, now: nat): ControlState
    requires core.Valid() && before.Valid()
  {
    var cut := CutFrom(core.log, now, None);
    core.(log := FlushFrom(core.log, cut.flush),
          scheduler := core.scheduler.Seek(FirstStepAtOrAfter(core.Pattern(), core.Adjusted(),
                                                              RealignFrom(core, now, before)), Unplayed(core, cut)))
  }

  lemma JumpedIs(c: ControlState, core: ControlState, before: ActiveClock, now: nat)
    requires c.Valid() && core.Valid() && before.Valid() && Core(c) == core && c.queue.Vacant() > 0
    requires core.pendingFlush == None
    ensures var c' := RealignContinuous(c, now, before);
            && c'.Valid() && Core(c') == Jumped(core, before, now) && |c'.queue.pushed| == |c.queue.pushed| + 1
            && c'.queue.capacity == c.queue.capacity && c'.pendingFlush == None
  {
    hide FirstStepAtOrAfter, CutFrom, FlushFrom, HalfStepAfter, HeardFromTimeline;
    RealignValid(c, now, before);
    assert c.Pattern() == core.Pattern() && c.Adjusted() == core.Adjusted();
    SameHeard(c, core, now, before);
  }

  lemma SameHeard(c: ControlState, core: ControlState, now: nat, before: ActiveClock)
    requires c.Valid() && core.Valid() && before.Valid() && Core(c) == core
    ensures RealignFrom(c, now, before) == RealignFrom(core, now, before)
  {
    hide FirstStepAtOrAfter, CutFrom, Ceil;
    assert c.Pattern() == core.Pattern() && c.Active() == core.Active();
  }

  /** A tap on the internal clock under a run. */
  lemma StandsTap(e: Engine, core: ControlState, position: nat, room: int, op: Op)
    requires Stands(e, core, position, room) && room > 1 && op.Tap? && OpValid(op)
    requires core.Valid() && core.mode == FreeRunning && core.scheduler.playing
    ensures var moved := core.(internal := Retuned(core.internal, op.sample, op.bpm));
            && moved.Valid()
            && Stands(After(e, op), Jumped(moved, Internal(core.internal), position), position, room - 1)
  {
    hide RealignContinuous, Jumped, Retuned;
    AfterValid(e, op);
    TappedShape(e.control, op.sample, op.bpm, e.renderer.published, position);
    var moved := e.control.(internal := Retuned(core.internal, op.sample, op.bpm));
    CommitsNow(moved, e.renderer.published, position);
    NotedKeeps(moved, e.renderer.published);
    var noted := CommitPoint(moved, e.renderer.published, position).0;
    JumpedIs(noted, core.(internal := moved.internal), Internal(core.internal), position);
    InStepKept(e, op);
  }

  /** A snap of the follower under a run. */
  lemma StandsSnap(e: Engine, core: ControlState, position: nat, room: int, op: Op)
    requires Stands(e, core, position, room) && room > 1 && op.Observe? && op.snapped && OpValid(op)
    requires core.Valid() && core.mode == Following && core.scheduler.playing
    ensures var moved := Planned(core, op);
            && moved.Valid()
            && Stands(After(e, op), Jumped(moved, Follow(core.follower), position), position, room - 1)
  {
    hide RealignContinuous, Jumped;
    AfterValid(e, op);
    var moved := e.control.(follower := op.next);
    CommitsNow(moved, e.renderer.published, position);
    NotedKeeps(moved, e.renderer.published);
    var noted := CommitPoint(moved, e.renderer.published, position).0;
    JumpedIs(noted, Planned(core, op), Follow(core.follower), position);
    InStepKept(e, op);
  }

  // ---- Runs ----

  lemma RunCons(e: Engine, op: Op, rest: seq<Op>)
    requires e.Valid() && OpValid(op) && OpsValid(rest)
    ensures OpsValid([op] + rest) && After(e, op).Valid() && Run(e, [op] + rest) == Run(After(e, op), rest)
  {
    hide After;
    AfterValid(e, op);
    RunFirst(e, [op] + rest);
    assert ([op] + rest)[1..] == rest;
  }

  /** A run of two calls more. */
  lemma RunTwo(e: Engine, a: Op, b: Op, rest: seq<Op>)
    requires e.Valid() && OpValid(a) && OpValid(b) && OpsValid(rest)
    ensures OpsValid([a, b] + rest) && After(e, a).Valid() && After(After(e, a), b).Valid()
    ensures Run(e, [a, b] + rest) == Run(After(After(e, a), b), rest)
  {
    hide After, Run;
    RunCons(e, a, [b] + rest);
    RunCons(After(e, a), b, rest);
    assert [a] + ([b] + rest) == [a, b] + rest;
  }
}
