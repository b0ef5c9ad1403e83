/** The two halves as one state, and what each call does to it. */
module Engines {
  import opened Numbers
  import opened Clock
  import opened Pattern
  import opened Scheduling
  import opened QueuedLogs
  import opened Rendering
  import opened Controlling

  const EVENT_QUEUE_CAPACITY := 1024

  datatype Engine = Engine(control: ControlState, renderer: RenderState)
  {
    predicate Valid() { control.Valid() && |renderer.pending| <= PENDING_CAPACITY }
  }

  /** What can happen to a running engine. The follower's answers (its next timeline, and
      whether it snapped) come from outside: every theorem here holds for all of them. A tap
      carries what the tap sequence reports: the internal clock takes its tempo, a follower
      takes it as an observation. */
  datatype Op =
    | Start
    | Stop
    | Resync
    | Tap(sample: real, bpm: Option<real>, next: Timeline, snapped: bool)
    | Observe(next: Timeline, snapped: bool)
    | SetStopAfter(steps: Option<nat>)
    | SetPattern(pattern: Pattern)
    | SetTempo(bpm': real)
    | SetMode(mode: Mode)
    | SetControls(controls: Controls)
    | SetParam(target: ParamTarget, value: real)
    | Render(frames: nat, advanced: Timeline, jumped: bool)

  predicate OpValid(op: Op)
  {
    match op
    case Tap(_, _, next, _) => next.Valid()
    case Observe(next, _) => next.Valid()
    case SetPattern(p) => p.Valid()
    case Render(_, next, _) => next.Valid()
    case _ => true
  }

  /** What a call does to the control half. */
  function ControlStep(c: ControlState, op: Op, position: nat, now: nat): ControlState
    requires c.Valid() && OpValid(op)
  {
    match op
    case Start => Started(c, position, now)
    case Stop => c.(scheduler := c.scheduler.(playing := false))
    case Resync => Resynced(c, position, now)
    case Tap(sample, bpm, next, snapped) =>
      if c.mode == FreeRunning then Tapped(c, sample, bpm, position, now) else Observed(c, next, snapped, position, now)
    case Observe(next, snapped) => Observed(c, next, snapped, position, now)
    case SetStopAfter(steps) => c.(scheduler := c.scheduler.SetStopAfter(steps))
    case SetPattern(p) => c.(scheduler := c.scheduler.(pattern := p))
    case SetTempo(bpm) => c.(internal := c.internal.WithTempo(bpm, now as real))
    case SetMode(mode) => WithMode(c, mode, now)
    case SetControls(controls) => c.(controls := controls)
    case SetParam(target, value) => PushReserved(c, Event(now, Param(target, value)))
    case Render(_, next, snapped) => Ticked(c, next, snapped, position, now)
  }

  /** One call; a render ticks the control half first, then plays the block. */
  function After(e: Engine, op: Op): Engine
    requires e.Valid() && OpValid(op)
  {
    var c := ControlStep(e.control, op, e.renderer.published, e.renderer.position);
    ControlStepValid(e.control, op, e.renderer.published, e.renderer.position);
    if op.Render? then
      var (r, rest) := Processed(e.renderer, c.queue.Waiting(), op.frames);
      Engine(c.(queue := c.queue.(popped := |c.queue.pushed| - |rest|)), r)
    else Engine(c, e.renderer)
  }

  lemma AfterValid(e: Engine, op: Op)
    requires e.Valid() && OpValid(op)
    ensures After(e, op).Valid()
  {
    hide ControlStep, Pull, Play;
    ControlStepValid(e.control, op, e.renderer.published, e.renderer.position);
    if op.Render? {
      var c := ControlStep(e.control, op, e.renderer.published, e.renderer.position);
      var (pending, rest) := Pull(e.renderer.pending, c.queue.Waiting());
      PlayShrinks(e.renderer.(pending := pending, published := e.renderer.position), op.frames);
    }
  }

  lemma {:induction false} PlayShrinks(s: RenderState, n: nat)
    ensures |Play(s, n).pending| <= |s.pending|
  {
    if n > 0 { PlayShrinks(s, n - 1); }
  }

  predicate OpsValid(ops: seq<Op>) { forall i :: 0 <= i < |ops| ==> OpValid(ops[i]) }

  function Run(e: Engine, ops: seq<Op>): (r: Engine)
    requires e.Valid() && OpsValid(ops)
    ensures r.Valid()
    decreases |ops|
  {
    if ops == [] then e
    else
      AfterValid(e, ops[0]);
      Run(After(e, ops[0]), ops[1..])
  }

  lemma RunFirst(e: Engine, ops: seq<Op>)
    requires e.Valid() && OpsValid(ops)
    ensures if ops == [] then Run(e, ops) == e
            else After(e, ops[0]).Valid() && Run(e, ops) == Run(After(e, ops[0]), ops[1..])
  {
    if ops != [] { AfterValid(e, ops[0]); }
  }

  lemma {:induction false} RunAppend(e: Engine, ops: seq<Op>, op: Op)
    requires e.Valid() && OpsValid(ops) && OpValid(op)
    ensures OpsValid(ops + [op]) && Run(e, ops + [op]) == After(Run(e, ops), op)
    decreases |ops|
  {
    hide After;
    if ops == [] {
      AfterValid(e, op);
      assert [] + [op] == [op] && [op][1..] == [];
    } else {
      AfterValid(e, ops[0]);
      assert (ops + [op])[1..] == ops[1..] + [op];
      RunAppend(After(e, ops[0]), ops[1..], op);
    }
  }

  // ---- What the control half pushes ----

  /** The queue has only grown at its end, every flush added can still be honoured at `now`,
      and no flush had to be kept back if there was room. */
  ghost predicate Pushes(c: ControlState, c': ControlState, now: nat)
  {
    && c'.queue.Valid()
    && c'.queue.capacity == c.queue.capacity && c'.queue.popped == c.queue.popped
    && c.queue.pushed <= c'.queue.pushed
    && (forall i :: |c.queue.pushed| <= i < |c'.queue.pushed| && c'.queue.pushed[i].kind.Flush? ==>
          c'.queue.pushed[i].sample >= now)
    && c'.pendingFlush == None
  }

  ghost predicate Ready(c: ControlState) { c.Valid() && c.pendingFlush == None && c.queue.Vacant() > 0 }

  lemma SendFlushPushes(c: ControlState, at: nat, now: nat)
    requires Ready(c) && at >= now
    ensures SendFlush(c, at).Valid() && Pushes(c, SendFlush(c, at), now)
  {
  }

  lemma RealignPushes(c: ControlState, commit: nat, before: ActiveClock, now: nat)
    requires Ready(c) && before.Valid() && commit >= now
    ensures Pushes(c, RealignContinuous(c, commit, before), now)
  {
    hide FirstStepAtOrAfter, RealignFrom, CutFrom, FlushFrom;
    CutNotBefore(c.log, commit, None);
    SendFlushPushes(c, CutFrom(c.log, commit, None).flush, now);
  }

  lemma {:induction false} CutNotBefore(log: seq<Queued>, commit: nat, heard: Option<Queued>)
    ensures CutFrom(log, commit, heard).flush >= commit
    decreases |log|
  {
    if log != [] && log[0].first < commit {
      CutNotBefore(log[1..], Max(commit, log[0].sample + 1), Some(log[0]));
    }
  }

  lemma {:induction false} StreamIsTriggers(p: Pattern, c: AdjustedClock, first: nat, end: nat)
    requires p.Valid() && c.Valid() && first <= end
    ensures forall e <- Stream(p, c, first, end) :: e.kind.Trigger?
    decreases end
  {
    if first < end {
      hide StepEvents;
      StreamIsTriggers(p, c, first, end - 1);
      StepEventsInSpan(p, c, end - 1);
    }
  }

  lemma SchedulePushes(c: ControlState, now: nat)
    requires c.Valid() && c.pendingFlush == None
    ensures Pushes(c, ScheduleAndLog(c, now), now)
  {
    hide Scheduled, LogSteps, Stream;
    var clock := c.Adjusted();
    ScheduleRefines(c.scheduler, clock, now + c.lookahead, c.queue, []);
    var (s', q') := Scheduled(c.scheduler, clock, now + c.lookahead, c.queue, []);
    var stream := Stream(c.Pattern(), clock, c.scheduler.nextStep, s'.nextStep);
    StreamIsTriggers(c.Pattern(), clock, c.scheduler.nextStep, s'.nextStep);
    forall i | |c.queue.pushed| <= i < |q'.pushed|
      ensures q'.pushed[i].kind.Trigger?
    {
      assert q'.pushed[i] == stream[i - |c.queue.pushed|];
    }
  }

  lemma PushesTwice(a: ControlState, b: ControlState, c: ControlState, now: nat)
    requires Pushes(a, b, now) && Pushes(b, c, now)
    ensures Pushes(a, c, now)
  {
  }

  lemma RestartValid(c: ControlState, sample: nat)
    requires c.Valid()
    ensures var c' := RestartInternalAt(c, sample);
            c'.Valid() && c' == c.(internal := c'.internal)
  {
    hide StepSample;
  }

  lemma DropValid(c: ControlState, commit: nat)
    requires c.Valid()
    ensures DropQueuedFrom(c, commit).0.Valid()
  {
    hide FlushFrom;
  }

  lemma StartedValid(c: ControlState, position: nat, now: nat)
    requires c.Valid()
    ensures Started(c, position, now).Valid()
  {
    hide DropQueuedFrom, RestartInternalAt, FirstStepAtOrAfter, CutFrom, FlushFrom, SaturatingAdd;
    var (c1, commit) := CommitPoint(c, position, now);
    DropValid(c1, commit);
    RestartValid(DropQueuedFrom(c1, commit).0, commit);
  }

  lemma ResyncedValid(c: ControlState, position: nat, now: nat)
    requires c.Valid()
    ensures Resynced(c, position, now).Valid()
  {
    hide DropQueuedFrom, RestartInternalAt, FirstStepAtOrAfter;
    var (c1, commit) := CommitPoint(c, position, now);
    RestartValid(c1, commit);
    DropValid(c1, commit);
    RestartValid(DropQueuedFrom(c1, commit).0, commit);
  }

  lemma TappedValid(c: ControlState, sample: real, bpm: Option<real>, position: nat, now: nat)
    requires c.Valid() && c.mode == FreeRunning
    ensures Tapped(c, sample, bpm, position, now).Valid()
  {
    hide RealignContinuous;
    var line := if bpm.Some? then c.internal.WithTempo(bpm.value, sample) else c.internal;
    var c1 := c.(internal := line.Aligned(sample, Round(line.BeatAtSample(sample)) as real));
    var (c2, commit) := CommitPoint(c1, position, now);
    RealignValid(c2, commit, Internal(c.internal));
  }

  lemma ControlStepValid(c: ControlState, op: Op, position: nat, now: nat)
    requires c.Valid() && OpValid(op)
    ensures ControlStep(c, op, position, now).Valid()
  {
    hide Started, Resynced, Tapped, Observed, Ticked, WithMode;
    match op
    case Start => StartedValid(c, position, now);
    case Resync => ResyncedValid(c, position, now);
    case Tap(sample, bpm, next, snapped) =>
      if c.mode == FreeRunning { TappedValid(c, sample, bpm, position, now); }
      ObservedValid(c, next, snapped, position, now);
    case SetMode(mode) => SwitchKeepsBeat(c, mode, now);
    case Observe(next, snapped) => ObservedValid(c, next, snapped, position, now);
    case Render(_, next, snapped) => TickedValid(c, next, snapped, position, now);
    case _ =>
  }

  lemma DropPushes(c: ControlState, commit: nat, now: nat)
    requires Ready(c) && commit >= now
    ensures Pushes(c, DropQueuedFrom(c, commit).0, now)
  {
    hide FlushFrom;
    SendFlushPushes(c, commit, now);
  }

  lemma StartedPushes(c: ControlState, position: nat, now: nat)
    requires Ready(c)
    ensures Pushes(c, Started(c, position, now), now)
  {
    hide DropQueuedFrom, RestartInternalAt, FirstStepAtOrAfter, CutFrom, FlushFrom, SaturatingAdd, HalfStepAfter;
    var (c1, commit) := CommitPoint(c, position, now);
    DropPushes(c1, commit, now);
    DropValid(c1, commit);
    RestartValid(DropQueuedFrom(c1, commit).0, commit);
    CutNotBefore(c1.log, commit, None);
    SendFlushPushes(c1, CutFrom(c1.log, commit, None).flush, now);
  }

  lemma ResyncedPushes(c: ControlState, position: nat, now: nat)
    requires Ready(c)
    ensures Pushes(c, Resynced(c, position, now), now)
  {
    hide DropQueuedFrom, RestartInternalAt, FirstStepAtOrAfter;
    var (c1, commit) := CommitPoint(c, position, now);
    RestartValid(c1, commit);
    DropPushes(c1, commit, now);
    DropValid(c1, commit);
    RestartValid(DropQueuedFrom(c1, commit).0, commit);
  }

  lemma TappedPushes(c: ControlState, sample: real, bpm: Option<real>, position: nat, now: nat)
    requires Ready(c) && c.mode == FreeRunning
    ensures Pushes(c, Tapped(c, sample, bpm, position, now), now)
  {
    hide RealignContinuous;
    var line := if bpm.Some? then c.internal.WithTempo(bpm.value, sample) else c.internal;
    var c1 := c.(internal := line.Aligned(sample, Round(line.BeatAtSample(sample)) as real));
    var (c2, commit) := CommitPoint(c1, position, now);
    RealignPushes(c2, commit, Internal(c.internal), now);
  }

  lemma ObservedPushes(c: ControlState, next: Timeline, snapped: bool, position: nat, now: nat)
    requires Ready(c) && next.Valid()
    ensures Pushes(c, Observed(c, next, snapped, position, now), now)
  {
    hide RealignContinuous;
    if c.mode == Following && snapped && c.scheduler.playing {
      var (c', commit) := CommitPoint(c.(follower := next), position, now);
      RealignPushes(c', commit, Follow(c.follower), now);
    }
  }

  lemma TickedPushes(c: ControlState, next: Timeline, snapped: bool, position: nat, now: nat)
    requires Ready(c) && next.Valid()
    ensures Pushes(c, Ticked(c, next, snapped, position, now), now)
  {
    hide Observed, ScheduleAndLog;
    var c1 := NoteRenderPosition(c, position);
    ObservedValid(c1, next, snapped, position, now);
    ObservedPushes(c1, next, snapped, position, now);
    var c2 := Observed(c1, next, snapped, position, now);
    SchedulePushes(c2, now);
    PushesTwice(c1, c2, ScheduleAndLog(c2, now), now);
  }

  /** Every call pushes at most events and flushes from `now` on. */
  lemma ControlStepPushes(c: ControlState, op: Op, position: nat, now: nat)
    requires Ready(c) && OpValid(op)
    ensures Pushes(c, ControlStep(c, op, position, now), now)
  {
    hide Started, Resynced, Tapped, Observed, Ticked;
    match op
    case Start => StartedPushes(c, position, now);
    case Resync => ResyncedPushes(c, position, now);
    case Tap(sample, bpm, next, snapped) =>
      if c.mode == FreeRunning { TappedPushes(c, sample, bpm, position, now); }
      ObservedPushes(c, next, snapped, position, now);
    case Observe(next, snapped) => ObservedPushes(c, next, snapped, position, now);
    case Render(_, next, snapped) => TickedPushes(c, next, snapped, position, now);
    case _ =>
  }

  /** A flush that found the queue full is sent before anything else is queued: a tick either
      pushes it first, or pushes no step at all and keeps a flush at least as early. */
  lemma KeptFlushGoesFirst(c: ControlState, next: Timeline, snapped: bool, position: nat, now: nat)
    requires c.Valid() && next.Valid() && c.pendingFlush.Some?
    ensures var c', n := Ticked(c, next, snapped, position, now), |c.queue.pushed|;
            if c.queue.Vacant() > 0 then
              && n < |c'.queue.pushed| && c'.pendingFlush == None && c'.queue.pushed[..n] == c.queue.pushed
              && c'.queue.pushed[n].kind.Flush? && c'.queue.pushed[n].sample <= c.pendingFlush.value
            else
              && c'.queue == c.queue
              && c'.scheduler.nextStep
                 == Observed(NoteRenderPosition(c, position), next, snapped, position, now).scheduler.nextStep
              && c'.pendingFlush.Some? && c'.pendingFlush.value <= c.pendingFlush.value
  {
    hide ScheduleAndLog, RealignContinuous, NoteRenderPosition;
    var c1 := NoteRenderPosition(c, position);
    NotedKeeps(c, position);
    ObservedValid(c1, next, snapped, position, now);
    ObservedKeepsFlush(c1, next, snapped, position, now);
    var c2 := Observed(c1, next, snapped, position, now);
    if c2.pendingFlush.Some? {
      var c3 := SendFlush(c2.(pendingFlush := None), c2.pendingFlush.value);
      if c3.pendingFlush == None { SchedulePushes(c3, now); }
    } else {
      SchedulePushes(c2, now);
    }
  }

  lemma NotedKeeps(c: ControlState, position: nat)
    requires c.Valid()
    ensures var c' := NoteRenderPosition(c, position);
            c'.Valid() && c' == c.(published := c'.published, renderBlock := c'.renderBlock)
  {
  }

  /** A jump merges its own flush into the kept one. */
  lemma ObservedKeepsFlush(c: ControlState, next: Timeline, snapped: bool, position: nat, now: nat)
    requires c.Valid() && next.Valid() && c.pendingFlush.Some?
    ensures var c' := Observed(c, next, snapped, position, now);
            || (c'.queue == c.queue && c'.pendingFlush.Some? && c'.pendingFlush.value <= c.pendingFlush.value)
            || (c.queue.Vacant() > 0 && c'.pendingFlush == None && c'.queue.Vacant() >= 0
                && exists f: nat :: f <= c.pendingFlush.value && c'.queue == c.queue.Push(Event(f, Flush)))
  {
    hide FirstStepAtOrAfter, CutFrom, FlushFrom, RealignFrom;
    if c.mode == Following && snapped && c.scheduler.playing {
      var (c1, commit) := CommitPoint(c.(follower := next), position, now);
      var at := CutFrom(c1.log, commit, None).flush;
      assert RealignContinuous(c1, commit, Follow(c.follower)).queue == SendFlush(c1, at).queue;
    }
  }

  // ---- Flushes take back exactly what was not yet heard ----

  /** What has been pulled splits into what was played and what is held; no flush still waiting
      asks back anything played. */
  ghost predicate Settled(e: Engine)
  {
    && e.Valid() && e.control.pendingFlush == None
    && Sorted(e.renderer.pending)
    && multiset(e.renderer.pending) + multiset(Events(e.renderer.applied))
       == multiset(Survivors(e.control.queue.pushed[..e.control.queue.popped]))
    && (forall a <- e.renderer.applied :: a.event.sample <= a.time < e.renderer.position)
    && FlushesSpare(e.control.queue.Waiting(), Events(e.renderer.applied))
  }

  /** What waits for the renderer when a call reaches it. */
  function Offered(e: Engine, op: Op): seq<Event>
    requires e.Valid() && OpValid(op)
  {
    ControlStepValid(e.control, op, e.renderer.published, e.renderer.position);
    ControlStep(e.control, op, e.renderer.published, e.renderer.position).queue.Waiting()
  }

  /** The queue is not full when a call is made, and a render of at least a frame leaves no flush
      behind that a trigger played in its block was due for. */
  ghost predicate Unblocked(e: Engine, op: Op)
    requires e.Valid() && OpValid(op)
  {
    && e.control.queue.Vacant() > 0
    && (op.Render? ==>
          op.frames >= 1 && !MissesFlush(e.renderer.pending, Offered(e, op), e.renderer.position + op.frames))
  }

  /** No flush is missed if none finds the list full when its turn comes; room in the list for
      all that waits is more than enough. */
  lemma RoomSuffices(e: Engine, op: Op)
    requires e.Valid() && OpValid(op) && e.control.queue.Vacant() > 0 && (op.Render? ==> op.frames >= 1)
    requires op.Render? ==>
               || !FlushFindsFull(e.renderer.pending, Offered(e, op))
               || |e.renderer.pending| + |Offered(e, op)| <= PENDING_CAPACITY
    ensures Unblocked(e, op)
  {
    hide Offered, Pull, FlushFindsFull;
    if op.Render? {
      var waiting := Offered(e, op);
      if |e.renderer.pending| + |waiting| <= PENDING_CAPACITY { PullTakesAll(e.renderer.pending, waiting); }
      PullLeavesFlush(e.renderer.pending, waiting);
      var rest := Pull(e.renderer.pending, waiting).1;
      assert forall k :: 0 <= k < |rest| ==> rest[k] in rest;
    }
  }

  ghost predicate AllUnblocked(e: Engine, ops: seq<Op>)
    requires e.Valid() && OpsValid(ops)
    decreases |ops|
  {
    ops == [] ||
    (AfterValid(e, ops[0]);
     Unblocked(e, ops[0]) && AllUnblocked(After(e, ops[0]), ops[1..]))
  }

  /** Nothing a call pushes asks back what was played. */
  lemma OfferedSpares(e: Engine, c: ControlState)
    requires Settled(e) && c.Valid() && Pushes(e.control, c, e.renderer.position)
    ensures FlushesSpare(c.queue.Waiting(), Events(e.renderer.applied))
  {
    hide Survivors, Sorted, AllKept;
    var q, waiting := e.control.queue, c.queue.Waiting();
    forall i | 0 <= i < |waiting| && waiting[i].kind.Flush?
      ensures AllKept(Events(e.renderer.applied), waiting[i].sample)
    {
      assert waiting[i] == c.queue.pushed[q.popped + i];
      if q.popped + i < |q.pushed| {
        assert q.Waiting()[i] == waiting[i];
      } else {
        PlayedIsKept(e.renderer.applied, e.renderer.position, waiting[i].sample);
      }
    }
  }

  lemma PlayedIsKept(applied: seq<Applied>, position: nat, f: nat)
    requires forall a <- applied :: a.event.sample < position
    requires f >= position
    ensures AllKept(Events(applied), f)
  {
    forall d | d in Events(applied)
      ensures d.sample < position
    {
      var i :| 0 <= i < |Events(applied)| && Events(applied)[i] == d;
      assert applied[i] in applied;
    }
  }

  /** A block moves events from the held to the played, each no earlier than stamped. */
  lemma PlayMoves(s: RenderState, n: nat)
    requires Sorted(s.pending) && n >= 1
    requires forall a <- s.applied :: a.event.sample <= a.time < s.position
    ensures var s' := Play(s, n);
            && multiset(s'.pending) + multiset(Events(s'.applied)) == multiset(s.pending) + multiset(Events(s.applied))
            && Sorted(s'.pending) && s'.position == s.position + n
            && Events(s'.applied) == Events(s.applied) + s.pending[..Before(s.pending, s.position + n)]
            && forall a <- s'.applied :: a.event.sample <= a.time < s'.position
  {
    hide Play, Played, Before, Sorted;
    PlayApplies(s, n);
    var k := Before(s.pending, s.position + n);
    BeforeSplits(s.pending, s.position + n);
    PlayedIs(s, n);
    var due, rest := s.pending[..k], s.pending[k..];
    assert s.pending == due + rest;
    StampEvents(s.applied, due, s.position);
    StampTimes(s.applied, due, s.position, s.position + n);
    TailSorted(s.pending, k);
  }

  lemma TailSorted(es: seq<Event>, k: nat)
    requires Sorted(es) && k <= |es|
    ensures Sorted(es[k..])
  {
  }

  lemma StampTimes(applied: seq<Applied>, due: seq<Event>, now: nat, end: nat)
    requires now < end && forall a <- applied :: a.event.sample <= a.time < now
    requires forall i :: 0 <= i < |due| ==> due[i].sample < end
    ensures forall a <- applied + Stamp(due, now) :: a.event.sample <= a.time < end
  {
    forall a | a in Stamp(due, now)
      ensures a.event.sample <= a.time < end
    {
      var i :| 0 <= i < |due| && Stamp(due, now)[i] == a;
    }
  }

  lemma StampEvents(applied: seq<Applied>, due: seq<Event>, now: nat)
    ensures Events(applied + Stamp(due, now)) == Events(applied) + due
  {
  }

  lemma DueIsBefore(held: seq<Event>, end: nat, t: Event)
    requires Sorted(held)
    ensures t in held[..Before(held, end)] <==> t in held && t.sample < end
  {
    BeforeSplits(held, end);
    hide Before;
    var k := Before(held, end);
    if t in held && t.sample < end {
      var i :| 0 <= i < |held| && held[i] == t;
      assert forall j :: k <= j < |held| ==> held[k].sample <= held[j].sample;
      assert held[..k][i] == t;
    }
  }

  lemma KeptBoth(x: seq<Event>, y: seq<Event>, f: nat)
    ensures AllKept(x + y, f) <==> AllKept(x, f) && AllKept(y, f)
  {
    hide Kept;
    if AllKept(x + y, f) {
      assert forall d <- x :: d in x + y;
      assert forall d <- y :: d in x + y;
    }
  }

  /** What is due in a block leaves the flushes left behind satisfied exactly if none is missed. */
  lemma SparesDue(pending: seq<Event>, waiting: seq<Event>, done: seq<Event>, end: nat)
    requires Sorted(Pull(pending, waiting).0) && FlushesSpare(Pull(pending, waiting).1, done)
    ensures var (held, rest) := Pull(pending, waiting);
            FlushesSpare(rest, done + held[..Before(held, end)]) <==> !MissesFlush(pending, waiting, end)
  {
    hide Pull, Before, Kept, Sorted, AllKept;
    var (held, rest) := Pull(pending, waiting);
    var due := held[..Before(held, end)];
    forall i | 0 <= i < |rest| && rest[i].kind.Flush?
      ensures AllKept(done + due, rest[i].sample)
              <==> forall t <- held :: t.sample < end ==> Kept(t, rest[i].sample)
    {
      KeptBoth(done, due, rest[i].sample);
      DueKept(held, end, rest[i].sample);
    }
    if FlushesSpare(rest, done + due) {
      forall i, t | 0 <= i < |rest| && rest[i].kind.Flush? && t in held && t.sample < end
        ensures Kept(t, rest[i].sample)
      {
        assert AllKept(done + due, rest[i].sample);
      }
    }
  }

  lemma DueKept(held: seq<Event>, end: nat, f: nat)
    requires Sorted(held)
    ensures AllKept(held[..Before(held, end)], f) <==> forall t <- held :: t.sample < end ==> Kept(t, f)
  {
    hide Before, Kept, Sorted;
    var due := held[..Before(held, end)];
    forall t: Event
      ensures t in due <==> t in held && t.sample < end
    {
      DueIsBefore(held, end, t);
    }
  }

  lemma SpareLater(waiting: seq<Event>, n: nat, done: seq<Event>)
    requires FlushesSpare(waiting, done) && n <= |waiting|
    ensures FlushesSpare(waiting[n..], done)
  {
    hide AllKept;
  }

  /** A render splits what it pulled into what it played and what it holds, and whether it stays
      settled depends on the flushes it leaves behind alone. */
  lemma RenderSettles(e: Engine, op: Op)
    requires Settled(e) && op.Render? && OpValid(op) && e.control.queue.Vacant() > 0 && op.frames >= 1
    ensures Settled(After(e, op))
            <==> !MissesFlush(e.renderer.pending, Offered(e, op), e.renderer.position + op.frames)
  {
    hide ControlStep, Pull, Play, Survivors, Sorted, FlushesSpare, MissesFlush, Before;
    var position, popped := e.renderer.position, e.control.queue.popped;
    ControlStepPushes(e.control, op, e.renderer.published, position);
    ControlStepValid(e.control, op, e.renderer.published, position);
    var c := ControlStep(e.control, op, e.renderer.published, position);
    var waiting, done := c.queue.Waiting(), Events(e.renderer.applied);
    assert c.queue.pushed[..popped] == e.control.queue.pushed[..popped];
    OfferedSpares(e, c);
    PullKeepsSurvivors(e.renderer.pending, done, c.queue.pushed[..popped], waiting);
    PullKeepsSorted(e.renderer.pending, waiting);
    PullLeavesTail(e.renderer.pending, waiting);
    var (pending, rest) := Pull(e.renderer.pending, waiting);
    var taken := |waiting| - |rest|;
    assert c.queue.pushed[..popped] + waiting[..taken] == c.queue.pushed[..popped + taken];
    SpareLater(waiting, taken, done);
    PlayMoves(e.renderer.(pending := pending, published := position), op.frames);
    SparesDue(e.renderer.pending, waiting, done, position + op.frames);
    AfterValid(e, op);
    assert After(e, op).control.queue.Waiting() == rest;
  }

  lemma StepSettles(e: Engine, op: Op)
    requires Settled(e) && OpValid(op) && Unblocked(e, op)
    ensures Settled(After(e, op))
  {
    hide ControlStep, Processed, Survivors, MissesFlush, FlushesSpare;
    if op.Render? {
      RenderSettles(e, op);
    } else {
      var c := ControlStep(e.control, op, e.renderer.published, e.renderer.position);
      ControlStepPushes(e.control, op, e.renderer.published, e.renderer.position);
      ControlStepValid(e.control, op, e.renderer.published, e.renderer.position);
      OfferedSpares(e, c);
      assert c.queue.pushed[..c.queue.popped] == e.control.queue.pushed[..c.queue.popped];
    }
  }

  /** What a render leaves waiting, and what it plays. */
  lemma RenderShape(e: Engine, op: Op)
    requires e.Valid() && op.Render? && OpValid(op)
    ensures var (held, rest) := Pull(e.renderer.pending, Offered(e, op));
            var q := After(e, op).control.queue;
            && After(e, op).renderer == Play(e.renderer.(pending := held, published := e.renderer.position), op.frames)
            && q.popped + |rest| == |q.pushed| && forall i :: 0 <= i < |rest| ==> q.pushed[q.popped + i] == rest[i]
  {
    hide ControlStep, Pull, Play;
    ControlStepValid(e.control, op, e.renderer.published, e.renderer.position);
    PullLeavesTail(e.renderer.pending, Offered(e, op));
  }

  /** No list the renderer may hold once it has pulled the flush at `k` makes up, with what it has
      played, the survivors. */
  ghost predicate Missed(done: seq<Event>, pushed: seq<Event>, k: nat)
    requires k < |pushed|
  {
    forall held: seq<Event> :: multiset(held) + multiset(done) != multiset(Survivors(pushed[..k + 1]))
  }

  /** It is so if something played does not survive that flush. */
  lemma PlayedIsMissed(done: seq<Event>, pushed: seq<Event>, k: nat, t: Event)
    requires k < |pushed| && t in done && t !in Survivors(pushed[..k + 1])
    ensures Missed(done, pushed, k)
  {
    hide Survivors;
    assert t in multiset(done);
    assert multiset(Survivors(pushed[..k + 1]))[t] == 0;
  }

  /** A flush missed stays missed: the renderer has played a trigger that does not survive it, so
      whatever it holds by the time it has pulled that flush, the survivors do not add up. */
  lemma MissedFlushIsHeard(e: Engine, op: Op)
    requires Settled(e) && op.Render? && OpValid(op) && e.control.queue.Vacant() > 0 && op.frames >= 1
    requires MissesFlush(e.renderer.pending, Offered(e, op), e.renderer.position + op.frames)
    ensures var e', q := After(e, op), After(e, op).control.queue;
            exists k :: q.popped <= k < |q.pushed| && q.pushed[k].kind.Flush?
                && Missed(Events(e'.renderer.applied), q.pushed, k)
  {
    hide ControlStep, Pull, Play, Survivors, Sorted, FlushesSpare, Before, Kept, After, Offered;
    var position := e.renderer.position;
    var waiting := Offered(e, op);
    PullKeepsSorted(e.renderer.pending, waiting);
    RenderShape(e, op);
    var (held, rest) := Pull(e.renderer.pending, waiting);
    var i, t :| 0 <= i < |rest| && rest[i].kind.Flush? && t in held && !Kept(t, rest[i].sample)
        && t.sample < position + op.frames;
    PlayMoves(e.renderer.(pending := held, published := position), op.frames);
    DueIsBefore(held, position + op.frames, t);
    AfterValid(e, op);
    var e' := After(e, op);
    var q := e'.control.queue;
    SurvivorsBeforeFlush(q.pushed, q.popped + i, t);
    assert t in Events(e'.renderer.applied);
    PlayedIsMissed(Events(e'.renderer.applied), q.pushed, q.popped + i, t);
    assert Missed(Events(e'.renderer.applied), q.pushed, q.popped + i);
  }

  lemma {:induction false} RunSettles(e: Engine, ops: seq<Op>)
    requires Settled(e) && OpsValid(ops) && AllUnblocked(e, ops)
    ensures Settled(Run(e, ops))
    decreases |ops|
  {
    hide After, Unblocked, Survivors;
    if ops != [] {
      AfterValid(e, ops[0]);
      StepSettles(e, ops[0]);
      RunSettles(After(e, ops[0]), ops[1..]);
    }
  }

  lemma {:induction false} SurvivorsWithoutFlush(taken: seq<Event>, more: seq<Event>)
    requires NoFlush(more)
    ensures Survivors(taken + more) == Survivors(taken) + more
    decreases |more|
  {
    if more == [] {
      assert taken + more == taken;
    } else {
      assert (taken + more)[..|taken + more| - 1] == taken + more[..|more| - 1];
      assert more[|more| - 1] in more;
      SurvivorsWithoutFlush(taken, more[..|more| - 1]);
    }
  }

  /** Over every run mixing starts, stops, taps, re-syncs, follower snaps, edits, switches of the
      clock, parameter changes and renders: what the renderer played, and would hold once it had
      taken all that waits, is exactly what survives the flushes among everything ever pushed,
      each survivor once; and nothing plays before its sample. */
  lemma FlushRefinement(e: Engine, ops: seq<Op>)
    requires Settled(e) && OpsValid(ops) && AllUnblocked(e, ops)
    ensures var e' := Run(e, ops);
            var q, done := e'.control.queue, Events(e'.renderer.applied);
            && multiset(done) + multiset(TakeAll(e'.renderer.pending, q.Waiting())) == multiset(Survivors(q.pushed))
            && (NoFlush(q.Waiting()) ==>
                  multiset(done) + multiset(e'.renderer.pending) + multiset(q.Waiting())
                      == multiset(Survivors(q.pushed)))
            && forall a <- e'.renderer.applied :: a.event.sample <= a.time < e'.renderer.position
  {
    hide Run, AllUnblocked, Survivors, FlushesSpare;
    RunSettles(e, ops);
    var e' := Run(e, ops);
    var q := e'.control.queue;
    TakeAllKeepsSurvivors(e'.renderer.pending, Events(e'.renderer.applied), q.pushed[..q.popped], q.Waiting());
    if NoFlush(q.Waiting()) { TakeAllEvents(e'.renderer.pending, q.Waiting()); }
    assert q.pushed[..q.popped] + q.Waiting() == q.pushed;
  }
}
