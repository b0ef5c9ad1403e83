/** What stop promises: until the next start nothing more is queued to sound. */
module Stopping {
  import opened Numbers
  import opened Clock
  import opened Pattern
  import opened Scheduling
  import opened QueuedLogs
  import opened Rendering
  import opened Controlling
  import opened Engines
  import opened Realigning

  /** Stopped, with this much queued, logged and scheduled. */
  ghost predicate StoppedAt(c: ControlState, triggers: seq<Event>, log: seq<Queued>, next: nat)
  {
    && !c.scheduler.playing && OnlyTriggers(c.queue.pushed) == triggers && c.log == log
    && c.scheduler.nextStep == next
  }

  lemma StopStops(c: ControlState, position: nat, now: nat)
    requires c.Valid()
    ensures var c' := ControlStep(c, Stop, position, now);
            StoppedAt(c', OnlyTriggers(c.queue.pushed), c.log, c.scheduler.nextStep)
            && c'.queue == c.queue && c'.Active() == c.Active() && c'.pendingFlush == c.pendingFlush
  {
  }

  /** The call leaves cursor and log alone, and queues at most a parameter change or a flush. */
  ghost predicate Silent(c: ControlState, c': ControlState)
  {
    && !c'.scheduler.playing && c'.scheduler.nextStep == c.scheduler.nextStep && c'.log == c.log
    && (c'.queue.pushed == c.queue.pushed ||
        exists e: Event :: !e.kind.Trigger? && c'.queue.pushed == c.queue.pushed + [e])
  }

  /** Every call but a start is silent while nothing plays. */
  lemma CallsAreSilent(c: ControlState, op: Op, position: nat, now: nat)
    requires c.Valid() && OpValid(op) && !op.Start? && !c.scheduler.playing
    ensures Silent(c, ControlStep(c, op, position, now))
  {
    hide Silent;
    match op
    case Render(_, next, snapped) => TickIsSilent(c, next, snapped, position, now);
    case SetParam(target, value) => ParamIsSilent(c, Event(now, Param(target, value)));
    case _ => EditIsSilent(c, op, position, now);
  }

  lemma EditIsSilent(c: ControlState, op: Op, position: nat, now: nat)
    requires c.Valid() && OpValid(op) && !op.Start? && !op.Render? && !op.SetParam? && !c.scheduler.playing
    ensures Silent(c, ControlStep(c, op, position, now))
  {
    hide RealignContinuous, RestartAnchor, DropQueuedFrom, StraightLine, Line.WithTempo, ActiveClock.BeatAtSample,
         StepSample, Line.BeatAtSample;
  }

  lemma ParamIsSilent(c: ControlState, e: Event)
    requires c.Valid() && e.kind.Param? && !c.scheduler.playing
    ensures Silent(c, PushReserved(c, e))
  {
  }

  lemma TickIsSilent(c: ControlState, next: Timeline, snapped: bool, position: nat, now: nat)
    requires c.Valid() && next.Valid() && !c.scheduler.playing
    ensures Silent(c, Ticked(c, next, snapped, position, now))
  {
    hide RealignContinuous;
    var c1 := NoteRenderPosition(c, position);
    var c2 := Observed(c1, next, snapped, position, now);
    ObservedValid(c1, next, snapped, position, now);
    assert c2.queue == c.queue && c2.log == c.log && c2.scheduler == c.scheduler;
    if c2.pendingFlush.Some? {
      var c3 := SendFlush(c2.(pendingFlush := None), c2.pendingFlush.value);
      assert c3.scheduler == c.scheduler && c3.log == c.log;
    }
  }

  lemma SilenceKeepsTriggers(c: ControlState, c': ControlState)
    requires Silent(c, c')
    ensures StoppedAt(c', OnlyTriggers(c.queue.pushed), c.log, c.scheduler.nextStep)
  {
    if c'.queue.pushed != c.queue.pushed {
      var e: Event :| !e.kind.Trigger? && c'.queue.pushed == c.queue.pushed + [e];
      OnlyTriggersConcat(c.queue.pushed, [e]);
      assert [e][..0] == [];
      assert OnlyTriggers([e]) == [];
    }
  }

  /** Behind a stop, whatever is called until the next start: nothing plays, the cursor and the log stay,
      and of triggers the queue gets not one more. What was queued before stays queued. */
  lemma StopHolds(e: Engine, ops: seq<Op>)
    requires e.Valid() && OpsValid(ops) && (forall op <- ops :: !op.Start?)
    ensures After(e, Stop).Valid()
    ensures var c := e.control;
            StoppedAt(Run(After(e, Stop), ops).control, OnlyTriggers(c.queue.pushed), c.log, c.scheduler.nextStep)
  {
    hide ControlStep, Processed;
    AfterValid(e, Stop);
    StopStops(e.control, e.renderer.published, e.renderer.position);
    StaysStopped(After(e, Stop), ops);
  }

  lemma {:induction false} StaysStopped(e: Engine, ops: seq<Op>)
    requires e.Valid() && OpsValid(ops) && (forall op <- ops :: !op.Start?) && !e.control.scheduler.playing
    ensures var c := e.control;
            StoppedAt(Run(e, ops).control, OnlyTriggers(c.queue.pushed), c.log, c.scheduler.nextStep)
    decreases |ops|
  {
    hide ControlStep, Processed;
    if ops != [] {
      AfterValid(e, ops[0]);
      var c' := ControlStep(e.control, ops[0], e.renderer.published, e.renderer.position);
      CallsAreSilent(e.control, ops[0], e.renderer.published, e.renderer.position);
      SilenceKeepsTriggers(e.control, c');
      StaysStopped(After(e, ops[0]), ops[1..]);
    }
  }
}
