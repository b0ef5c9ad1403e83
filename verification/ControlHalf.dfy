/** The control half in place: clocks, scheduler and log of queued steps, and the end of the queue it
    pushes to. */
module ControlHalf {
  import opened Numbers
  import opened Clock
  import opened Pattern
  import opened Scheduling
  import opened QueuedLogs
  import opened Controlling
  import Observing
  import Following
  import FollowerRuns
  import FollowerClocks

  /** The tempo of a report, if it has a finite one. */
  function TempoOf(obs: Observing.Observation): Option<real>
  {
    if obs.bpm.Some? && obs.bpm.value.Finite? then Some(obs.bpm.value.value) else None
  }

  class Control {
    const sampleRate: real
    var mode: Mode
    const internal: InternalClock
    const follower: FollowerClocks.FollowerClock
    var controls: Controls
    const scheduler: Scheduler
    const queue: EventQueue
    const queued: QueuedLog
    const lookahead: nat
    var published: nat
    var renderBlock: nat
    var pendingFlush: Option<nat>

    ghost predicate Valid()
      reads this, internal, follower, scheduler, queue, queued
    {
      && sampleRate > 0.0 && internal.Value().Valid() && Following.Valid(follower.Value())
      && internal.sampleRate == sampleRate && follower.sampleRate == sampleRate
      && scheduler.pattern.Valid() && queue.Value().Valid() && queue.pops == [] && queued.Valid()
    }

    ghost function Value(): (c: ControlState)
      reads this, internal, follower, scheduler, queue, queued, queued.entries
      requires Valid()
      ensures c.Valid() && c.internal.sampleRate == c.sampleRate == c.follower.sampleRate
    {
      FollowerRuns.OutputValid(follower.Value());
      ControlState(sampleRate, mode, internal.Value(), follower.Value().Output(), controls, scheduler.Value(),
                   queue.Value(), lookahead, queued.Contents(), published, renderBlock, pendingFlush)
    }

    constructor (sampleRate: real, bpm: real, precision: Following.Precision, pattern: Pattern,
                 queue: EventQueue, lookahead: nat)
      requires sampleRate > 0.0 && pattern.Valid() && queue.Value().Valid() && queue.pops == []
      ensures Valid() && fresh({internal, follower, scheduler, queued, queued.entries}) && this.queue == queue
      ensures Value().log == [] && Value().pendingFlush == None && Value().mode == FreeRunning
      ensures Value().queue == queue.Value() && Value().scheduler == SchedulerState(pattern, 0, false, None, None)
      ensures Value().internal == Line(sampleRate, Clamp(bpm, MIN_BPM, MAX_BPM), 0.0, 0.0)
              && Value().lookahead == lookahead
      ensures Value().published == 0 && Value().renderBlock == 0 && Value().controls == Controls(0.0, 0.0)
    {
      this.sampleRate, this.queue, this.lookahead := sampleRate, queue, lookahead;
      mode, controls, published, renderBlock, pendingFlush := FreeRunning, Controls(0.0, 0.0), 0, 0, None;
      internal := new InternalClock(sampleRate, bpm);
      follower := new FollowerClocks.FollowerClock(sampleRate, Observing.Finite(bpm), precision);
      scheduler := new Scheduler(pattern);
      queued := new QueuedLog();
    }

    /** Sends a flush together with one still waiting for room, or leaves both waiting as one. */
    method Flush(at: nat)
      requires Valid()
      modifies this`pendingFlush, queue
      ensures Valid() && Value() == SendFlush(old(Value()), at)
    {
      var first: nat := if pendingFlush.Some? && pendingFlush.value <= at then pendingFlush.value else at;
      pendingFlush := None;
      var ok := queue.Push(Event(first, EventKind.Flush));
      if !ok { pendingFlush := Some(first); }
    }

    /** Queues a parameter change if that leaves the flush its slots. */
    method SetParam(e: Event) returns (ok: bool)
      requires Valid()
      modifies queue
      ensures Valid() && Value() == PushReserved(old(Value()), e)
    {
      ok := false;
      var vacant := queue.Vacant();
      if vacant > FLUSH_RESERVE { ok := queue.Push(e); }
    }

    /** Takes the smallest distance between two published positions for the block size. */
    method NotePosition(position: nat)
      requires Valid()
      modifies this`published, this`renderBlock
      ensures Valid() && Value() == NoteRenderPosition(old(Value()), position)
    {
      if position > published {
        var block := position - published;
        if published > 0 || renderBlock > 0 {
          renderBlock := if renderBlock == 0 then block else Min(renderBlock, block);
        }
        published := position;
      } else if position < published {
        published := position;
      }
    }

    /** Where a flush sent now is sure to arrive before it is needed. */
    method Commit(position: nat, now: nat) returns (commit: nat)
      requires Valid()
      modifies this`published, this`renderBlock
      ensures Valid() && (Value(), commit) == CommitPoint(old(Value()), position, now)
    {
      NotePosition(position);
      if now > position { return now; }
      var ahead := Min(COMMITTED_BLOCKS * renderBlock, lookahead / 2);
      commit := Max(position + ahead, now);
    }

    function Active(): ActiveClock
      reads this, internal, follower
    {
      match mode case FreeRunning => Internal(internal.Value()) case Following => Follow(follower.Value().Output())
    }

    /** Anchors the internal clock so that step 0 is heard at `sample`. */
    method RestartAt(sample: nat)
      requires Valid()
      modifies internal
      ensures Valid() && Value() == RestartInternalAt(old(Value()), sample)
    {
      hide StepSample, RestartAnchor;
      FollowerRuns.OutputValid(follower.Value());
      var anchor := RestartAnchor(internal.Value(), controls, sampleRate, sample);
      internal.Align(anchor, 0.0);
      var first := StepSample(scheduler.pattern, AdjustedClock(Active(), controls), 0);
      if first != sample { internal.Align(anchor + sample as real - first as real, 0.0); }
    }

    /** The first of the steps queued from `commit` on. */
    method FirstDropped(commit: nat) returns (dropped: Option<nat>)
      requires Valid()
      ensures var log := queued.Contents();
              var kept := FlushFrom(log, commit);
              dropped == if |kept| < |log| then Some(log[|kept|].step) else None
    {
      hide FlushFrom, Rings.Window;
      ghost var log := queued.Contents();
      dropped := None;
      assert log[..|log|] == log;
      var i := 0;
      while i < queued.len
        invariant i <= queued.len == |log|
        invariant FlushFrom(log[..|log| - i], commit) == FlushFrom(log, commit)
        invariant dropped == if i == 0 then None else Some(log[|log| - i].step)
      {
        FlushNewest(log[..|log| - i], commit);
        var q := queued.Newest(i);
        if q.sample < commit { break; }
        assert log[..|log| - i][..|log| - i - 1] == log[..|log| - i - 1];
        dropped := Some(q.step);
        i := i + 1;
      }
      FlushNewest(log[..|log| - i], commit);
    }

    /** Takes back the steps with a hit at or behind `commit`; returns the earliest of them. */
    method DropFrom(commit: nat) returns (unplayed: nat)
      requires Valid()
      modifies this`pendingFlush, queue, queued`head, queued`len
      ensures Valid() && (Value(), unplayed) == DropQueuedFrom(old(Value()), commit)
    {
      hide FlushFrom, Rings.Window;
      var dropped := FirstDropped(commit);
      if dropped.Some? { Flush(commit); }
      queued.Flush(commit);
      FlushShorter(old(queued.Contents()), commit);
      unplayed := if dropped.Some? then dropped.value else scheduler.nextStep;
    }

    lemma {:induction false} FlushShorter(log: seq<Queued>, sample: nat)
      ensures |FlushFrom(log, sample)| <= |log|
      decreases |log|
    {
      if log != [] && log[|log| - 1].sample >= sample { FlushShorter(log[..|log| - 1], sample); }
    }

    /** The sample of the last step heard: from the log, or, if its oldest entry is already behind
        `commit`, by the old timeline. */
    method FindHeard(cut: Cut, commit: nat, before: ActiveClock) returns (heard: Option<real>)
      requires Valid() && before.Valid()
      ensures heard == LastHeard(Value(), cut, commit, before)
    {
      hide FirstStepAtOrAfter, Rings.Window;
      if cut.heard.Some? { return Some(cut.heard.value.sample as real); }
      if queued.len < QUEUED_MEMORY { return None; }
      var unplayed := if cut.dropped.Some? then cut.dropped.value else scheduler.nextStep;
      var previous := AdjustedClock(before, controls);
      var found := scheduler.FindFirstStep(previous, commit);
      var first := Min(unplayed, found);
      if first == 0 { return None; }
      heard := Some(previous.SampleAtBeat(scheduler.pattern.StepBeat((first - 1) as nat)));
    }

    /** The earliest sample the new timeline may play from. */
    method FindFrom(cut: Cut, commit: nat, before: ActiveClock) returns (from: nat)
      requires Valid() && before.Valid() && cut == CutFrom(queued.Contents(), commit, None)
      ensures from == RealignFrom(Value(), commit, before)
    {
      hide CutFrom, FirstStepAtOrAfter, HalfStepAfter, LastHeard, Rings.Window;
      var heard := FindHeard(cut, commit, before);
      var grace := RoundToNat(SNAP_GRACE_S * sampleRate);
      from := SaturatingSub(commit, grace);
      if heard.Some? { from := Max(from, HalfStepOn(heard.value)); }
    }

    /** Takes back the steps not yet heard at `commit`, and puts the cursor where the new timeline
        goes on; `before` is the timeline left behind. */
    method Realign(commit: nat, before: ActiveClock)
      requires Valid() && before.Valid()
      modifies this`pendingFlush, queue, queued`head, queued`len, scheduler
      ensures Valid() && Value() == RealignContinuous(old(Value()), commit, before)
    {
      hide FlushFrom, CutFrom, FirstStepAtOrAfter, RealignFrom, Rings.Window, Controlling.SendFlush;
      ActiveValid();
      var cut := queued.CutAt(commit);
      var from := FindFrom(cut, commit, before);
      var unplayed := if cut.dropped.Some? then cut.dropped.value else scheduler.nextStep;
      Flush(cut.flush);
      queued.Flush(cut.flush);
      var step := scheduler.FindFirstStep(AdjustedClock(Active(), controls), from);
      scheduler.Seek(step, unplayed);
    }

    lemma ActiveValid()
      requires Valid()
      ensures Active().Valid() && Active() == Value().Active()
    {
      FollowerRuns.OutputValid(follower.Value());
    }

    /** Where the half step behind `heard` is over. */
    function HalfStepOn(heard: real): (r: nat)
      reads this, internal, follower, scheduler, queue, queued, queued.entries
      requires Valid()
      ensures r == HalfStepAfter(Value(), heard)
    {
      ActiveValid();
      Max(Ceil(heard + HalfStep(Active())), 0)
    }

    // ---- Calls ----

    /** Starts the pattern: at the commit point with the internal clock restarted there, or on
        the followed timeline's next step. */
    method Start(position: nat, now: nat)
      requires Valid()
      modifies this`pendingFlush, this`published, this`renderBlock, queue, queued`head, queued`len, scheduler, internal
      ensures Valid() && Value() == Started(old(Value()), position, now)
    {
      hide DropQueuedFrom, RestartInternalAt, FlushFrom, CutFrom, FirstStepAtOrAfter, HalfStepAfter, Rings.Window,
           SaturatingAdd, NoteRenderPosition, Controlling.SendFlush;
      var commit := Commit(position, now);
      if mode == FreeRunning {
        var unplayed := DropFrom(commit);
        RestartAt(commit);
        scheduler.Start();
      } else {
        StartFollowing(commit);
      }
    }

    method StartFollowing(commit: nat)
      requires Valid() && mode == Mode.Following
      modifies this`pendingFlush, queue, queued`head, queued`len, scheduler
      ensures Valid() && Value() == StartedFollowing(old(Value()), commit)
    {
      hide FlushFrom, CutFrom, FirstStepAtOrAfter, HalfStepAfter, Rings.Window, SaturatingAdd, Controlling.SendFlush;
      var cut := queued.CutAt(commit);
      if cut.dropped.Some? { Flush(cut.flush); }
      queued.Flush(cut.flush);
      var from := commit;
      if cut.heard.Some? { from := Max(from, HalfStepOn(cut.heard.value.sample as real)); }
      ActiveValid();
      var step := scheduler.FindFirstStep(AdjustedClock(Active(), controls), from);
      scheduler.StartAt(step);
    }

    /** Starts the bar over at the commit point; while following it asks the follower to jump onto
        its next report instead. */
    method Resync(position: nat, now: nat)
      requires Valid()
      modifies this`pendingFlush, this`published, this`renderBlock, queue, queued`head, queued`len, scheduler, internal,
               follower
      ensures Valid() && Value() == Resynced(old(Value()), position, now)
      ensures follower.Value() == if mode == Mode.Following then old(follower.Value()).(resyncRequested := true)
                                  else old(follower.Value())
    {
      hide DropQueuedFrom, RestartInternalAt, FirstStepAtOrAfter, Rings.Window, SaturatingAdd, NoteRenderPosition;
      if mode == Mode.Following {
        follower.RequestResync();
        return;
      }
      var commit := Commit(position, now);
      if !scheduler.playing {
        RestartAt(commit);
        return;
      }
      var unplayed := DropFrom(commit);
      RestartAt(commit);
      ActiveValid();
      var step := scheduler.FindFirstStep(AdjustedClock(Active(), controls), commit);
      scheduler.Seek(step, unplayed);
    }

    /** A tap accepted at `sample` pulls the internal clock's grid onto it; `obs` is what the tap
        sequence makes of it, which a follower takes as an observation. */
    method Tap(sample: real, obs: Observing.Observation, position: nat, now: nat, sqrt: real -> real)
      requires Valid()
      modifies this`pendingFlush, this`published, this`renderBlock, queue, queued`head, queued`len, scheduler, internal,
               follower
      ensures Valid()
      ensures mode == FreeRunning ==>
                Value() == Tapped(old(Value()), sample, TempoOf(obs), position, now)
                    && follower.Value() == old(follower.Value())
      ensures var f := Following.Observed(old(follower.Value()), obs, Observing.Finite(now as real), sqrt);
              mode == Mode.Following ==>
                && Following.Valid(f) && f.Output().Valid() && follower.Value() == f.(discontinuity := false)
                && Value() == Controlling.Observed(old(Value()), f.Output(), f.discontinuity, position, now)
    {
      hide RealignContinuous, Rings.Window, NoteRenderPosition, Following.Observed, Following.Valid,
           Controlling.Observed;
      if mode == FreeRunning {
        TapInternal(sample, TempoOf(obs), position, now);
        FollowerRuns.ObservedValid(follower.Value(), obs, Observing.Finite(now as real), sqrt);
      } else {
        Observe(obs, position, now, sqrt);
      }
    }

    method TapInternal(sample: real, bpm: Option<real>, position: nat, now: nat)
      requires Valid() && mode == FreeRunning
      modifies this`pendingFlush, this`published, this`renderBlock, queue, queued`head, queued`len, scheduler, internal
      ensures Valid() && Value() == Tapped(old(Value()), sample, bpm, position, now)
    {
      hide RealignContinuous, Rings.Window, NoteRenderPosition;
      var before := internal.Value();
      if bpm.Some? { internal.SetTempo(bpm.value, sample); }
      var beat := internal.Value().BeatAtSample(sample);
      internal.Align(sample, Round(beat) as real);
      if scheduler.playing {
        var commit := Commit(position, now);
        Realign(commit, Internal(before));
      }
    }

    /** Switches the clock at `now`, keeping tempo and beat. A switch to the follower starts it over,
        unlocked; one asked to follow already only takes the precision. */
    method SetClockMode(next: Mode, precision: Following.Precision, now: nat)
      requires Valid()
      modifies this`mode, internal, follower
      ensures Valid() && Value() == WithMode(old(Value()), next, now)
      ensures var was, beat, line := old(follower.Value()), old(Value()).Active().BeatAtSample(now as real),
                                     old(Value()).internal;
              follower.Value() == if next == FreeRunning then was
                                  else if old(mode) == Mode.Following then Following.WithPrecision(was, precision)
                                  else FollowerClocks.Renewed(sampleRate, line.bpm, precision, now as real, beat)
    {
      hide Following.Valid, Rings.Window, Following.WithPrecision, FollowerClocks.Renewed;
      ActiveValid();
      var beat := Active().BeatAtSample(now as real);
      if next == mode {
        if mode == Mode.Following {
          FollowerRuns.PrecisionValid(follower.Value(), precision);
          PrecisionKeeps(follower.Value(), precision);
          follower.ChangePrecision(precision);
        }
      } else if next == FreeRunning {
        internal.SetTempo(follower.bpm, now as real);
        internal.Align(now as real, beat);
      } else {
        FollowerClocks.RenewedRunsOn(sampleRate, internal.bpm, precision, now as real, beat);
        follower.Renew(internal.bpm, precision, now as real, beat);
      }
      mode := next;
    }

    lemma PrecisionKeeps(f: Following.State, p: Following.Precision)
      ensures Following.WithPrecision(f, p).Output() == f.Output()
    {
    }

    method SetControls(controls: Controls)
      requires Valid()
      modifies this`controls
      ensures Valid() && Value() == old(Value()).(controls := controls)
    {
      this.controls := controls;
    }

    /** Realigns a running pattern after the follower snapped. */
    method RealignSnapped(position: nat, now: nat, before: ActiveClock)
      requires Valid() && before.Valid()
      modifies this`pendingFlush, this`published, this`renderBlock, queue, queued`head, queued`len, scheduler
      ensures Valid() && Value() == RealignAfterSnap(old(Value()), position, now, before)
    {
      hide RealignContinuous, Rings.Window, NoteRenderPosition;
      if !scheduler.playing { return; }
      var commit := Commit(position, now);
      Realign(commit, before);
    }

    /** Hands a report to the follower. A snap of the follower flushes and realigns at once. */
    method Observe(obs: Observing.Observation, position: nat, now: nat, sqrt: real -> real)
      requires Valid()
      modifies this`pendingFlush, this`published, this`renderBlock, queue, queued`head, queued`len, scheduler, follower
      ensures Valid()
      ensures mode == FreeRunning ==> Value() == old(Value())
      ensures var f := Following.Observed(old(follower.Value()), obs, Observing.Finite(now as real), sqrt);
              mode == Mode.Following ==>
                && Following.Valid(f) && f.Output().Valid() && follower.Value() == f.(discontinuity := false)
                && Value() == Controlling.Observed(old(Value()), f.Output(), f.discontinuity, position, now)
    {
      hide RealignAfterSnap, Rings.Window, Following.Observed, Following.Valid;
      if mode == FreeRunning { return; }
      FollowerRuns.OutputValid(follower.Value());
      var before := follower.Value().Output();
      FollowerRuns.RateKept(follower.Value(), FollowerRuns.Observe(obs, Observing.Finite(now as real)), sqrt);
      follower.Observe(obs, Observing.Finite(now as real), sqrt);
      FollowerRuns.OutputValid(follower.Value());
      var jumped := follower.TakeJump();
      if jumped { RealignSnapped(position, now, Follow(before)); }
    }

    /** Schedules up to the horizon and logs where the new steps went. */
    method ScheduleAhead(now: nat) returns (count: nat)
      requires Valid()
      modifies queue, queued`head, queued`len, queued.entries, scheduler
      ensures Valid() && Value() == ScheduleAndLog(old(Value()), now)
      ensures count == |queue.pushed| - |old(queue.pushed)|
    {
      hide Scheduled, LogSteps, Rings.Window, StepSample, Outcome;
      ActiveValid();
      ghost var c := Value();
      var clock := AdjustedClock(Active(), controls);
      var first := scheduler.nextStep;
      ScheduleRefines(scheduler.Value(), clock, now + lookahead, queue.Value(), []);
      ScheduleKeeps(scheduler.Value(), clock, now + lookahead, queue.Value());
      count := scheduler.Schedule(clock, now + lookahead, queue);
      var end := scheduler.nextStep;
      LogNew(clock, Max(first, SaturatingSub(end, QUEUED_MEMORY)), end);
    }

    lemma ScheduleKeeps(s: SchedulerState, clock: AdjustedClock, horizon: nat, q: Ring)
      requires s.pattern.Valid() && clock.Valid() && q.Valid()
      ensures Scheduled(s, clock, horizon, q, []).0.nextStep >= s.nextStep
    {
      hide StepSample;
      ScheduleRefines(s, clock, horizon, q, []);
    }

    method LogNew(clock: AdjustedClock, first: nat, end: nat)
      requires queued.Valid() && scheduler.pattern.Valid() && clock.Valid() && first <= end
      modifies queued`head, queued`len, queued.entries
      ensures queued.Valid()
      ensures queued.Contents() == LogSteps(old(queued.Contents()), scheduler.pattern, clock, first, end)
    {
      hide Rings.Window, StepSpan, Remember;
      ghost var log := queued.Contents();
      for step := first to end
        invariant queued.Valid() && queued.Contents() == LogSteps(log, scheduler.pattern, clock, first, step)
      {
        var span := StepSpan(scheduler.pattern, clock, step);
        queued.Push(Queued(step, span.0, span.1));
      }
    }

    /** What the control thread does per block: advances the follower, handles a jump, sends a
        flush kept back, and schedules. */
    method Tick(position: nat, now: nat) returns (count: nat)
      requires Valid()
      modifies this`pendingFlush, this`published, this`renderBlock, queue, queued`head, queued`len, queued.entries,
               scheduler, follower
      ensures Valid()
      ensures var was := old(follower.Value());
              var f := if mode == Mode.Following then Following.Advanced(was, Observing.Finite(now as real)) else was;
              && Following.Valid(f) && f.Output().Valid()
              && follower.Value() == (if mode == Mode.Following then f.(discontinuity := false) else f)
              && Value() == Ticked(old(Value()), f.Output(), mode == Mode.Following && f.discontinuity, position, now)
    {
      hide CaughtUp, Rings.Window, Controlling.Observed, Following.Advanced, Following.Valid, NoteRenderPosition;
      FollowerRuns.OutputValid(follower.Value());
      NotePosition(position);
      AdvanceFollower(position, now);
      count := CatchUp(now);
    }

    /** Sends a flush that had to wait, and schedules unless it still has to. */
    method CatchUp(now: nat) returns (count: nat)
      requires Valid()
      modifies this`pendingFlush, queue, queued`head, queued`len, queued.entries, scheduler
      ensures Valid() && Value() == CaughtUp(old(Value()), now)
    {
      hide ScheduleAndLog, Rings.Window, Controlling.SendFlush;
      count := 0;
      if pendingFlush.Some? {
        var at := pendingFlush.value;
        pendingFlush := None;
        Flush(at);
        if pendingFlush.Some? { return; }
      }
      count := ScheduleAhead(now);
    }

    method AdvanceFollower(position: nat, now: nat)
      requires Valid()
      modifies this`pendingFlush, this`published, this`renderBlock, queue, queued`head, queued`len, scheduler, follower
      ensures Valid()
      ensures var was := old(follower.Value());
              var f := if mode == Mode.Following then Following.Advanced(was, Observing.Finite(now as real)) else was;
              && Following.Valid(f) && f.Output().Valid()
              && follower.Value() == (if mode == Mode.Following then f.(discontinuity := false) else f)
              && Value() == Controlling.Observed(old(Value()), f.Output(), mode == Mode.Following && f.discontinuity,
                                                 position, now)
    {
      hide RealignAfterSnap, Rings.Window, Following.Advanced, Following.Valid;
      FollowerRuns.OutputValid(follower.Value());
      if mode == FreeRunning { return; }
      var before := follower.Value().Output();
      FollowerRuns.RateKept(follower.Value(), FollowerRuns.Advance(Observing.Finite(now as real)), x => x);
      follower.Advance(Observing.Finite(now as real));
      FollowerRuns.OutputValid(follower.Value());
      var jumped := follower.TakeJump();
      if jumped { RealignSnapped(position, now, Follow(before)); }
    }
  }
}
