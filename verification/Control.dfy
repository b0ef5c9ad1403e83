/** The control thread's half as a value, and each of its calls as a function. */
module Controlling {
  import opened Numbers
  import opened Clock
  import opened Pattern
  import opened Scheduling
  import opened QueuedLogs

  /** A step a jump left at most this long behind is still played, late. */
  const SNAP_GRACE_S := 0.02

  /** How many blocks a separate render thread may be ahead of what control has seen. */
  const COMMITTED_BLOCKS := 2

  datatype Mode = FreeRunning | Following

  /** The control half between two calls. `follower` is the timeline of the follower clock, as
      that clock last left it. */
  datatype ControlState = ControlState(
    sampleRate: real, mode: Mode, internal: Line, follower: Timeline, controls: Controls,
    scheduler: SchedulerState, queue: Ring, lookahead: nat, log: seq<Queued>,
    published: nat, renderBlock: nat, pendingFlush: Option<nat>)
  {
    predicate Valid()
    {
      sampleRate > 0.0 && internal.Valid() && follower.Valid() && scheduler.pattern.Valid() && queue.Valid()
    }

    function Active(): ActiveClock
    {
      match mode case FreeRunning => Internal(internal) case Following => Follow(follower)
    }

    function Adjusted(): AdjustedClock { AdjustedClock(Active(), controls) }

    function Pattern(): Pattern { scheduler.pattern }

    function Grace(): nat { RoundToNat(SNAP_GRACE_S * sampleRate) }
  }

  // ---- Flushes ----

  /** Queues a flush. One that finds no room waits, and a later one sent meanwhile joins it: they go
      out as one flush, at the earlier sample, once there is room. */
  function SendFlush(c: ControlState, at: nat): ControlState
    requires c.Valid()
  {
    var first: nat := if c.pendingFlush.Some? then Min(c.pendingFlush.value, at) else at;
    if c.queue.Vacant() > 0 then c.(queue := c.queue.Push(Event(first, Flush)), pendingFlush := None)
    else c.(pendingFlush := Some(first))
  }

  /** Queues a parameter change if that leaves the flush its slots. */
  function PushReserved(c: ControlState, e: Event): ControlState
    requires c.Valid()
  {
    if c.queue.Vacant() > FLUSH_RESERVE then c.(queue := c.queue.Push(e)) else c
  }

  // ---- The commit point ----

  /** Takes the smallest distance between two published positions for the block size. */
  function NoteRenderPosition(c: ControlState, position: nat): ControlState
  {
    if position > c.published then
      var block: nat := position - c.published;
      var learned: nat :=
        if c.published > 0 || c.renderBlock > 0 then
          (if c.renderBlock == 0 then block else Min(c.renderBlock, block))
        else c.renderBlock;
      c.(renderBlock := learned, published := position)
    else if position < c.published then c.(published := position)
    else c
  }

  /** Where a flush sent at `now` is sure to arrive before it is needed; `position` is what the
      renderer has published. Until the renderer is past `position` that is two learned blocks
      on, but no more than half the lookahead. */
  function CommitPoint(c: ControlState, position: nat, now: nat): (r: (ControlState, nat))
    ensures r.1 >= now && r.0 == NoteRenderPosition(c, position)
    ensures now > position ==> r.1 == now
    ensures now <= position && 2 * r.0.renderBlock <= c.lookahead / 2 ==> r.1 == position + 2 * r.0.renderBlock
    ensures now <= position && 2 * r.0.renderBlock > c.lookahead / 2 ==> r.1 == position + c.lookahead / 2
  {
    var c' := NoteRenderPosition(c, position);
    if now > position then (c', now)
    else
      var ahead := Min(COMMITTED_BLOCKS * c'.renderBlock, c'.lookahead / 2);
      (c', Max(position + ahead, now))
  }

  // ---- Restarting the internal clock ----

  /** Where beat 0 must be anchored for step 0 to sound at `sample`, latency and nudge included. */
  function RestartAnchor(l: Line, controls: Controls, sampleRate: real, sample: nat): real
    requires l.Valid()
  {
    sample as real + controls.latencyMs * sampleRate / 1000.0 - controls.nudgeBeats * l.SamplesPerBeat()
  }

  /** Anchors the internal clock so that step 0 is heard at `sample`. */
  function RestartInternalAt(c: ControlState, sample: nat): ControlState
    requires c.Valid()
  {
    var anchor := RestartAnchor(c.internal, c.controls, c.sampleRate, sample);
    var c' := c.(internal := c.internal.Aligned(anchor, 0.0));
    var first := StepSample(c.Pattern(), c'.Adjusted(), 0);
    if first == sample then c'
    else c.(internal := c.internal.Aligned(anchor + sample as real - first as real, 0.0))
  }

  /** After a restart of the internal clock, step 0 sounds exactly where asked: the correction
      for rounding is never needed when the clock and the engine agree on the sample rate. */
  lemma RestartPutsStepZero(c: ControlState, sample: nat)
    requires c.Valid() && c.mode == FreeRunning && c.internal.sampleRate == c.sampleRate
    ensures var c' := RestartInternalAt(c, sample);
            c'.Valid() && StepSample(c.Pattern(), c'.Adjusted(), 0) == sample
            && c'.Adjusted().SampleAtBeat(0.0) == sample as real
  {
    var anchor := RestartAnchor(c.internal, c.controls, c.sampleRate, sample);
    var c1 := c.(internal := c.internal.Aligned(anchor, 0.0));
    var clock := c1.Adjusted();
    assert c1.internal.SamplesPerBeat() == c.internal.SamplesPerBeat();
    assert clock.SampleAtBeat(0.0) == sample as real;
  }

  /** Takes back the steps with a hit at or behind `commit`, and names the earliest of them. */
  function DropQueuedFrom(c: ControlState, commit: nat): (ControlState, nat)
    requires c.Valid()
  {
    var kept := FlushFrom(c.log, commit);
    if |kept| < |c.log| then
      (SendFlush(c, commit).(log := kept), c.log[|kept|].step)
    else
      (c.(log := kept), c.scheduler.nextStep)
  }

  // ---- Realigning a running pattern ----

  /** Half a step, in samples at the active clock's long-run tempo. */
  function HalfStep(c: ActiveClock): (h: real)
    requires c.Valid()
    ensures h > 0.0
  {
    0.5 * BEATS_PER_STEP * c.SamplesPerBeat()
  }

  /** Where the half step behind `heard` is over. */
  function HalfStepAfter(c: ControlState, heard: real): nat
    requires c.Valid()
  {
    Max(Ceil(heard + HalfStep(c.Active())), 0)
  }

  /** The old timeline's guess at the last step heard, for a log whose oldest entry is already
      behind `commit`. */
  function HeardFromTimeline(c: ControlState, commit: nat, unplayed: nat, before: ActiveClock): Option<real>
    requires c.Valid() && before.Valid()
  {
    var old' := AdjustedClock(before, c.controls);
    var first := Min(unplayed, FirstStepAtOrAfter(c.Pattern(), old', commit));
    if first == 0 then None else Some(old'.SampleAtBeat(c.Pattern().StepBeat((first - 1) as nat)))
  }

  /** The first step a realign at `commit` has still to play. */
  function Unplayed(c: ControlState, cut: Cut): nat
  {
    if cut.dropped.Some? then cut.dropped.value else c.scheduler.nextStep
  }

  /** The sample of the last step heard before `commit`, if there was one. */
  function LastHeard(c: ControlState, cut: Cut, commit: nat, before: ActiveClock): Option<real>
    requires c.Valid() && before.Valid()
  {
    if cut.heard.Some? then Some(cut.heard.value.sample as real)
    else if |c.log| == QUEUED_MEMORY then HeardFromTimeline(c, commit, Unplayed(c, cut), before)
    else None
  }

  /** The earliest sample a realign at `commit` lets the new timeline play from. */
  function RealignFrom(c: ControlState, commit: nat, before: ActiveClock): nat
    requires c.Valid() && before.Valid()
  {
    var heard := LastHeard(c, CutFrom(c.log, commit, None), commit, before);
    var from := SaturatingSub(commit, c.Grace());
    if heard.Some? then Max(from, HalfStepAfter(c, heard.value)) else from
  }

  /** What a jump of the timeline at `commit` does to a running pattern: take back the steps not
      yet heard, and put the cursor where the new timeline goes on. */
  function RealignContinuous(c: ControlState, commit: nat, before: ActiveClock): ControlState
    requires c.Valid() && before.Valid()
  {
    var cut := CutFrom(c.log, commit, None);
    var flushed := SendFlush(c, cut.flush).(log := FlushFrom(c.log, cut.flush));
    var step := FirstStepAtOrAfter(c.Pattern(), c.Adjusted(), RealignFrom(c, commit, before));
    flushed.(scheduler := c.scheduler.Seek(step, Unplayed(c, cut)))
  }

  function RealignAfterSnap(c: ControlState, position: nat, now: nat, before: ActiveClock): ControlState
    requires c.Valid() && before.Valid()
  {
    if !c.scheduler.playing then c
    else
      var (c', commit) := CommitPoint(c, position, now);
      RealignContinuous(c', commit, before)
  }

  // ---- The calls ----

  function Started(c: ControlState, position: nat, now: nat): ControlState
    requires c.Valid()
  {
    var (c1, commit) := CommitPoint(c, position, now);
    match c1.mode
    case FreeRunning =>
      var (c2, unplayed) := DropQueuedFrom(c1, commit);
      var c3 := RestartInternalAt(c2, commit);
      c3.(scheduler := c3.scheduler.StartAt(0))
    case Following => StartedFollowing(c1, commit)
  }

  function StartedFollowing(c: ControlState, commit: nat): ControlState
    requires c.Valid()
  {
    var cut := CutFrom(c.log, commit, None);
    var c1 := if cut.dropped.Some? then SendFlush(c, cut.flush) else c;
    var c2 := c1.(log := FlushFrom(c.log, cut.flush));
    var from := if cut.heard.Some? then Max(commit, HalfStepAfter(c2, cut.heard.value.sample as real)) else commit;
    c2.(scheduler := c2.scheduler.StartAt(FirstStepAtOrAfter(c2.Pattern(), c2.Adjusted(), from)))
  }

  function Resynced(c: ControlState, position: nat, now: nat): ControlState
    requires c.Valid()
  {
    if c.mode == Following then c
    else
      var (c1, commit) := CommitPoint(c, position, now);
      if !c1.scheduler.playing then RestartInternalAt(c1, commit)
      else
        var (c2, unplayed) := DropQueuedFrom(c1, commit);
        var c3 := RestartInternalAt(c2, commit);
        c3.(scheduler := c3.scheduler.Seek(FirstStepAtOrAfter(c3.Pattern(), c3.Adjusted(), commit), unplayed))
  }

  /** A tap accepted at `sample`, with a tempo if the tap sequence has one. */
  function Tapped(c: ControlState, sample: real, bpm: Option<real>, position: nat, now: nat): ControlState
    requires c.Valid() && c.mode == FreeRunning
  {
    var line := if bpm.Some? then c.internal.WithTempo(bpm.value, sample) else c.internal;
    var beat := line.BeatAtSample(sample);
    var c1 := c.(internal := line.Aligned(sample, Round(beat) as real));
    if !c1.scheduler.playing then c1
    else
      var (c2, commit) := CommitPoint(c1, position, now);
      RealignContinuous(c2, commit, Internal(c.internal))
  }

  /** The follower took an observation: its new timeline, and whether it snapped. */
  function Observed(c: ControlState, next: Timeline, snapped: bool, position: nat, now: nat): ControlState
    requires c.Valid() && next.Valid()
  {
    if c.mode == FreeRunning then c
    else
      var c1 := c.(follower := next);
      if snapped then RealignAfterSnap(c1, position, now, Follow(c.follower)) else c1
  }

  /** A clock at `bpm` that puts `beat` on `sample`, without a slew: a new follower's. */
  function StraightLine(sampleRate: real, bpm: real, sample: real, beat: real): Timeline
    requires sampleRate > 0.0
  {
    var rate := bpm / (60.0 * sampleRate);
    Timeline(sampleRate, bpm, sample, beat, rate, sample, rate)
  }

  /** Switches the clock at `now`: the new one goes on at the tempo and the beat of the old. */
  function WithMode(c: ControlState, mode: Mode, now: nat): ControlState
    requires c.Valid()
  {
    var sample := now as real;
    var beat := c.Active().BeatAtSample(sample);
    if mode == c.mode then c
    else match mode
      case FreeRunning =>
        c.(mode := mode, internal := c.internal.WithTempo(c.follower.bpm, sample).Aligned(sample, beat))
      case Following => c.(mode := mode, follower := StraightLine(c.sampleRate, c.internal.bpm, sample, beat))
  }

  /** The beat at `now` survives a switch of the clock. */
  lemma SwitchKeepsBeat(c: ControlState, mode: Mode, now: nat)
    requires c.Valid()
    ensures var c' := WithMode(c, mode, now);
            c'.Valid() && c'.mode == mode
                && c'.Active().BeatAtSample(now as real) == c.Active().BeatAtSample(now as real)
  {
    var sample := now as real;
    DivPos(c.internal.bpm, 60.0 * c.sampleRate);
    var l := c.internal.WithTempo(c.follower.bpm, sample).Aligned(sample, c.Active().BeatAtSample(sample));
    assert (sample - l.anchorSample) / l.SamplesPerBeat() == 0.0;
  }

  /** Remembers the steps `first`, ..., `end - 1` with the samples they were queued at. */
  function LogSteps(log: seq<Queued>, p: Pattern, clock: AdjustedClock, first: nat, end: nat): seq<Queued>
    requires p.Valid() && clock.Valid() && first <= end
    decreases end
  {
    if first == end then log
    else
      var span := StepSpan(p, clock, end - 1);
      Remember(LogSteps(log, p, clock, first, end - 1), Queued(end - 1, span.0, span.1))
  }

  /** Schedules up to the horizon and logs what was scheduled. */
  function ScheduleAndLog(c: ControlState, now: nat): ControlState
    requires c.Valid()
  {
    var first := c.scheduler.nextStep;
    ScheduleRefines(c.scheduler, c.Adjusted(), now + c.lookahead, c.queue, []);
    var (scheduler, queue) := Scheduled(c.scheduler, c.Adjusted(), now + c.lookahead, c.queue, []);
    var end := scheduler.nextStep;
    var from := Max(first, SaturatingSub(end, QUEUED_MEMORY));
    c.(scheduler := scheduler, queue := queue,
       log := LogSteps(c.log, c.Pattern(), c.Adjusted(), from, end))
  }

  /** One control tick. `next` and `snapped` are what advancing the follower gives. */
  function Ticked(c: ControlState, next: Timeline, snapped: bool, position: nat, now: nat): ControlState
    requires c.Valid() && next.Valid()
  {
    var c1 := NoteRenderPosition(c, position);
    var c2 := Observed(c1, next, snapped, position, now);
    ObservedValid(c1, next, snapped, position, now);
    CaughtUp(c2, now)
  }

  /** Sends a flush that had to wait, and schedules unless it still has to. */
  function CaughtUp(c: ControlState, now: nat): ControlState
    requires c.Valid()
  {
    if c.pendingFlush.Some? then
      var c1 := SendFlush(c.(pendingFlush := None), c.pendingFlush.value);
      if c1.pendingFlush.Some? then c1 else ScheduleAndLog(c1, now)
    else ScheduleAndLog(c, now)
  }

  // ---- Every call keeps the state well formed ----

  lemma RealignValid(c: ControlState, commit: nat, before: ActiveClock)
    requires c.Valid() && before.Valid()
    ensures RealignContinuous(c, commit, before).Valid()
  {
    hide FirstStepAtOrAfter, CutFrom, FlushFrom, RealignFrom;
  }

  lemma ObservedValid(c: ControlState, next: Timeline, snapped: bool, position: nat, now: nat)
    requires c.Valid() && next.Valid()
    ensures Observed(c, next, snapped, position, now).Valid()
  {
    hide RealignContinuous;
    if c.mode == Following && snapped && c.scheduler.playing {
      var (c', commit) := CommitPoint(c.(follower := next), position, now);
      RealignValid(c', commit, Follow(c.follower));
    }
  }

  lemma ScheduleAndLogValid(c: ControlState, now: nat)
    requires c.Valid()
    ensures ScheduleAndLog(c, now).Valid()
  {
    hide Scheduled, LogSteps;
    ScheduleRefines(c.scheduler, c.Adjusted(), now + c.lookahead, c.queue, []);
  }

  lemma TickedValid(c: ControlState, next: Timeline, snapped: bool, position: nat, now: nat)
    requires c.Valid() && next.Valid()
    ensures Ticked(c, next, snapped, position, now).Valid()
  {
    hide ScheduleAndLog, Observed;
    var c1 := NoteRenderPosition(c, position);
    ObservedValid(c1, next, snapped, position, now);
    var c2 := Observed(c1, next, snapped, position, now);
    if c2.pendingFlush.Some? {
      ScheduleAndLogValid(SendFlush(c2.(pendingFlush := None), c2.pendingFlush.value), now);
    } else {
      ScheduleAndLogValid(c2, now);
    }
  }
}
