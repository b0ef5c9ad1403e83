/** What a realign plays on: which steps count as heard, and which are next. */
module Jumping {
  import opened Numbers
  import opened Clock
  import opened Pattern
  import opened Scheduling
  import opened QueuedLogs
  import opened Rendering
  import opened Controlling
  import opened Engines

  // ---- The step heard last ----

  /** The newest of the steps before `end` that the clock puts before `sample`. */
  ghost predicate IsNewestBefore(p: Pattern, c: AdjustedClock, sample: nat, end: nat, k: nat)
    requires c.Valid()
  {
    k < end && StepPosition(p, c, k) < sample && (k + 1 == end || StepPosition(p, c, k + 1) >= sample)
  }

  /** With every step in the log still ahead, the one heard last is, by the old timeline, the newest before the commit
      point of those not in the log; if there is none nothing was heard. At sample 0 nothing was, either. */
  lemma HeardOnTimeline(c: ControlState, commit: nat, unplayed: nat, before: ActiveClock)
    requires c.Valid() && before.Valid() && AudioRate(AdjustedClock(before, c.controls)) && commit >= 1
    ensures var old', p, heard := AdjustedClock(before, c.controls), c.Pattern(),
                                  HeardFromTimeline(c, commit, unplayed, before);
            if unplayed == 0 || StepPosition(p, old', 0) >= commit then heard == None
            else exists k: nat :: IsNewestBefore(p, old', commit, unplayed, k)
                                  && heard == Some(old'.SampleAtBeat(p.StepBeat(k)))
  {
    hide StepPosition, FirstStepAtOrAfter;
    var old', p := AdjustedClock(before, c.controls), c.Pattern();
    FirstStepExact(p, old', commit);
    var first := FirstStepAtOrAfter(p, old', commit);
    if unplayed > 0 && StepPosition(p, old', 0) < commit {
      var k: nat := Min(unplayed, first) - 1;
      assert IsNewestBefore(p, old', commit, unplayed, k);
    }
  }

  /** What the machine takes for the last step heard before the commit point: of the steps in the log the newest it is
      too late to take back; if all of 32 can be, what the old timeline says; else none. */
  lemma HeardLast(c: ControlState, commit: nat, before: ActiveClock)
    requires c.Valid() && before.Valid() && LogSorted(c.log)
    ensures var n, heard := HeardCount(c.log, commit), LastHeard(c, CutFrom(c.log, commit, None), commit, before);
            heard == if n > 0 then Some(c.log[n - 1].sample as real)
                     else if |c.log| == 32 then HeardFromTimeline(c, commit, c.log[0].step, before)
                     else None
  {
    hide HeardFromTimeline;
    CutShape(c.log, commit, None);
  }

  // ---- The steps played on ----

  /** A step the clock puts at `earliest` or later, and half a step or more behind the one heard last. */
  predicate InTime(p: Pattern, c: AdjustedClock, earliest: int, heard: Option<real>, k: nat)
    requires c.Valid()
  {
    var x := StepPosition(p, c, k);
    x >= earliest && (heard.Some? ==> x as real >= heard.value + c.inner.SamplesPerBeat() / 8.0)
  }

  /** A step is still played up to 20 ms late. */
  function Latest(commit: nat, sampleRate: real): int { commit - Round(0.02 * sampleRate) }

  lemma {:induction false} PositionsGrow(p: Pattern, c: AdjustedClock, a: nat, b: nat)
    requires AudioRate(c) && a < b
    ensures StepPosition(p, c, a) <= StepPosition(p, c, b)
  {
    StepBeatIncreasing(p, a, b);
    SamplesApart(c, p.StepBeat(a), p.StepBeat(b));
    RoundMonotone(c.SampleAtBeat(p.StepBeat(a)), c.SampleAtBeat(p.StepBeat(b)));
  }

  lemma FirstFrom(p: Pattern, c: AdjustedClock, from: nat, k: nat)
    requires AudioRate(c) && (from >= 1 || StepPosition(p, c, 0) >= 0)
    ensures k >= FirstStepAtOrAfter(p, c, from) <==> StepPosition(p, c, k) >= from
  {
    hide StepPosition, FirstStepAtOrAfter;
    FirstStepExact(p, c, from);
    var first := FirstStepAtOrAfter(p, c, from);
    if k > first { PositionsGrow(p, c, first, k); }
  }

  /** Half a step is an eighth of a beat. */
  lemma HalfStepIs(c: ActiveClock)
    requires c.Valid()
    ensures HalfStep(c) == c.SamplesPerBeat() / 8.0
  {
  }

  lemma FromIsInTime(c: ControlState, commit: nat, before: ActiveClock, k: nat)
    requires c.Valid() && before.Valid()
    ensures var heard := LastHeard(c, CutFrom(c.log, commit, None), commit, before);
            var x, from := StepPosition(c.Pattern(), c.Adjusted(), k), RealignFrom(c, commit, before);
            from >= 1 || x >= 0 ==>
              (InTime(c.Pattern(), c.Adjusted(), Latest(commit, c.sampleRate), heard, k) <==> x >= from)
  {
    hide StepPosition, LastHeard, HalfStep, CutFrom, ActiveClock.SamplesPerBeat;
    HalfStepIs(c.Active());
  }

  /** The machine plays on from the first step in time: none in time is left out, none else is played. What was heard
      is judged by the clock `before`. */
  ghost predicate PlaysOn(c: ControlState, c': ControlState, commit: nat, before: ActiveClock)
    requires c.Valid() && c'.Valid() && before.Valid()
  {
    var heard, earliest := LastHeard(c, CutFrom(c.log, commit, None), commit, before), Latest(commit, c.sampleRate);
    forall k: nat :: k >= c'.scheduler.nextStep <==> InTime(c'.Pattern(), c'.Adjusted(), earliest, heard, k)
  }

  /** Exact but for a jump at the very beginning, with the pattern already under way at sample 0. */
  lemma RealignPlays(c: ControlState, commit: nat, before: ActiveClock)
    requires c.Valid() && before.Valid() && AudioRate(c.Adjusted())
    requires RealignFrom(c, commit, before) >= 1 || StepPosition(c.Pattern(), c.Adjusted(), 0) >= 0
    ensures RealignContinuous(c, commit, before).Valid()
    ensures PlaysOn(c, RealignContinuous(c, commit, before), commit, before)
  {
    RealignValid(c, commit, before);
    RealignedFields(c, commit, before);
    hide StepPosition, LastHeard, HalfStep, CutFrom, InTime, RealignFrom, FlushFrom, RealignContinuous;
    var p, clock, from := c.Pattern(), c.Adjusted(), RealignFrom(c, commit, before);
    var heard := LastHeard(c, CutFrom(c.log, commit, None), commit, before);
    forall k: nat
      ensures k >= FirstStepAtOrAfter(p, clock, from) <==> InTime(p, clock, Latest(commit, c.sampleRate), heard, k)
    {
      FirstFrom(p, clock, from, k);
      if k > 0 { PositionsGrow(p, clock, 0, k); }
      FromIsInTime(c, commit, before, k);
    }
  }

  lemma RealignedFields(c: ControlState, commit: nat, before: ActiveClock)
    requires c.Valid() && before.Valid()
    ensures var c' := RealignContinuous(c, commit, before);
            && c'.scheduler.nextStep == FirstStepAtOrAfter(c.Pattern(), c.Adjusted(), RealignFrom(c, commit, before))
            && c'.Pattern() == c.Pattern() && c'.Adjusted() == c.Adjusted()
  {
    hide CutFrom, FlushFrom, FirstStepAtOrAfter, RealignFrom;
  }

  /** What was heard does not hang on the clock in use now. */
  lemma SameHeard(c: ControlState, moved: ControlState, commit: nat, before: ActiveClock)
    requires c.Valid() && moved.Valid() && before.Valid()
    requires moved == c.(internal := moved.internal, follower := moved.follower, published := moved.published,
                        renderBlock := moved.renderBlock)
    ensures var cut := CutFrom(c.log, commit, None);
            LastHeard(moved, cut, commit, before) == LastHeard(c, cut, commit, before)
  {
    hide CutFrom, FirstStepAtOrAfter;
  }

  /** A report or a tick that makes the follower snap: a running machine goes by what was heard on the timeline before
      it, and plays on by the one behind it. */
  lemma SnapPlays(c: ControlState, next: Timeline, position: nat, now: nat)
    requires c.Valid() && next.Valid() && c.scheduler.playing && c.mode == Mode.Following
    requires AudioRate(AdjustedClock(Follow(next), c.controls))
    requires StepPosition(c.Pattern(), AdjustedClock(Follow(next), c.controls), 0) >= 0
    ensures var c' := Observed(c, next, true, position, now);
            && c'.Valid() && c'.follower == next && c'.mode == Mode.Following
            && PlaysOn(c, c', CommitPoint(c, position, now).1, Follow(c.follower))
  {
    hide RealignContinuous, StepPosition, CutFrom, InTime, AudioRate, RealignFrom, LastHeard, PlaysOn;
    var moved, commit := NoteRenderPosition(c.(follower := next), position), CommitPoint(c, position, now).1;
    var c', before := Observed(c, next, true, position, now), Follow(c.follower);
    RealignKeeps(moved, commit, before);
    RealignValid(moved, commit, before);
    assert c' == RealignContinuous(moved, commit, before);
    SameHeard(c, moved, commit, before);
    RealignPlays(moved, commit, before);
    SamePlays(c, moved, c', commit, before);
  }

  /** And so does a tap of the internal clock. */
  lemma TapPlays(c: ControlState, sample: real, bpm: Option<real>, position: nat, now: nat)
    requires c.Valid() && c.scheduler.playing && c.mode == FreeRunning
    ensures var c' := Tapped(c, sample, bpm, position, now);
            && c'.Valid()
            && (AudioRate(c'.Adjusted()) && StepPosition(c'.Pattern(), c'.Adjusted(), 0) >= 0 ==>
                  PlaysOn(c, c', CommitPoint(c, position, now).1, Internal(c.internal)))
  {
    hide RealignContinuous, StepPosition, CutFrom, InTime, AudioRate, RealignFrom, LastHeard, Line.BeatAtSample,
         PlaysOn;
    var line := if bpm.Some? then c.internal.WithTempo(bpm.value, sample) else c.internal;
    var tapped := c.(internal := line.Aligned(sample, Round(line.BeatAtSample(sample)) as real));
    var moved, commit := NoteRenderPosition(tapped, position), CommitPoint(c, position, now).1;
    var c', before := Tapped(c, sample, bpm, position, now), Internal(c.internal);
    RealignKeeps(moved, commit, before);
    RealignValid(moved, commit, before);
    assert c' == RealignContinuous(moved, commit, before);
    if AudioRate(c'.Adjusted()) && StepPosition(c'.Pattern(), c'.Adjusted(), 0) >= 0 {
      SameHeard(c, moved, commit, before);
      RealignPlays(moved, commit, before);
      SamePlays(c, moved, c', commit, before);
    }
  }

  lemma RealignKeeps(c: ControlState, commit: nat, before: ActiveClock)
    requires c.Valid() && before.Valid()
    ensures var c' := RealignContinuous(c, commit, before);
            && c'.follower == c.follower && c'.internal == c.internal && c'.mode == c.mode
            && c'.Pattern() == c.Pattern() && c'.Adjusted() == c.Adjusted()
  {
    hide CutFrom, FlushFrom, FirstStepAtOrAfter, RealignFrom;
  }

  lemma SamePlays(c: ControlState, moved: ControlState, c': ControlState, commit: nat, before: ActiveClock)
    requires c.Valid() && moved.Valid() && c'.Valid() && before.Valid()
    requires var cut := CutFrom(c.log, commit, None);
             && moved.log == c.log && moved.sampleRate == c.sampleRate
             && LastHeard(moved, cut, commit, before) == LastHeard(c, cut, commit, before)
    requires PlaysOn(moved, c', commit, before)
    ensures PlaysOn(c, c', commit, before)
  {
  }

  // ---- A start while following ----

  /** A start joins the source in phase: what is queued from the commit point on is taken back, and the pattern begins
      with the first step at or behind it that is half a step or more behind the last one in the log that is heard. */
  lemma StartJoins(c: ControlState, position: nat, now: nat)
    requires c.Valid() && c.mode == Mode.Following && LogSorted(c.log) && AudioRate(c.Adjusted())
    ensures Started(c, position, now).Valid()
    ensures var c', commit := Started(c, position, now), CommitPoint(c, position, now).1;
            var n := HeardCount(c.log, commit);
            var heard := if n > 0 then Some(c.log[n - 1].sample as real) else None;
            && c'.scheduler.playing && c'.log == c.log[..n]
            && (n < |c.log| && c.queue.Vacant() > 0 ==>
                  |c'.queue.pushed| == |c.queue.pushed| + 1 && c'.queue.pushed[|c.queue.pushed|].kind.Flush?)
            && (commit >= 1 || StepPosition(c.Pattern(), c.Adjusted(), 0) >= 0 ==>
                  forall k: nat ::
                    k >= c'.scheduler.nextStep <==> InTime(c.Pattern(), c.Adjusted(), commit, heard, k))
  {
    hide StepPosition, CutFrom, FlushFrom, InTime, AudioRate, LogSorted, Started, HeardCount, FirstStepAtOrAfter,
         JoinFrom, SendFlush;
    var commit, p, clock := CommitPoint(c, position, now).1, c.Pattern(), c.Adjusted();
    StartedFields(c, position, now);
    CutShape(c.log, commit, None);
    FlushAfterCut(c.log, commit);
    if c.queue.Vacant() > 0 { FlushGoesOut(c, CutFrom(c.log, commit, None).flush); }
    var n := HeardCount(c.log, commit);
    var heard := if n > 0 then Some(c.log[n - 1].sample as real) else None;
    if commit >= 1 || StepPosition(p, clock, 0) >= 0 {
      forall k: nat
        ensures k >= Started(c, position, now).scheduler.nextStep <==> InTime(p, clock, commit, heard, k)
      {
        JoinIsInTime(c, commit, heard, k);
        FirstFrom(p, clock, JoinFrom(c, commit, heard), k);
      }
    }
  }

  lemma FlushGoesOut(c: ControlState, at: nat)
    requires c.Valid() && c.queue.Vacant() > 0
    ensures var q := SendFlush(c, at).queue;
            |q.pushed| == |c.queue.pushed| + 1 && q.pushed[|c.queue.pushed|].kind.Flush?
  {
  }

  /** The first sample a start may play on. */
  function JoinFrom(c: ControlState, commit: nat, heard: Option<real>): nat
    requires c.Valid()
  {
    if heard.Some? then Max(commit, HalfStepAfter(c, heard.value)) else commit
  }

  lemma JoinIsInTime(c: ControlState, commit: nat, heard: Option<real>, k: nat)
    requires c.Valid()
    ensures InTime(c.Pattern(), c.Adjusted(), commit, heard, k)
            <==> StepPosition(c.Pattern(), c.Adjusted(), k) >= JoinFrom(c, commit, heard)
  {
    hide StepPosition, HalfStep, ActiveClock.SamplesPerBeat;
    HalfStepIs(c.Active());
  }

  lemma StartedFields(c: ControlState, position: nat, now: nat)
    requires c.Valid() && c.mode == Mode.Following
    ensures var c', commit := Started(c, position, now), CommitPoint(c, position, now).1;
            var cut := CutFrom(c.log, commit, None);
            var heard := if cut.heard.Some? then Some(cut.heard.value.sample as real) else None;
            && c'.Valid() && c'.scheduler.playing && c'.log == FlushFrom(c.log, cut.flush)
            && c'.scheduler.nextStep == FirstStepAtOrAfter(c.Pattern(), c.Adjusted(), JoinFrom(c, commit, heard))
            && c'.queue == (if cut.dropped.Some? then SendFlush(c, cut.flush) else c).queue
            && JoinFrom(c, commit, heard) >= commit
  {
    StartedValid(c, position, now);
    hide CutFrom, FlushFrom, FirstStepAtOrAfter, StartedFollowing, JoinFrom, SendFlush;
    var (noted, commit) := CommitPoint(c, position, now);
    JoinedFields(noted, commit);
    var cut := CutFrom(c.log, commit, None);
    NotedSame(c, noted, commit, if cut.heard.Some? then Some(cut.heard.value.sample as real) else None, cut.flush);
  }

  lemma JoinedFields(c: ControlState, commit: nat)
    requires c.Valid()
    ensures var cut, c' := CutFrom(c.log, commit, None), StartedFollowing(c, commit);
            var heard := if cut.heard.Some? then Some(cut.heard.value.sample as real) else None;
            && c'.scheduler.playing && c'.log == FlushFrom(c.log, cut.flush)
            && c'.scheduler.nextStep == FirstStepAtOrAfter(c.Pattern(), c.Adjusted(), JoinFrom(c, commit, heard))
            && c'.queue == (if cut.dropped.Some? then SendFlush(c, cut.flush) else c).queue
  {
    hide CutFrom, FlushFrom, FirstStepAtOrAfter;
  }

  lemma NotedSame(c: ControlState, noted: ControlState, commit: nat, heard: Option<real>, flush: nat)
    requires c.Valid() && noted == c.(published := noted.published, renderBlock := noted.renderBlock)
    ensures noted.Valid() && noted.Adjusted() == c.Adjusted()
    ensures JoinFrom(noted, commit, heard) == JoinFrom(c, commit, heard) >= commit
    ensures SendFlush(noted, flush).queue == SendFlush(c, flush).queue
  {
  }
}
