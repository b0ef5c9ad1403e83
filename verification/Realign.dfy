/** What a jump of the timeline leaves of a running pattern, over whole lockstep runs. */
module Realigning {
  import opened Numbers
  import opened Clock
  import opened Pattern
  import opened Scheduling
  import opened QueuedLogs
  import opened Rendering
  import opened Controlling
  import opened Engines
  import opened Pacing

  // ---- Steps on one clock are at least half a step apart ----

  lemma LineStepsStretch(l: Line, a: real, b: real)
    requires l.Valid() && l.SamplesPerBeat() >= MIN_SAMPLES_PER_BEAT && b - a >= 1.0 / 6.0
    ensures l.SampleAtBeat(b) - l.SampleAtBeat(a) >= HalfStep(Internal(l)) + 1.0
  {
    var spb, d := l.SamplesPerBeat(), b - a;
    LineSamplesApart(l, a, b);
    assert d * spb >= spb / 6.0 by { MulAtLeast(spb, d, 1.0 / 6.0); }
  }

  lemma RateBounds(rate: real, slewRate: real)
    requires 0.0 < slewRate <= 1.05 * rate && rate * MIN_SAMPLES_PER_BEAT <= 1.0
    ensures var spb := 1.0 / rate;
            spb >= MIN_SAMPLES_PER_BEAT && rate * (spb / 1.05) <= 1.0 && slewRate * (spb / 1.05) <= 1.0
  {
    var spb := 1.0 / rate;
    assert rate * spb == 1.0 by { DivPos(1.0, rate); }
    if spb < MIN_SAMPLES_PER_BEAT { MulLess(spb, MIN_SAMPLES_PER_BEAT, rate); }
    assert spb * slewRate <= spb * (1.05 * rate) by { MulAtLeast(spb, 1.05 * rate, slewRate); }
    assert spb * (1.05 * rate) == 1.05 * (rate * spb);
    assert slewRate * (spb / 1.05) == spb * slewRate / 1.05;
    assert rate * (spb / 1.05) == rate * spb / 1.05;
  }

  lemma TimelineStepsStretch(t: Timeline, a: real, b: real)
    requires t.Valid() && t.rate * MIN_SAMPLES_PER_BEAT <= 1.0 && t.slewRate <= 1.05 * t.rate
    requires b - a >= 1.0 / 6.0
    ensures t.SampleAtBeat(b) - t.SampleAtBeat(a) >= HalfStep(Follow(t)) + 1.0
  {
    hide *;
    TimelinePositive(t);
    RateBounds(t.rate, t.slewRate);
    var spb := 1.0 / t.rate;
    TimelineSamplesApart(t, a, b, spb / 1.05);
    StretchedEnough(spb, b - a);
    TimelineHalfStep(t);
  }

  lemma TimelineHalfStep(t: Timeline)
    requires t.Valid()
    ensures HalfStep(Follow(t)) == 0.125 * (1.0 / t.rate)
  {
  }

  lemma StretchedEnough(spb: real, d: real)
    requires spb >= MIN_SAMPLES_PER_BEAT && d >= 1.0 / 6.0
    ensures d * (spb / 1.05) >= 0.125 * spb + 1.0
  {
    var m := spb / 1.05;
    assert d * m >= m / 6.0 by { MulAtLeast(m, d, 1.0 / 6.0); }
  }

  /** Nearby steps on a clock are at least a sixth of a beat apart; a slew shortens that by at
      most 5 %. */
  lemma StepsStretch(c: AdjustedClock, a: real, b: real)
    requires AudioRate(c) && b - a >= 1.0 / 6.0
    ensures c.SampleAtBeat(b) - c.SampleAtBeat(a) >= HalfStep(c.inner) + 1.0
  {
    match c.inner
    case Internal(l) => LineStepsStretch(l, a + c.controls.nudgeBeats, b + c.controls.nudgeBeats);
    case Follow(t) => TimelineStepsStretch(t, a + c.controls.nudgeBeats, b + c.controls.nudgeBeats);
  }

  /** From a step at or after sample 0 the next one falls at least half a step on. */
  lemma NextStepIsHalfAStepOn(p: Pattern, c: AdjustedClock, step: nat)
    requires AudioRate(c) && StepPosition(p, c, step) >= 0
    ensures StepPosition(p, c, step + 1) as real >= StepPosition(p, c, step) as real + HalfStep(c.inner)
  {
    StepBeatSpacing(p, step);
    var x, y := c.SampleAtBeat(p.StepBeat(step)), c.SampleAtBeat(p.StepBeat(step + 1));
    StepsStretch(c, p.StepBeat(step), p.StepBeat(step + 1));
    RoundNear(x);
    RoundNear(y);
  }

  // ---- The plan: every step queued and not taken back ----

  /** A planned step: where it was queued, what was pushed for it, and half a step on the clock
      it was queued on. */
  datatype Hit = Hit(queued: Queued, events: seq<Event>, half: real)

  /** Each step is whole and lies strictly behind the one before it, its grid hit by at least
      half a step. */
  ghost predicate Spaced(plan: seq<Hit>)
  {
    && (forall i :: 0 <= i < |plan| ==> HitWhole(plan[i]))
    && (forall i :: 1 <= i < |plan| ==> Follows(plan[i - 1].queued, plan[i]))
  }

  ghost predicate HitWhole(h: Hit)
  {
    && h.queued.first <= h.queued.sample && h.half > 0.0
    && forall e <- h.events :: e.kind.Trigger? && h.queued.first <= e.sample <= h.queued.sample
  }

  ghost predicate Follows(before: Queued, h: Hit)
  {
    h.queued.first > before.sample && h.queued.sample as real >= before.sample as real + h.half
  }

  /** A flush drops the newest steps whose grid hit lies at or after it. */
  function Replanned(plan: seq<Hit>, flush: nat): seq<Hit>
  {
    if plan != [] && plan[|plan| - 1].queued.sample >= flush then Replanned(plan[..|plan| - 1], flush) else plan
  }

  /** The log is the newest part of the plan, and reaches back to a step already heard, or to
      the plan's start. */
  ghost predicate TailOf(log: seq<Queued>, plan: seq<Hit>, now: nat)
  {
    && |log| <= |plan| && |log| <= QUEUED_MEMORY
    && (forall i :: 0 <= i < |log| ==> log[i] == plan[|plan| - |log| + i].queued)
    && (|log| < |plan| ==> log != [] && log[0].first < now)
  }

  /** How many of the logged steps are from before the plan. */
  function Earlier(log: seq<Queued>, plan: seq<Hit>): nat { if |log| > |plan| then |log| - |plan| else 0 }

  /** The log remembers the newest of the plan, behind steps from before it that are heard. */
  ghost predicate Remembers(log: seq<Queued>, plan: seq<Hit>, now: nat)
  {
    var k := Earlier(log, plan);
    && |log| <= QUEUED_MEMORY
    && (forall i :: 0 <= i < k ==> log[i].first <= log[i].sample < now)
    && TailOf(log[k..], plan, now)
  }

  lemma {:induction false} PlanInOrder(plan: seq<Hit>, i: nat, j: nat)
    requires Spaced(plan) && i < j < |plan|
    ensures plan[i].queued.sample < plan[j].queued.first
    decreases j
  {
    assert Follows(plan[j - 1].queued, plan[j]);
    if i < j - 1 {
      assert HitWhole(plan[j - 1]);
      PlanInOrder(plan, i, j - 1);
    }
  }

  lemma RememberedSorted(log: seq<Queued>, plan: seq<Hit>, now: nat)
    requires Spaced(plan) && TailOf(log, plan, now)
    ensures LogSorted(log)
  {
    var o := |plan| - |log|;
    forall i | 0 <= i < |log|
      ensures log[i].first <= log[i].sample
    {
      assert HitWhole(plan[o + i]);
    }
    forall i, j | 0 <= i < j < |log|
      ensures log[i].first <= log[j].first && log[i].sample <= log[j].sample
    {
      PlanInOrder(plan, o + i, o + j);
      assert HitWhole(plan[o + i]) && HitWhole(plan[o + j]);
    }
  }

  /** With steps strictly apart, a step is heard exactly if its first event lies before the
      commit point. */
  lemma {:induction false} HeardIsBefore(log: seq<Queued>, commit: nat, flush: nat, i: nat)
    requires LogSorted(log) && i < |log|
    requires forall k :: 1 <= k < |log| ==> log[k - 1].sample < log[k].first
    requires commit <= flush && (flush > commit ==> flush <= log[0].first)
    ensures i < HeardCount(log, flush) <==> log[i].first < commit
    decreases |log|
  {
    if log[0].first >= flush {
      assert log[0].first <= log[i].first;
    } else if i > 0 {
      var rest := log[1..];
      assert forall k {:trigger rest[k]} :: 0 <= k < |rest| ==> rest[k] == log[k + 1];
      assert log[0].sample < log[1].first;
      assert LogSorted(rest);
      HeardIsBefore(rest, commit, Max(flush, log[0].sample + 1), i - 1);
    }
  }

  lemma {:induction false} ReplannedKeeps(plan: seq<Hit>, flush: nat, m: nat)
    requires m <= |plan|
    requires forall i :: m <= i < |plan| ==> plan[i].queued.sample >= flush
    requires m > 0 ==> plan[m - 1].queued.sample < flush
    ensures Replanned(plan, flush) == plan[..m]
    decreases |plan|
  {
    if m < |plan| {
      ReplannedKeeps(plan[..|plan| - 1], flush, m);
      assert plan[..|plan| - 1][..m] == plan[..m];
    } else {
      assert plan[..m] == plan;
    }
  }

  lemma HeardExactly(log: seq<Queued>, plan: seq<Hit>, commit: nat)
    requires Spaced(plan) && TailOf(log, plan, commit)
    ensures forall i :: 0 <= i < |log| ==> (i < HeardCount(log, commit) <==> log[i].first < commit)
    ensures |log| < |plan| ==> HeardCount(log, commit) > 0
  {
    hide HeardCount, LogSorted;
    RememberedSorted(log, plan, commit);
    var o := |plan| - |log|;
    forall k | 1 <= k < |log|
      ensures log[k - 1].sample < log[k].first
    {
      assert Follows(plan[o + k - 1].queued, plan[o + k]);
    }
    forall i | 0 <= i < |log|
      ensures i < HeardCount(log, commit) <==> log[i].first < commit
    {
      HeardIsBefore(log, commit, commit, i);
    }
  }

  /** A cut of the log after `n` steps is a cut of the plan. */
  lemma PlanCuts(log: seq<Queued>, plan: seq<Hit>, commit: nat, flush: nat, n: nat)
    requires Spaced(plan) && TailOf(log, plan, commit) && n <= |log| && commit <= flush
    requires |log| < |plan| ==> n > 0
    requires forall i :: 0 <= i < n ==> log[i].first < commit && log[i].sample < flush
    requires forall i :: n <= i < |log| ==> log[i].first >= flush
    ensures var m := |plan| - |log| + n;
            && Replanned(plan, flush) == plan[..m]
            && (forall i :: 0 <= i < m ==> plan[i].queued.first < commit && plan[i].queued.sample < flush)
            && (forall i :: m <= i < |plan| ==> plan[i].queued.first >= flush)
            && TailOf(log[..n], plan[..m], commit)
  {
    hide Replanned;
    var o := |plan| - |log|;
    var m := o + n;
    forall i | 0 <= i < m
      ensures plan[i].queued.first < commit && plan[i].queued.sample < flush
    {
      assert HitWhole(plan[i]);
      if i >= o {
        assert log[i - o] == plan[i].queued;
      } else {
        PlanInOrder(plan, i, o);
        assert log[0] == plan[o].queued;
      }
    }
    forall i | m <= i < |plan|
      ensures plan[i].queued.first >= flush && plan[i].queued.sample >= flush
    {
      assert HitWhole(plan[i]);
      assert log[i - o] == plan[i].queued;
    }
    ReplannedKeeps(plan, flush, m);
  }

  lemma TailCuts(log: seq<Queued>, plan: seq<Hit>, commit: nat)
    requires Spaced(plan) && TailOf(log, plan, commit)
    ensures var cut := CutFrom(log, commit, None);
            var plan', log' := Replanned(plan, cut.flush), FlushFrom(log, cut.flush);
            var m := |plan'|;
            && m <= |plan| && plan' == plan[..m] && |plan| - m == |log| - |log'|
            && TailOf(log', plan', commit)
            && (forall i :: 0 <= i < m ==> plan[i].queued.first < commit && plan[i].queued.sample < cut.flush)
            && (forall i :: m <= i < |plan| ==> plan[i].queued.first >= cut.flush)
            && cut.heard == (if m > 0 then Some(plan[m - 1].queued) else None)
            && cut.dropped == (if m < |plan| then Some(plan[m].queued.step) else None)
  {
    hide CutFrom, HeardCount, FlushFrom, LogSorted, Replanned, Splits;
    RememberedSorted(log, plan, commit);
    HeardExactly(log, plan, commit);
    var cut, n, o := CutFrom(log, commit, None), HeardCount(log, commit), |plan| - |log|;
    CutIsLeast(log, commit);
    FlushAfterCut(log, commit);
    PlanCuts(log, plan, commit, cut.flush, n);
    var m := o + n;
    if n > 0 { assert log[n - 1] == plan[m - 1].queued; }
    if n < |log| { assert log[n] == plan[m].queued; }
  }

  // ---- Steps from before the plan ----

  /** A cut passes over steps that lie before it. */
  lemma {:induction false} EarlierHeard(log: seq<Queued>, k: nat, commit: nat, heard: Option<Queued>)
    requires k <= |log| && forall i :: 0 <= i < k ==> log[i].first <= log[i].sample < commit
    ensures CutFrom(log, commit, heard) == CutFrom(log[k..], commit, if k > 0 then Some(log[k - 1]) else heard)
    decreases k
  {
    if k == 0 {
      assert log[0..] == log;
    } else {
      EarlierHeard(log[1..], k - 1, commit, Some(log[0]));
      assert log[1..][k - 1..] == log[k..];
    }
  }

  /** What a cut takes as heard before its first step matters only if it keeps none. */
  lemma {:induction false} CutHeard(log: seq<Queued>, commit: nat, heard: Option<Queued>)
    ensures var cut := CutFrom(log, commit, None);
            CutFrom(log, commit, heard) == if cut.heard == None then cut.(heard := heard) else cut
    decreases |log|
  {
    if log != [] && log[0].first < commit {
      CutHeard(log[1..], Max(commit, log[0].sample + 1), Some(log[0]));
    }
  }

  lemma {:induction false} EarlierKept(log: seq<Queued>, k: nat, flush: nat)
    requires k <= |log| && forall i :: 0 <= i < k ==> log[i].sample < flush
    ensures FlushFrom(log, flush) == log[..k] + FlushFrom(log[k..], flush)
    decreases |log|
  {
    if k < |log| && log[|log| - 1].sample >= flush {
      var rest := log[..|log| - 1];
      EarlierKept(rest, k, flush);
      assert rest[..k] == log[..k] && rest[k..] == log[k..][..|log| - k - 1];
    } else {
      assert log == log[..k] + log[k..];
    }
  }

  /** The last step heard by a cut that leaves `plan'` of the plan. */
  function LastKept(log: seq<Queued>, plan: seq<Hit>, plan': seq<Hit>): Option<Queued>
  {
    if plan' != [] then Some(plan'[|plan'| - 1].queued)
    else if |log| > |plan| then Some(log[|log| - |plan| - 1])
    else None
  }

  /** A realign at `commit` keeps exactly the steps already heard: the plan and the log lose the
      same steps, all of the rest lies before `commit`, and the cut names its last step and the
      first one lost. */
  lemma RealignCuts(log: seq<Queued>, plan: seq<Hit>, commit: nat)
    requires Spaced(plan) && Remembers(log, plan, commit)
    ensures var cut := CutFrom(log, commit, None);
            var plan', log' := Replanned(plan, cut.flush), FlushFrom(log, cut.flush);
            var m := |plan'|;
            && m <= |plan| && plan' == plan[..m] && |plan| - m == |log| - |log'|
            && cut.flush >= commit && Remembers(log', plan', commit)
            && (forall i :: 0 <= i < m ==> plan[i].queued.first < commit && plan[i].queued.sample < cut.flush)
            && (forall i :: m <= i < |plan| ==> plan[i].queued.first >= cut.flush)
            && cut.heard == LastKept(log, plan, plan')
            && cut.dropped == (if m < |plan| then Some(plan[m].queued.step) else None)
  {
    hide CutFrom, FlushFrom, Replanned, Spaced, TailOf;
    var k := Earlier(log, plan);
    var own := log[k..];
    EarlierHeard(log, k, commit, None);
    CutHeard(own, commit, if k > 0 then Some(log[k - 1]) else None);
    TailCuts(own, plan, commit);
    var cut := CutFrom(log, commit, None);
    CutNotBefore(own, commit, None);
    EarlierKept(log, k, cut.flush);
    var plan', own' := Replanned(plan, cut.flush), FlushFrom(own, cut.flush);
    var log' := FlushFrom(log, cut.flush);
    TailShort(own', plan', commit);
    assert |log'| == k + |own'|;
    assert Earlier(log', plan') == k;
    assert log'[k..] == own';
  }

  lemma TailShort(log: seq<Queued>, plan: seq<Hit>, now: nat)
    requires TailOf(log, plan, now)
    ensures |log| <= |plan| && |log| <= QUEUED_MEMORY
  {
  }

  // ---- What survives in the queue is what is planned ----

  function OnlyTriggers(es: seq<Event>): seq<Event>
  {
    if es == [] then []
    else OnlyTriggers(es[..|es| - 1]) + if es[|es| - 1].kind.Trigger? then [es[|es| - 1]] else []
  }

  function PlanEvents(plan: seq<Hit>): seq<Event>
  {
    if plan == [] then [] else PlanEvents(plan[..|plan| - 1]) + plan[|plan| - 1].events
  }

  lemma {:induction false} OnlyTriggersConcat(a: seq<Event>, b: seq<Event>)
    ensures OnlyTriggers(a + b) == OnlyTriggers(a) + OnlyTriggers(b)
    decreases |b|
  {
    if b == [] {
      assert a + b == a;
    } else {
      assert (a + b)[..|a + b| - 1] == a + b[..|b| - 1];
      OnlyTriggersConcat(a, b[..|b| - 1]);
    }
  }

  lemma {:induction false} OnlyTriggersAll(b: seq<Event>)
    requires forall e <- b :: e.kind.Trigger?
    ensures OnlyTriggers(b) == b
  {
    if b != [] {
      assert b == b[..|b| - 1] + [b[|b| - 1]];
      OnlyTriggersAll(b[..|b| - 1]);
    }
  }

  lemma {:induction false} FlushOnlyTriggers(es: seq<Event>, f: nat)
    ensures OnlyTriggers(FlushTriggers(es, f)) == FlushTriggers(OnlyTriggers(es), f)
  {
    if es != [] {
      var rest, last := es[..|es| - 1], es[|es| - 1];
      FlushOnlyTriggers(rest, f);
      if last.kind.Trigger? {
        assert (OnlyTriggers(rest) + [last])[..|OnlyTriggers(rest)|] == OnlyTriggers(rest);
      } else {
        assert OnlyTriggers(es) == OnlyTriggers(rest);
      }
      if Kept(last, f) {
        assert (FlushTriggers(rest, f) + [last])[..|FlushTriggers(rest, f)|] == FlushTriggers(rest, f);
      }
    }
  }

  lemma {:induction false} FlushConcat(a: seq<Event>, b: seq<Event>, f: nat)
    ensures FlushTriggers(a + b, f) == FlushTriggers(a, f) + FlushTriggers(b, f)
    decreases |b|
  {
    if b == [] {
      assert a + b == a;
    } else {
      assert (a + b)[..|a + b| - 1] == a + b[..|b| - 1];
      FlushConcat(a, b[..|b| - 1], f);
    }
  }

  lemma {:induction false} FlushNone(b: seq<Event>, f: nat)
    requires forall e <- b :: Kept(e, f)
    ensures FlushTriggers(b, f) == b
  {
    if b != [] {
      assert b == b[..|b| - 1] + [b[|b| - 1]];
      FlushNone(b[..|b| - 1], f);
    }
  }

  lemma {:induction false} FlushAll(b: seq<Event>, f: nat)
    requires forall e <- b :: !Kept(e, f)
    ensures FlushTriggers(b, f) == []
  {
    if b != [] {
      assert b == b[..|b| - 1] + [b[|b| - 1]];
      FlushAll(b[..|b| - 1], f);
    }
  }

  /** A flush that splits no step of the plan takes whole steps out of the queue. */
  lemma {:induction false} FlushTakesSteps(plan: seq<Hit>, m: nat, f: nat)
    requires m <= |plan| && forall i :: 0 <= i < |plan| ==> HitWhole(plan[i])
    requires forall i :: 0 <= i < m ==> plan[i].queued.sample < f
    requires forall i :: m <= i < |plan| ==> plan[i].queued.first >= f
    ensures FlushTriggers(PlanEvents(plan), f) == PlanEvents(plan[..m])
    decreases |plan|
  {
    if plan != [] {
      var rest, last := plan[..|plan| - 1], plan[|plan| - 1];
      assert HitWhole(last);
      FlushConcat(PlanEvents(rest), last.events, f);
      if m < |plan| {
        FlushAll(last.events, f);
        FlushTakesSteps(rest, m, f);
        assert rest[..m] == plan[..m];
      } else {
        FlushNone(last.events, f);
        FlushTakesSteps(rest, m - 1, f);
        assert rest[..m - 1] == rest && plan[..m] == plan;
      }
    }
  }

  lemma SurvivorsPush(pushed: seq<Event>, e: Event)
    ensures Survivors(pushed + [e]) == if e.kind.Flush? then FlushTriggers(Survivors(pushed), e.sample)
                                       else Survivors(pushed) + [e]
  {
    assert (pushed + [e])[..|pushed|] == pushed;
  }

  /** The surviving triggers are those of an earlier past, all played, and the plan's. */
  ghost predicate Queues(c: ControlState, plan: seq<Hit>, past: seq<Event>, now: nat)
  {
    && OnlyTriggers(Survivors(c.queue.pushed)) == past + PlanEvents(plan)
    && forall e <- past :: e.sample < now
  }

  lemma FlushQueues(c: ControlState, plan: seq<Hit>, past: seq<Event>, now: nat, flush: nat, m: nat)
    requires Ready(c) && Queues(c, plan, past, now) && now <= flush
    requires m <= |plan| && forall i :: 0 <= i < |plan| ==> HitWhole(plan[i])
    requires forall i :: 0 <= i < m ==> plan[i].queued.sample < flush
    requires forall i :: m <= i < |plan| ==> plan[i].queued.first >= flush
    ensures Queues(SendFlush(c, flush), plan[..m], past, now)
  {
    hide OnlyTriggers, Survivors, PlanEvents, FlushTriggers;
    var pushed := c.queue.pushed;
    SurvivorsPush(pushed, Event(flush, Flush));
    FlushOnlyTriggers(Survivors(pushed), flush);
    FlushConcat(past, PlanEvents(plan), flush);
    FlushNone(past, flush);
    FlushTakesSteps(plan, m, flush);
  }

  // ---- The invariant of a running pattern ----

  /** The sample of the last planned grid hit. */
  function LastSample(plan: seq<Hit>): Option<nat>
  {
    if plan == [] then None else Some(plan[|plan| - 1].queued.sample)
  }

  /** The next step keeps its distance from the last planned one. */
  ghost predicate NextInOrder(c: ControlState, plan: seq<Hit>)
    requires c.Valid()
  {
    AudioRate(c.Adjusted()) && FlamFits(c) && InOrder(c, LastSample(plan))
  }

  /** Planned steps not yet heard are consecutive and end just before the cursor. */
  ghost predicate Consecutive(plan: seq<Hit>, next: nat, now: nat)
  {
    forall i :: 0 <= i < |plan| && plan[i].queued.first >= now ==> plan[i].queued.step + (|plan| - i) == next
  }

  /** Steps planned plus steps left to the end of the run. */
  ghost predicate Counted(s: SchedulerState, plan: seq<Hit>, total: int)
  {
    s.stopAt.Some? ==> s.nextStep <= s.stopAt.value && |plan| + (s.stopAt.value - s.nextStep) == total
  }

  /** The clocks count the engine's samples. */
  predicate OneRate(c: ControlState) { c.internal.sampleRate == c.sampleRate == c.follower.sampleRate }

  /** What a run amounts to so far. `past`: the surviving triggers from before the internal clock
      was last restarted, all played. `played`: the whole steps among them. `plan`: the steps
      queued since and not taken back. `total`: all steps, with those still to play. */
  datatype Score = Score(past: seq<Event>, played: nat, plan: seq<Hit>, total: int, mark: Mark)

  ghost predicate Aligned(c: ControlState, s: Score, now: nat)
  {
    && c.Valid() && c.pendingFlush == None && OneRate(c)
    && Spaced(s.plan) && Remembers(c.log, s.plan, now)
    && (|c.log| == QUEUED_MEMORY ==> c.log[0].first < now)
    && Consecutive(s.plan, c.scheduler.nextStep, now) && Counted(c.scheduler, s.plan, s.total - s.played)
    && Queues(c, s.plan, s.past, now)
    && (c.scheduler.playing ==>
          NextInOrder(c, s.plan) && Marked(c, s.mark, now) && FromQueue(c, s.mark, LastSample(s.plan)))
  }

  /** A jump can find its step: something was heard before it, or it reaches back no further than
      to sample 1, or step 0 is not already past at sample 0. */
  predicate FindsStep(log: seq<Queued>, p: Pattern, c: AdjustedClock, earliest: nat, now: nat)
    requires c.Valid()
  {
    CutFrom(log, now, None).heard.Some? || earliest >= 1 || StepPosition(p, c, 0) >= 0
  }

  /** The grace note of the next step does not reach back over the last planned one. It never does if
      flams are shorter than half a step. */
  predicate GraceClears(c: ControlState, plan: seq<Hit>)
    requires c.Valid()
  {
    plan != [] && c.Pattern().HasFlam(c.scheduler.nextStep) ==>
      StepPosition(c.Pattern(), c.Adjusted(), c.scheduler.nextStep)
      > plan[|plan| - 1].queued.sample + FlamSamples(c.Pattern(), c.Adjusted())
  }

  lemma ShortFlamsClear(c: ControlState, plan: seq<Hit>)
    requires c.Valid() && FlamSamples(c.Pattern(), c.Adjusted()) as real < HalfStep(c.Active())
    requires var next := StepPosition(c.Pattern(), c.Adjusted(), c.scheduler.nextStep);
             plan != [] ==> next as real >= plan[|plan| - 1].queued.sample as real + HalfStep(c.Active())
    ensures GraceClears(c, plan)
  {
  }

  /** The earliest sample a jump at `now` may play from. */
  function Earliest(c: ControlState, from: nat, now: nat): nat
    requires c.Valid()
  {
    var heard := CutFrom(c.log, now, None).heard;
    if heard.Some? then Max(from, HalfStepAfter(c, heard.value.sample as real)) else from
  }

  /** A jump of the timeline at `now` under a running pattern: exactly the steps heard stay
      planned; the cursor moves to the first step of the new timeline that is at least half a
      step behind the last one heard and no earlier than the grace before `now`; the number of
      steps the run still has to play counts the dropped ones back in. */
  lemma RealignAligned(c: ControlState, before: ActiveClock, s: Score, now: nat)
    requires Ready(c) && before.Valid() && OneRate(c)
    requires Spaced(s.plan) && Remembers(c.log, s.plan, now)
    requires |c.log| == QUEUED_MEMORY ==> c.log[0].first < now
    requires Consecutive(s.plan, c.scheduler.nextStep, now) && Counted(c.scheduler, s.plan, s.total - s.played)
    requires Queues(c, s.plan, s.past, now)
    requires AudioRate(c.Adjusted()) && FlamFits(c)
    requires FindsStep(c.log, c.Pattern(), c.Adjusted(), SaturatingSub(now, c.Grace()), now)
    requires RealignContinuous(c, now, before).scheduler.stopAt != Some(U64_MAX)
    requires RealignContinuous(c, now, before).Valid()
    requires GraceClears(RealignContinuous(c, now, before), Replanned(s.plan, CutFrom(c.log, now, None).flush))
    ensures var c' := RealignContinuous(c, now, before);
            var plan' := Replanned(s.plan, CutFrom(c.log, now, None).flush);
            && c'.Valid() && Aligned(c', s.(plan := plan', mark := FreshMark(c', now)), now)
            && |plan'| <= |s.plan| && plan' == s.plan[..|plan'|]
            && (forall i :: 0 <= i < |s.plan| ==> (i < |plan'| <==> s.plan[i].queued.first < now))
            && CutFrom(c.log, now, None).heard == LastKept(c.log, s.plan, plan')
            && IsFirstStep(c.Pattern(), c.Adjusted(), Earliest(c, SaturatingSub(now, c.Grace()), now),
               c'.scheduler.nextStep)
  {
    hide FirstStepAtOrAfter, CutFrom, FlushFrom, Spaced, HalfStepAfter, Survivors, OnlyTriggers, PlanEvents, Replanned,
         StepPosition, AudioRate, FlamSamples, IsFirstStep, HeardFromTimeline, Marked, FreshMark, FromQueue, Remembers,
         InOrder, FindsStep, Earliest, LastKept, GraceClears, FlamFits;
    RealignCuts(c.log, s.plan, now);
    var cut := CutFrom(c.log, now, None);
    var plan' := Replanned(s.plan, cut.flush);
    var m := |plan'|;
    SpacedPrefix(s.plan, m);
    FlushQueues(c, s.plan, s.past, now, cut.flush, m);
    RealignValid(c, now, before);
    RealignSeeks(c, before, s.plan, now);
    DroppedCount(c.scheduler, s.plan, m, s.total - s.played, now);
    var c' := RealignContinuous(c, now, before);
    LogReaches(c.log, s.plan, now);
    FlushShorter(c.log, cut.flush);
    FreshIsMarked(c', now);
    FreshFromQueue(c', now, LastSample(plan'));
    SameOrder(c, c', plan');
  }

  lemma SameOrder(c: ControlState, c': ControlState, plan: seq<Hit>)
    requires c.Valid() && c'.Valid() && c'.Pattern() == c.Pattern() && c'.Adjusted() == c.Adjusted()
    ensures FlamFits(c) ==> FlamFits(c')
    ensures var next := StepPosition(c.Pattern(), c.Adjusted(), c'.scheduler.nextStep);
            && GraceClears(c', plan) && next >= 0
            && (plan != [] ==> next as real >= plan[|plan| - 1].queued.sample as real + HalfStep(c.Active()))
            ==> InOrder(c', LastSample(plan))
  {
  }

  /** What is left of a full log still begins with a step heard. */
  lemma {:induction false} FlushShorter(log: seq<Queued>, flush: nat)
    ensures |FlushFrom(log, flush)| <= |log|
    ensures FlushFrom(log, flush) == log[..|FlushFrom(log, flush)|]
    decreases |log|
  {
    if log != [] && log[|log| - 1].sample >= flush {
      FlushShorter(log[..|log| - 1], flush);
      var n := |FlushFrom(log, flush)|;
      assert log[..|log| - 1][..n] == log[..n];
    } else {
      assert log[..|log|] == log;
    }
  }

  lemma SpacedPrefix(plan: seq<Hit>, m: nat)
    requires Spaced(plan) && m <= |plan|
    ensures Spaced(plan[..m]) && forall i :: 0 <= i < |plan| ==> HitWhole(plan[i])
  {
  }

  /** Where the cursor goes. */
  lemma RealignSeeks(c: ControlState, before: ActiveClock, plan: seq<Hit>, now: nat)
    requires c.Valid() && before.Valid()
    requires Spaced(plan) && Remembers(c.log, plan, now)
    requires |c.log| == QUEUED_MEMORY ==> c.log[0].first < now
    requires AudioRate(c.Adjusted()) && FlamFits(c)
    requires FindsStep(c.log, c.Pattern(), c.Adjusted(), SaturatingSub(now, c.Grace()), now)
    ensures var plan' := Replanned(plan, CutFrom(c.log, now, None).flush);
            var earliest := Earliest(c, SaturatingSub(now, c.Grace()), now);
            var step := FirstStepAtOrAfter(c.Pattern(), c.Adjusted(), RealignFrom(c, now, before));
            && RealignFrom(c, now, before) == earliest
            && IsFirstStep(c.Pattern(), c.Adjusted(), earliest, step)
            && StepPosition(c.Pattern(), c.Adjusted(), step) >= 0
            && (plan' != [] ==> StepPosition(c.Pattern(), c.Adjusted(), step) as real
                                 >= plan'[|plan'| - 1].queued.sample as real + HalfStep(c.Active()))
  {
    hide FirstStepAtOrAfter, CutFrom, FlushFrom, Spaced, HalfStep, StepPosition, AudioRate, FlamSamples,
         HeardFromTimeline, FlamFits, Remembers, Replanned;
    RealignCuts(c.log, plan, now);
    LogReaches(c.log, plan, now);
    FirstStepExact(c.Pattern(), c.Adjusted(), RealignFrom(c, now, before));
    var cut := CutFrom(c.log, now, None);
    if cut.heard.Some? { HalfStepAfterIsLater(c, cut.heard.value.sample); }
  }

  lemma HalfStepAfterIsLater(c: ControlState, heard: nat)
    requires c.Valid()
    ensures HalfStepAfter(c, heard as real) as real >= heard as real + HalfStep(c.Active())
    ensures HalfStepAfter(c, heard as real) >= 1
  {
  }

  /** A full log reaches back to a step heard. */
  lemma LogReaches(log: seq<Queued>, plan: seq<Hit>, now: nat)
    requires Spaced(plan) && Remembers(log, plan, now)
    requires |log| == QUEUED_MEMORY ==> log[0].first < now
    ensures |log| <= QUEUED_MEMORY
    ensures CutFrom(log, now, None).heard == None ==> |log| < QUEUED_MEMORY
  {
    if |log| == QUEUED_MEMORY {
      CutStep(log, 0, now, None);
      HeardStays(log[1..], Max(now, log[0].sample + 1), log[0]);
      assert log[0..] == log;
    }
  }

  lemma {:induction false} HeardStays(log: seq<Queued>, commit: nat, heard: Queued)
    ensures CutFrom(log, commit, Some(heard)).heard.Some?
    decreases |log|
  {
    if log != [] && log[0].first < commit { HeardStays(log[1..], Max(commit, log[0].sample + 1), log[0]); }
  }

  /** Seeking from the true first dropped step keeps the count. */
  lemma DroppedCount(s: SchedulerState, plan: seq<Hit>, m: nat, total: int, now: nat)
    requires m <= |plan| && Consecutive(plan, s.nextStep, now) && Counted(s, plan, total)
    requires m < |plan| ==> plan[m].queued.first >= now
    ensures var unplayed := if m < |plan| then plan[m].queued.step else s.nextStep;
            && unplayed <= s.nextStep && s.nextStep - unplayed == |plan| - m
            && forall step: nat :: s.Seek(step, unplayed).stopAt != Some(U64_MAX) ==>
                 Counted(s.Seek(step, unplayed), plan[..m], total)
  {
  }
}
