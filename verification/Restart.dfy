/** A restart of the internal clock under a run: what was heard becomes the past, and a new plan
    begins with step 0 on the very sample of the restart. */
module Restarting {
  import opened Numbers
  import opened Clock
  import opened Pattern
  import opened Scheduling
  import opened QueuedLogs
  import opened Rendering
  import opened Controlling
  import opened Engines
  import opened Pacing
  import opened Realigning

  // ---- What a restart drops ----

  lemma {:induction false} ReplannedSplits(plan: seq<Hit>, flush: nat)
    ensures var m := |Replanned(plan, flush)|;
            && m <= |plan| && Replanned(plan, flush) == plan[..m]
            && (m > 0 ==> plan[m - 1].queued.sample < flush)
            && (forall i :: m <= i < |plan| ==> plan[i].queued.sample >= flush)
    decreases |plan|
  {
    if plan != [] && plan[|plan| - 1].queued.sample >= flush {
      ReplannedSplits(plan[..|plan| - 1], flush);
    }
  }

  lemma {:induction false} FlushSplits(log: seq<Queued>, flush: nat)
    ensures var n := |FlushFrom(log, flush)|;
            && n <= |log| && FlushFrom(log, flush) == log[..n]
            && (n > 0 ==> log[n - 1].sample < flush)
            && (forall i :: n <= i < |log| ==> log[i].sample >= flush)
    decreases |log|
  {
    if log != [] && log[|log| - 1].sample >= flush {
      FlushSplits(log[..|log| - 1], flush);
    }
  }

  lemma SpacedBefore(plan: seq<Hit>, m: nat, flush: nat)
    requires Spaced(plan) && m <= |plan| && (m > 0 ==> plan[m - 1].queued.sample < flush)
    ensures forall i :: 0 <= i < m ==> plan[i].queued.first <= plan[i].queued.sample < flush
  {
    forall i | 0 <= i < m
      ensures plan[i].queued.first <= plan[i].queued.sample < flush
    {
      assert HitWhole(plan[i]);
      if i < m - 1 {
        PlanInOrder(plan, i, m - 1);
        assert HitWhole(plan[m - 1]);
      }
    }
  }

  /** A restart at `now` drops the same steps from the log and the plan: those with a grid hit
      from `now` on. All that stays is heard. */
  lemma RestartCuts(log: seq<Queued>, plan: seq<Hit>, now: nat)
    requires Spaced(plan) && Remembers(log, plan, now)
    ensures var plan', log' := Replanned(plan, now), FlushFrom(log, now);
            var m := |plan'|;
            && m <= |plan| && plan' == plan[..m] && |plan| - m == |log| - |log'|
            && (forall i :: 0 <= i < m ==> plan[i].queued.sample < now)
            && |log'| <= |log| && log' == log[..|log'|] && Remembers(log', [], now)
            && (|log'| < |log| ==> log[|log'|] == plan[m].queued)
  {
    ReplannedSplits(plan, now);
    FlushSplits(log, now);
    var m, n := |Replanned(plan, now)|, |FlushFrom(log, now)|;
    CutsAgree(log, plan, now);
    hide Replanned, FlushFrom, Spaced;
    SpacedBefore(plan, m, now);
    KeptIsHeard(log, plan, m, n, now);
  }

  /** Log and plan lose the same number of steps. */
  lemma CutsAgree(log: seq<Queued>, plan: seq<Hit>, now: nat)
    requires Spaced(plan) && Remembers(log, plan, now)
    ensures |Replanned(plan, now)| <= |plan| && |FlushFrom(log, now)| <= |log|
    ensures |plan| - |Replanned(plan, now)| == |log| - |FlushFrom(log, now)|
  {
    hide Replanned, FlushFrom, Spaced;
    ReplannedSplits(plan, now);
    FlushSplits(log, now);
    var m, n, k := |Replanned(plan, now)|, |FlushFrom(log, now)|, Earlier(log, plan);
    var own := log[k..];
    var o := |plan| - |own|;
    assert m >= o by {
      if o > 0 { OlderIsHeard(own, plan, now); }
    }
    assert n == k + (m - o) by { SameCut(log, plan, k, o, m, n, now); }
  }

  /** What the log keeps is heard, and the first step it drops is the plan's. */
  lemma KeptIsHeard(log: seq<Queued>, plan: seq<Hit>, m: nat, n: nat, now: nat)
    requires Remembers(log, plan, now) && m <= |plan| && n <= |log| && |plan| - m == |log| - n
    requires forall i :: 0 <= i < m ==> plan[i].queued.first <= plan[i].queued.sample < now
    ensures Remembers(log[..n], [], now)
    ensures n < |log| ==> log[n] == plan[m].queued
  {
    var k := Earlier(log, plan);
    var own := log[k..];
    var o := |plan| - |own|;
    forall i | 0 <= i < n
      ensures log[i].first <= log[i].sample < now
    {
      if i >= k { assert log[i] == own[i - k] == plan[o + (i - k)].queued; }
    }
    if n < |log| { assert log[n] == own[n - k] == plan[o + (n - k)].queued; }
  }

  /** A step whose grace note has sounded and whose hit has not yet is still the one before the step
      queued behind it, or before the cursor: no jump has come between. */
  predicate NoJumpSince(log: seq<Queued>, next: nat, now: nat)
  {
    forall i :: 0 <= i < |log| && log[i].first < now <= log[i].sample ==> BeforeNext(log, next, i)
  }

  predicate BeforeNext(log: seq<Queued>, next: nat, i: nat)
    requires i < |log|
  {
    log[i].step + 1 == if i + 1 < |log| then log[i + 1].step else next
  }

  /** The steps a restart at `now` drops are the newest ones, up to the cursor. */
  predicate DropsNewest(c: ControlState, now: nat)
    requires c.Valid()
  {
    Min(DropQueuedFrom(c, now).1, c.scheduler.nextStep) + (|c.log| - |FlushFrom(c.log, now)|) == c.scheduler.nextStep
  }

  /** They are exactly if no jump has come since the grace note of a step still to sound. */
  lemma DropsNewestExactly(c: ControlState, plan: seq<Hit>, now: nat)
    requires c.Valid() && Spaced(plan) && Remembers(c.log, plan, now) && Consecutive(plan, c.scheduler.nextStep, now)
    ensures DropsNewest(c, now) <==> NoJumpSince(c.log, c.scheduler.nextStep, now)
  {
    DroppedFirst(c, now);
    hide DropsNewest, DropQueuedFrom;
    DropsLast(c.log, plan, c.scheduler.nextStep, now);
  }

  lemma DropsLast(log: seq<Queued>, plan: seq<Hit>, next: nat, now: nat)
    requires Spaced(plan) && Remembers(log, plan, now) && Consecutive(plan, next, now)
    ensures var n := |FlushFrom(log, now)|;
            NoJumpSince(log, next, now) <==> (n < |log| ==> log[n].step + (|log| - n) == next)
  {
    KeptLies(log, plan, now);
    CutsAgree(log, plan, now);
    var n, m := |FlushFrom(log, now)|, |Replanned(plan, now)|;
    DroppedQueued(log, plan, n, m, now);
    hide Replanned, FlushFrom, Spaced, Remembers, Consecutive, NoJumpSince;
    if n < |log| {
      OneHalfHeard(log, n, next, now);
      LastSteps(plan, m, next, now);
      if n + 1 < |log| { assert log[n + 1] == plan[m + 1].queued; }
    } else {
      NoneHalfHeard(log, next, now);
    }
  }

  lemma DroppedFirst(c: ControlState, now: nat)
    requires c.Valid()
    ensures var n := |FlushFrom(c.log, now)|;
            DropsNewest(c, now) <==> (n < |c.log| ==> c.log[n].step + (|c.log| - n) == c.scheduler.nextStep)
  {
    hide FlushFrom;
    FlushSplits(c.log, now);
  }

  /** What the log keeps lies before the restart, what it drops does not. */
  lemma KeptLies(log: seq<Queued>, plan: seq<Hit>, now: nat)
    requires Spaced(plan) && Remembers(log, plan, now)
    ensures var n := |FlushFrom(log, now)|;
            && n <= |log| && (forall i :: 0 <= i < n ==> log[i].sample < now)
            && forall i :: n <= i < |log| ==> log[i].sample >= now
  {
    hide FlushFrom, Spaced, Replanned;
    RestartCuts(log, plan, now);
    FlushSplits(log, now);
    var n := |FlushFrom(log, now)|;
    assert forall i :: 0 <= i < n ==> log[..n][i] == log[i];
  }

  lemma NoneHalfHeard(log: seq<Queued>, next: nat, now: nat)
    requires forall i :: 0 <= i < |log| ==> log[i].sample < now
    ensures NoJumpSince(log, next, now)
  {
  }

  lemma LastSteps(plan: seq<Hit>, m: nat, next: nat, now: nat)
    requires Consecutive(plan, next, now) && m < |plan|
    ensures plan[m].queued.first >= now ==> plan[m].queued.step + (|plan| - m) == next
    ensures m + 1 < |plan| && plan[m + 1].queued.first >= now ==>
              plan[m + 1].queued.step + (|plan| - m - 1) == next
  {
  }

  /** At most one step is half heard: the first one dropped. */
  lemma OneHalfHeard(log: seq<Queued>, n: nat, next: nat, now: nat)
    requires n < |log| && log[n].sample >= now
    requires forall i :: 0 <= i < n ==> log[i].sample < now
    requires forall i :: n < i < |log| ==> log[i].first >= now
    ensures NoJumpSince(log, next, now) <==> (log[n].first < now ==> BeforeNext(log, next, n))
  {
    assert forall i :: 0 <= i < |log| && log[i].first < now <= log[i].sample ==> i == n;
  }

  /** The steps from the first dropped one on are the plan's; all but the first lie wholly ahead. */
  lemma DroppedQueued(log: seq<Queued>, plan: seq<Hit>, n: nat, m: nat, now: nat)
    requires Spaced(plan) && Remembers(log, plan, now) && n <= |log| && m <= |plan| && |plan| - m == |log| - n
    requires forall i :: n <= i < |log| ==> log[i].sample >= now
    ensures forall i :: n <= i < |log| ==> log[i] == plan[m + (i - n)].queued
    ensures forall i :: n < i < |log| ==> log[i].first >= now
  {
    var k := Earlier(log, plan);
    var own := log[k..];
    forall i | n <= i < |log|
      ensures log[i] == plan[m + (i - n)].queued
    {
      assert own[i - k] == plan[|plan| - |own| + (i - k)].queued;
    }
    forall i | n < i < |log|
      ensures log[i].first >= now
    {
      PlanInOrder(plan, m + (i - n) - 1, m + (i - n));
      assert log[i - 1] == plan[m + (i - n) - 1].queued;
    }
  }

  /** Steps too old for the log lie before `now`. */
  lemma OlderIsHeard(own: seq<Queued>, plan: seq<Hit>, now: nat)
    requires Spaced(plan) && TailOf(own, plan, now) && |own| < |plan|
    ensures |Replanned(plan, now)| >= |plan| - |own|
  {
    hide Replanned, Spaced;
    var o := |plan| - |own|;
    ReplannedSplits(plan, now);
    assert own[0] == plan[o].queued;
    PlanInOrder(plan, o - 1, o);
  }

  /** Both cut behind the newest step that lies before `now`. */
  lemma SameCut(log: seq<Queued>, plan: seq<Hit>, k: nat, o: nat, m: nat, n: nat, now: nat)
    requires k <= |log| && o <= m <= |plan| && n <= |log| && |log| - k == |plan| - o
    requires forall i :: 0 <= i < k ==> log[i].sample < now
    requires forall i :: k <= i < |log| ==> log[i] == plan[o + (i - k)].queued
    requires m > 0 ==> plan[m - 1].queued.sample < now
    requires forall i :: m <= i < |plan| ==> plan[i].queued.sample >= now
    requires n > 0 ==> log[n - 1].sample < now
    requires forall i :: n <= i < |log| ==> log[i].sample >= now
    ensures n == k + (m - o)
  {
    var n' := k + (m - o);
    assert n' > 0 ==> log[n' - 1].sample < now;
    assert forall i :: n' <= i < |log| ==> log[i].sample >= now;
  }

  // ---- What a restart leaves in the queue ----

  lemma {:induction false} OnlyTriggersAre(es: seq<Event>)
    ensures forall e <- OnlyTriggers(es) :: e.kind.Trigger?
  {
    if es != [] { OnlyTriggersAre(es[..|es| - 1]); }
  }

  lemma {:induction false} FlushLeaves(es: seq<Event>, f: nat)
    ensures forall e <- FlushTriggers(es, f) :: e in es && Kept(e, f)
  {
    if es != [] { FlushLeaves(es[..|es| - 1], f); }
  }

  lemma {:induction false} EventsBefore(plan: seq<Hit>, flush: nat)
    requires forall i :: 0 <= i < |plan| ==> HitWhole(plan[i]) && plan[i].queued.sample < flush
    ensures forall e <- PlanEvents(plan) :: e.sample < flush
  {
    if plan != [] {
      assert HitWhole(plan[|plan| - 1]);
      EventsBefore(plan[..|plan| - 1], flush);
    }
  }

  /** What of the surviving triggers a restart at `now` lets stand. */
  function PastAfter(past: seq<Event>, plan: seq<Hit>, now: nat): seq<Event>
  {
    FlushTriggers(past + PlanEvents(plan), now)
  }

  /** The whole steps heard, and the grace notes of a step whose hit is dropped. */
  lemma PastIsHeard(past: seq<Event>, plan: seq<Hit>, now: nat)
    requires Spaced(plan) && forall e <- past :: e.sample < now
    ensures var m := |Replanned(plan, now)|;
            && m <= |plan|
            && PastAfter(past, plan, now) == past + PlanEvents(plan[..m]) + FlushTriggers(PlanEvents(plan[m..]), now)
  {
    hide Spaced, Replanned, FlushTriggers, PlanEvents;
    ReplannedSplits(plan, now);
    var m := |Replanned(plan, now)|;
    SpacedBefore(plan, m, now);
    SpacedPrefix(plan, m);
    EventsBefore(plan[..m], now);
    PlanEventsConcat(plan[..m], plan[m..]);
    assert plan == plan[..m] + plan[m..];
    FlushConcat(past, PlanEvents(plan), now);
    FlushConcat(PlanEvents(plan[..m]), PlanEvents(plan[m..]), now);
    FlushNone(past, now);
    FlushNone(PlanEvents(plan[..m]), now);
    var heard, rest := PlanEvents(plan[..m]), FlushTriggers(PlanEvents(plan[m..]), now);
    assert past + (heard + rest) == past + heard + rest;
  }

  lemma {:induction false} PlanEventsConcat(a: seq<Hit>, b: seq<Hit>)
    ensures PlanEvents(a + b) == PlanEvents(a) + PlanEvents(b)
    decreases |b|
  {
    if b == [] {
      assert a + b == a;
    } else {
      assert (a + b)[..|a + b| - 1] == a + b[..|b| - 1];
      PlanEventsConcat(a, b[..|b| - 1]);
    }
  }

  lemma RestartQueues(c: ControlState, s: Score, now: nat)
    requires Ready(c) && Spaced(s.plan) && Remembers(c.log, s.plan, now) && Queues(c, s.plan, s.past, now)
    ensures var c' := DropQueuedFrom(c, now).0;
            c'.queue.Valid() && c'.pendingFlush == None && Queues(c', [], PastAfter(s.past, s.plan, now), now)
  {
    hide Spaced, Remembers, Replanned, FlushFrom, FlushTriggers, PlanEvents, Survivors, OnlyTriggers;
    RestartCuts(c.log, s.plan, now);
    OnlyTriggersAre(Survivors(c.queue.pushed));
    var all := s.past + PlanEvents(s.plan);
    FlushLeaves(all, now);
    NoPlanEvents();
    var c' := DropQueuedFrom(c, now).0;
    if |FlushFrom(c.log, now)| < |c.log| {
      SurvivorsPush(c.queue.pushed, Event(now, Flush));
      FlushOnlyTriggers(Survivors(c.queue.pushed), now);
    } else {
      SpacedPrefix(s.plan, |s.plan|);
      EventsBefore(s.plan, now);
      FlushNone(all, now);
    }
    assert FlushTriggers(all, now) + [] == FlushTriggers(all, now);
  }

  lemma NoPlanEvents()
    ensures PlanEvents([]) == []
  {
  }

  // ---- The invariant after a restart ----

  /** The score after a restart: the whole steps heard count as played. */
  ghost function RestartScore(s: Score, c': ControlState, total: int, now: nat): Score
    requires c'.Valid()
  {
    Score(PastAfter(s.past, s.plan, now), s.played + |Replanned(s.plan, now)|, [], total, FreshMark(c', now))
  }

  /** A restart with the cursor on step 0, whatever was queued: step 0 is due on the sample of the
      restart, and the new run owes nothing to the old one. */
  lemma RestartAligned(c: ControlState, c': ControlState, s: Score, total: int, now: nat)
    requires Ready(c) && OneRate(c) && c.mode == FreeRunning
    requires Spaced(s.plan) && Remembers(c.log, s.plan, now) && Queues(c, s.plan, s.past, now)
    requires |c.log| == QUEUED_MEMORY ==> c.log[0].first < now
    requires DropQueuedFrom(c, now).0.Valid()
    requires c' == RestartInternalAt(DropQueuedFrom(c, now).0, now).(scheduler := c'.scheduler)
    requires c'.scheduler.pattern == c.scheduler.pattern && c'.scheduler.nextStep == 0 && c'.Valid()
    requires AudioRate(c'.Adjusted()) && FlamFits(c')
    requires Counted(c'.scheduler, [], total - s.played - |Replanned(s.plan, now)|)
    ensures Aligned(c', RestartScore(s, c', total, now), now)
  {
    hide Spaced, Replanned, FlushFrom, PlanEvents, Survivors, OnlyTriggers, PastAfter, Marked, FreshMark, FromQueue,
         AudioRate, FlamSamples, StepPosition, Queues;
    RestartCuts(c.log, s.plan, now);
    RestartQueues(c, s, now);
    var dropped := DropQueuedFrom(c, now).0;
    RestartValid(dropped, now);
    RestartPutsStepZero(dropped, now);
    assert c'.Adjusted() == RestartInternalAt(dropped, now).Adjusted();
    FreshIsMarked(c', now);
    FreshFromQueue(c', now, None);
    NoHits();
    QueuesSame(dropped, c', [], PastAfter(s.past, s.plan, now), now);
    SameOrder(c', c', []);
    StepZeroPosition(c', now);
  }

  lemma StepZeroPosition(c: ControlState, now: nat)
    requires c.Valid() && c.Adjusted().SampleAtBeat(0.0) == now as real
    ensures StepPosition(c.Pattern(), c.Adjusted(), 0) == now
  {
    assert c.Pattern().StepBeat(0) == 0.0;
  }

  lemma NoHits()
    ensures Spaced([])
  {
  }

  lemma QueuesSame(c: ControlState, c': ControlState, plan: seq<Hit>, past: seq<Event>, now: nat)
    requires Queues(c, plan, past, now) && c'.queue.pushed == c.queue.pushed
    ensures Queues(c', plan, past, now)
  {
  }
}
