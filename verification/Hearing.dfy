/** What is heard of a run: whole planned steps, their grid hits half a step apart. */
module Hearing {
  import opened Numbers
  import opened Pattern
  import opened Scheduling
  import opened QueuedLogs
  import opened Rendering
  import opened Controlling
  import opened Engines
  import opened Realigning
  import opened GridHits
  import opened GridRuns

  lemma {:induction false} TriggerStays(es: seq<Event>, e: Event)
    requires e in es && e.kind.Trigger?
    ensures e in OnlyTriggers(es)
  {
    if e != es[|es| - 1] {
      assert e in es[..|es| - 1];
      TriggerStays(es[..|es| - 1], e);
    }
  }

  lemma {:induction false} OfSomeHit(plan: seq<Hit>, e: Event)
    requires e in PlanEvents(plan)
    ensures exists i :: 0 <= i < |plan| && e in plan[i].events
  {
    if e !in plan[|plan| - 1].events { OfSomeHit(plan[..|plan| - 1], e); }
  }

  lemma PlayedSurvives(done: seq<Event>, rest: seq<Event>, survivors: seq<Event>, e: Event)
    requires multiset(done) + multiset(rest) == multiset(survivors) && e in done
    ensures e in survivors
  {
    assert e in multiset(done) + multiset(rest);
  }

  /** What a played trigger is: part of a planned step, or of what was heard before the internal
      clock was last restarted. */
  ghost predicate OfScore(e: Event, s: Score)
  {
    e in s.past || exists i :: 0 <= i < |s.plan| && e in s.plan[i].events
  }

  /** Two played triggers of different steps: the grid hit of the later one is stamped at least half
      a step behind the other; and sounds as far behind it, if that one was on time. */
  ghost predicate HeardApart(a: Applied, b: Applied, plan: seq<Hit>, i: nat, j: nat)
    requires i < j < |plan|
  {
    a.event in plan[i].events && b.event in plan[j].events && b.event.sample == plan[j].queued.sample ==>
      && b.event.sample as real >= a.event.sample as real + plan[j].half
      && (a.time == a.event.sample ==> b.time as real >= a.time as real + plan[j].half)
  }

  /** Over every run, of what was actually played: each trigger belongs to a whole planned step or
      to what was heard before the last restart of the internal clock, and the grid hits of the
      planned steps sound at least half a step behind everything on time of the steps before. */
  lemma HeardHitsApart(e: Engine, ops: seq<Op>, s: Score)
    requires e.Valid() && OpsValid(ops) && AllFit(e, ops, s) && Settled(e) && AllUnblocked(e, ops)
    requires Aligned(e.control, s, e.renderer.position) && InStep(e.control, e.renderer.published, e.renderer.position)
    ensures var applied, s' := Run(e, ops).renderer.applied, Scored(e, ops, s);
            && (forall a <- applied :: a.event.kind.Trigger? ==> OfScore(a.event, s'))
            && (forall i, j, a, b :: 0 <= i < j < |s'.plan| && a in applied && b in applied ==>
                 HeardApart(a, b, s'.plan, i, j))
  {
    hide Run, Scored, AllFit, AllUnblocked, Aligned, Survivors, OnlyTriggers, PlanEvents, InStep, OfScore, HeardApart,
         Settled, TakeAll;
    FlushRefinement(e, ops);
    GridHitsApart(e, ops, s);
    var e', s' := Run(e, ops), Scored(e, ops, s);
    var applied, survivors := e'.renderer.applied, Survivors(e'.control.queue.pushed);
    forall a | a in applied && a.event.kind.Trigger?
      ensures OfScore(a.event, s')
    {
      InEvents(applied, a);
      PlayedSurvives(Events(applied), TakeAll(e'.renderer.pending, e'.control.queue.Waiting()), survivors, a.event);
      TriggerStays(survivors, a.event);
      PartOfScore(a.event, s');
    }
    forall i, j, a, b | 0 <= i < j < |s'.plan| && a in applied && b in applied
      ensures HeardApart(a, b, s'.plan, i, j)
    {
      assert HitWhole(s'.plan[i]) && HitWhole(s'.plan[j]);
      ApartHeard(a, b, s'.plan, i, j);
    }
  }

  lemma InEvents(applied: seq<Applied>, a: Applied)
    requires a in applied
    ensures a.event in Events(applied)
  {
    var i :| 0 <= i < |applied| && applied[i] == a;
    assert Events(applied)[i] == a.event;
  }

  lemma PartOfScore(e: Event, s: Score)
    requires e in s.past + PlanEvents(s.plan)
    ensures OfScore(e, s)
  {
    if e !in s.past { OfSomeHit(s.plan, e); }
  }

  lemma ApartHeard(a: Applied, b: Applied, plan: seq<Hit>, i: nat, j: nat)
    requires i < j < |plan| && HitWhole(plan[i]) && HitWhole(plan[j])
    requires plan[j].queued.sample as real >= plan[i].queued.sample as real + plan[j].half
    requires a.event.sample <= a.time && b.event.sample <= b.time
    ensures HeardApart(a, b, plan, i, j)
  {
  }
}
