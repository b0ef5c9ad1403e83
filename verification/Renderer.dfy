/** The render thread's half: pending events kept sorted, applied on their exact sample. */
module Rendering {
  import opened Numbers
  import opened Pattern
  import opened Scheduling

  /** The room of the list of events not yet due. */
  const PENDING_CAPACITY := 256

  /** An event and the sample it took effect on. */
  datatype Applied = Applied(time: nat, event: Event)

  /** The renderer between two samples. `applied` is everything the kit and the master section
      were ever told; `published` is the block start the control thread can read. */
  datatype RenderState = RenderState(position: nat, pending: seq<Event>, applied: seq<Applied>, published: nat)

  // ---- The pending list ----

  /** Inserts behind every pending event that is not later. */
  function Insert(pending: seq<Event>, e: Event): (r: seq<Event>)
    ensures |r| == |pending| + 1
  {
    if pending == [] || pending[|pending| - 1].sample <= e.sample then pending + [e]
    else Insert(pending[..|pending| - 1], e) + [pending[|pending| - 1]]
  }

  /** A flush at `f` drops triggers at or after `f` and nothing else. */
  predicate Kept(e: Event, f: nat) { !(e.kind.Trigger? && e.sample >= f) }

  function FlushTriggers(es: seq<Event>, f: nat): (r: seq<Event>)
    ensures |r| <= |es|
  {
    if es == [] then []
    else
      var kept := FlushTriggers(es[..|es| - 1], f);
      if Kept(es[|es| - 1], f) then kept + [es[|es| - 1]] else kept
  }

  /** Moves waiting events into the pending list while there is room; what is left waits on. */
  function Pull(pending: seq<Event>, waiting: seq<Event>): (r: (seq<Event>, seq<Event>))
    ensures |r.1| <= |waiting|
    ensures |pending| <= PENDING_CAPACITY ==> |r.0| <= PENDING_CAPACITY
    decreases |waiting|
  {
    if waiting == [] || |pending| >= PENDING_CAPACITY then (pending, waiting)
    else if waiting[0].kind.Flush? then Pull(FlushTriggers(pending, waiting[0].sample), waiting[1..])
    else Pull(Insert(pending, waiting[0]), waiting[1..])
  }

  lemma {:induction false} PullLeavesTail(pending: seq<Event>, waiting: seq<Event>)
    ensures var rest := Pull(pending, waiting).1; rest == waiting[|waiting| - |rest|..]
    decreases |waiting|
  {
    if waiting != [] && |pending| < PENDING_CAPACITY {
      var e, later := waiting[0], waiting[1..];
      PullLeavesTail(if e.kind.Flush? then FlushTriggers(pending, e.sample) else Insert(pending, e), later);
    }
  }

  /** With room for everything, everything is pulled. */
  lemma {:induction false} PullTakesAll(pending: seq<Event>, waiting: seq<Event>)
    requires |pending| + |waiting| <= PENDING_CAPACITY
    ensures Pull(pending, waiting).1 == []
    decreases |waiting|
  {
    if waiting != [] {
      var e := waiting[0];
      PullTakesAll(if e.kind.Flush? then FlushTriggers(pending, e.sample) else Insert(pending, e), waiting[1..]);
    }
  }

  /** How many events at the front of the list are stamped at or before `now`. */
  function DueCount(pending: seq<Event>, now: nat): (n: nat)
    ensures n <= |pending|
  {
    if pending == [] || pending[0].sample > now then 0 else 1 + DueCount(pending[1..], now)
  }

  function Stamp(es: seq<Event>, now: nat): (r: seq<Applied>)
    ensures |r| == |es|
  {
    seq(|es|, i requires 0 <= i < |es| => Applied(Max(es[i].sample, now), es[i]))
  }

  function ApplyDue(s: RenderState): RenderState
  {
    var n := DueCount(s.pending, s.position);
    s.(pending := s.pending[n..], applied := s.applied + Stamp(s.pending[..n], s.position))
  }

  /** Renders `n` samples: before each, everything due is applied. */
  function Play(s: RenderState, n: nat): RenderState
    decreases n
  {
    if n == 0 then s
    else
      var t := Play(s, n - 1);
      ApplyDue(t).(position := t.position + 1)
  }

  /** One block: publish its start, pull what is waiting, play. */
  function Processed(s: RenderState, waiting: seq<Event>, n: nat): (RenderState, seq<Event>)
  {
    var (pending, rest) := Pull(s.pending, waiting);
    (Play(s.(pending := pending, published := s.position), n), rest)
  }

  // ---- Order ----

  ghost predicate Sorted(es: seq<Event>)
  {
    forall i, j :: 0 <= i < j < |es| ==> es[i].sample <= es[j].sample
  }

  lemma {:induction false} InsertKeeps(pending: seq<Event>, e: Event)
    ensures multiset(Insert(pending, e)) == multiset(pending) + multiset{e}
    ensures Sorted(pending) ==> Sorted(Insert(pending, e))
  {
    hide Sorted;
    if pending != [] && pending[|pending| - 1].sample > e.sample {
      var rest, last := pending[..|pending| - 1], pending[|pending| - 1];
      assert pending == rest + [last];
      InsertKeeps(rest, e);
      if Sorted(pending) {
        LastIsLatest(pending);
        InsertNotLater(rest, e, last.sample);
        AppendSorted(Insert(rest, e), last);
      }
    } else if Sorted(pending) {
      if pending != [] { LastIsLatest(pending); }
      AppendSorted(pending, e);
    }
  }

  lemma LastIsLatest(es: seq<Event>)
    requires Sorted(es) && es != []
    ensures Sorted(es[..|es| - 1]) && forall i :: 0 <= i < |es| ==> es[i].sample <= es[|es| - 1].sample
  {
  }

  lemma AppendSorted(es: seq<Event>, e: Event)
    requires Sorted(es) && forall i :: 0 <= i < |es| ==> es[i].sample <= e.sample
    ensures Sorted(es + [e])
  {
  }

  lemma {:induction false} InsertNotLater(es: seq<Event>, e: Event, bound: nat)
    requires e.sample <= bound && forall i :: 0 <= i < |es| ==> es[i].sample <= bound
    ensures forall i :: 0 <= i <= |es| ==> Insert(es, e)[i].sample <= bound
  {
    if es != [] && es[|es| - 1].sample > e.sample { InsertNotLater(es[..|es| - 1], e, bound); }
  }

  /** Inserting into a list whose first part is not later touches only the second part. */
  lemma {:induction false} InsertSkips(a: seq<Event>, b: seq<Event>, e: Event)
    requires forall i :: 0 <= i < |a| ==> a[i].sample <= e.sample
    ensures Insert(a + b, e) == a + Insert(b, e)
    decreases |b|
  {
    if b == [] {
      assert a + b == a;
    } else {
      var rest, last := b[..|b| - 1], b[|b| - 1];
      assert (a + b)[..|a + b| - 1] == a + rest;
      if last.sample > e.sample { InsertSkips(a, rest, e); }
    }
  }

  /** Inserts one event after the other: the stable sort by sample. */
  function InsertAll(pending: seq<Event>, es: seq<Event>): (r: seq<Event>)
    ensures |r| == |pending| + |es|
  {
    if es == [] then pending else Insert(InsertAll(pending, es[..|es| - 1]), es[|es| - 1])
  }

  /** The events of one sample, in order. */
  function AtSample(es: seq<Event>, sample: nat): seq<Event>
  {
    if es == [] then []
    else AtSample(es[..|es| - 1], sample) + if es[|es| - 1].sample == sample then [es[|es| - 1]] else []
  }

  lemma {:induction false} AtSampleConcat(a: seq<Event>, b: seq<Event>, sample: nat)
    ensures AtSample(a + b, sample) == AtSample(a, sample) + AtSample(b, sample)
    decreases |b|
  {
    if b == [] {
      assert a + b == a;
    } else {
      assert (a + b)[..|a + b| - 1] == a + b[..|b| - 1];
      AtSampleConcat(a, b[..|b| - 1], sample);
    }
  }

  lemma {:induction false} InsertIsStable(pending: seq<Event>, e: Event, sample: nat)
    ensures AtSample(Insert(pending, e), sample) == AtSample(pending, sample) + AtSample([e], sample)
  {
    hide AtSample;
    if pending == [] || pending[|pending| - 1].sample <= e.sample {
      AtSampleConcat(pending, [e], sample);
    } else {
      var rest, last := pending[..|pending| - 1], pending[|pending| - 1];
      assert pending == rest + [last];
      InsertIsStable(rest, e, sample);
      AtSampleConcat(Insert(rest, e), [last], sample);
      AtSampleConcat(rest, [last], sample);
      OneOrNone(last, e, sample);
    }
  }

  /** Events of different samples are not both at `sample`, so they may swap. */
  lemma OneOrNone(a: Event, b: Event, sample: nat)
    requires a.sample != b.sample
    ensures AtSample([a], sample) + AtSample([b], sample) == AtSample([b], sample) + AtSample([a], sample)
    ensures AtSample([a], sample) == [] || AtSample([b], sample) == []
  {
    assert [a][..0] == [] && [b][..0] == [];
  }

  /** `InsertAll` from an empty list is a stable sort: sorted, the same events, and events of
      one sample in their order of arrival. */
  lemma {:induction false} InsertAllSorts(es: seq<Event>, sample: nat)
    ensures Sorted(InsertAll([], es))
    ensures multiset(InsertAll([], es)) == multiset(es)
    ensures AtSample(InsertAll([], es), sample) == AtSample(es, sample)
  {
    if es != [] {
      var rest, last := es[..|es| - 1], es[|es| - 1];
      assert es == rest + [last];
      InsertAllSorts(rest, sample);
      InsertKeeps(InsertAll([], rest), last);
      InsertIsStable(InsertAll([], rest), last, sample);
      AtSampleConcat(rest, [last], sample);
    }
  }

  lemma {:induction false} InsertAllSkips(a: seq<Event>, b: seq<Event>, es: seq<Event>)
    requires forall i, k :: 0 <= i < |a| && 0 <= k < |es| ==> a[i].sample <= es[k].sample
    ensures InsertAll(a + b, es) == a + InsertAll(b, es)
    decreases |es|
  {
    if es != [] {
      InsertAllSkips(a, b, es[..|es| - 1]);
      InsertSkips(a, InsertAll(b, es[..|es| - 1]), es[|es| - 1]);
    }
  }

  lemma {:induction false} InsertAllConcat(pending: seq<Event>, x: seq<Event>, y: seq<Event>)
    ensures InsertAll(InsertAll(pending, x), y) == InsertAll(pending, x + y)
    decreases |y|
  {
    if y == [] {
      assert x + y == x;
    } else {
      assert (x + y)[..|x + y| - 1] == x + y[..|y| - 1];
      InsertAllConcat(pending, x, y[..|y| - 1]);
    }
  }

  lemma {:induction false} InsertAllKeeps(pending: seq<Event>, es: seq<Event>)
    requires Sorted(pending)
    ensures Sorted(InsertAll(pending, es))
    ensures multiset(InsertAll(pending, es)) == multiset(pending) + multiset(es)
  {
    if es != [] {
      assert es == es[..|es| - 1] + [es[|es| - 1]];
      InsertAllKeeps(pending, es[..|es| - 1]);
      InsertKeeps(InsertAll(pending, es[..|es| - 1]), es[|es| - 1]);
    }
  }

  /** With room for everything and no flush waiting, a pull is a plain sorted insertion. */
  lemma {:induction false} PullInserts(pending: seq<Event>, waiting: seq<Event>)
    requires |pending| + |waiting| <= PENDING_CAPACITY
    requires forall i :: 0 <= i < |waiting| ==> !waiting[i].kind.Flush?
    ensures Pull(pending, waiting) == (InsertAll(pending, waiting), [])
    decreases |waiting|
  {
    if waiting != [] {
      PullInserts(Insert(pending, waiting[0]), waiting[1..]);
      assert InsertAll(pending, [waiting[0]]) == Insert(pending, waiting[0]) by {
        assert [waiting[0]][..0] == [];
      }
      InsertAllConcat(pending, [waiting[0]], waiting[1..]);
      assert [waiting[0]] + waiting[1..] == waiting;
    }
  }

  /** How many events of a sorted list fall before `end`. */
  function Before(es: seq<Event>, end: nat): (n: nat)
    ensures n <= |es|
  {
    if end == 0 then 0 else DueCount(es, end - 1)
  }

  lemma {:induction false} DueCountSplits(es: seq<Event>, now: nat)
    ensures var n := DueCount(es, now);
            && (forall i :: 0 <= i < n ==> es[i].sample <= now)
            && (n < |es| ==> es[n].sample > now)
  {
    if es != [] && es[0].sample <= now {
      DueCountSplits(es[1..], now);
      assert forall i {:trigger es[i]} :: 1 <= i < |es| ==> es[i] == es[1..][i - 1];
    }
  }

  lemma BeforeSplits(es: seq<Event>, end: nat)
    ensures var n := Before(es, end);
            && (forall i :: 0 <= i < n ==> es[i].sample < end)
            && (n < |es| ==> es[n].sample >= end)
  {
    if end > 0 { DueCountSplits(es, end - 1); }
  }

  lemma DueCountUnique(es: seq<Event>, now: nat, n: nat)
    requires n <= |es|
    requires forall i :: 0 <= i < n ==> es[i].sample <= now
    requires n < |es| ==> es[n].sample > now
    ensures DueCount(es, now) == n
  {
    DueCountSplits(es, now);
  }

  lemma StampSplits(es: seq<Event>, k0: nat, k: nat, first: nat, now: nat)
    requires k0 <= k <= |es|
    requires forall i :: k0 <= i < k ==> Max(es[i].sample, first) == Max(es[i].sample, now)
    ensures Stamp(es[..k0], first) + Stamp(es[k0..k], now) == Stamp(es[..k], first)
  {
  }

  /** The state after a block of `n` samples: everything before its end is applied. */
  function Played(s: RenderState, n: nat): RenderState
  {
    var k := Before(s.pending, s.position + n);
    s.(position := s.position + n, pending := s.pending[k..],
       applied := s.applied + Stamp(s.pending[..k], s.position))
  }

  lemma BeforeGrows(es: seq<Event>, end: nat, i: nat)
    requires Sorted(es)
    ensures Before(es, end) <= Before(es, end + 1)
    ensures Before(es, end) <= i < Before(es, end + 1) ==> es[i].sample == end
  {
    var k0, k := Before(es, end), Before(es, end + 1);
    BeforeSplits(es, end);
    BeforeSplits(es, end + 1);
    if k0 <= i < k { assert es[k0].sample <= es[i].sample; }
  }

  lemma DueNext(es: seq<Event>, now: nat)
    requires Sorted(es)
    ensures var k0, k := Before(es, now), Before(es, now + 1);
            k0 <= k && DueCount(es[k0..], now) == k - k0
  {
    hide Before;
    BeforeGrows(es, now, 0);
    BeforeSplits(es, now + 1);
    var k0, k := Before(es, now), Before(es, now + 1);
    var rest := es[k0..];
    forall i | 0 <= i < k - k0
      ensures rest[i].sample <= now
    {
      BeforeGrows(es, now, k0 + i);
    }
    DueCountUnique(rest, now, k - k0);
  }

  lemma PlayedNext(s: RenderState, n: nat)
    requires Sorted(s.pending) && n >= 1
    ensures ApplyDue(Played(s, n)).(position := s.position + n + 1) == Played(s, n + 1)
  {
    hide Sorted, DueCount, Before, Stamp, ApplyDue, Played;
    var es, now := s.pending, s.position + n;
    var k0, k := Before(es, now), Before(es, now + 1);
    DueNext(es, now);
    forall i | k0 <= i < k
      ensures Max(es[i].sample, s.position) == Max(es[i].sample, now)
    {
      BeforeGrows(es, now, i);
    }
    StampSplits(es, k0, k, s.position, now);
    PlayedIs(s, n);
    PlayedIs(s, n + 1);
    ApplyDueFields(Played(s, n));
    RestOfRest(es, k0, k);
    Reassociate(s.applied, Stamp(es[..k0], s.position), Stamp(es[k0..k], now));
  }

  lemma PlayedIs(s: RenderState, n: nat)
    ensures var k := Before(s.pending, s.position + n);
            Played(s, n) == s.(position := s.position + n, pending := s.pending[k..],
                               applied := s.applied + Stamp(s.pending[..k], s.position))
  {
  }

  lemma RestOfRest(es: seq<Event>, k0: nat, k: nat)
    requires k0 <= k <= |es|
    ensures es[k0..][..k - k0] == es[k0..k] && es[k0..][k - k0..] == es[k..]
  {
  }

  lemma Reassociate(a: seq<Applied>, b: seq<Applied>, c: seq<Applied>)
    ensures (a + b) + c == a + (b + c)
  {
  }

  /** A block applies exactly the events before its end, in order: each on its own sample, or
      on the block's first sample if it arrived late. */
  lemma {:induction false} PlayApplies(s: RenderState, n: nat)
    requires Sorted(s.pending) && n >= 1
    ensures Play(s, n) == Played(s, n)
    decreases n
  {
    hide Sorted, ApplyDue, Played;
    PlayPosition(s, n - 1);
    if n == 1 {
      assert Play(s, 0) == s;
      PlayedFirst(s);
    } else {
      PlayApplies(s, n - 1);
      PlayedNext(s, n - 1);
    }
  }

  lemma PlayedFirst(s: RenderState)
    ensures ApplyDue(s).(position := s.position + 1) == Played(s, 1)
  {
  }

  lemma {:induction false} PlayPosition(s: RenderState, n: nat)
    ensures Play(s, n).position == s.position + n
  {
    hide Stamp, DueCount;
    if n > 0 { PlayPosition(s, n - 1); }
  }

  // ---- Flushes ----

  /** What is left to play of everything pushed: each flush erases the triggers at or after it
      that were pushed before it. */
  function Survivors(pushed: seq<Event>): seq<Event>
  {
    if pushed == [] then []
    else
      var before, e := Survivors(pushed[..|pushed| - 1]), pushed[|pushed| - 1];
      if e.kind.Flush? then FlushTriggers(before, e.sample) else before + [e]
  }

  function Events(applied: seq<Applied>): (r: seq<Event>)
    ensures |r| == |applied|
  {
    seq(|applied|, i requires 0 <= i < |applied| => applied[i].event)
  }

  lemma {:induction false} FlushCounts(es: seq<Event>, f: nat, e: Event)
    ensures multiset(FlushTriggers(es, f))[e] == if Kept(e, f) then multiset(es)[e] else 0
  {
    if es != [] {
      assert es == es[..|es| - 1] + [es[|es| - 1]];
      FlushCounts(es[..|es| - 1], f, e);
    }
  }

  /** A flush commutes with having applied part of the list, if nothing applied is due for it. */
  lemma FlushOfParts(pending: seq<Event>, done: seq<Event>, all: seq<Event>, f: nat)
    requires multiset(pending) + multiset(done) == multiset(all)
    requires forall e <- done :: Kept(e, f)
    ensures multiset(FlushTriggers(pending, f)) + multiset(done) == multiset(FlushTriggers(all, f))
  {
    forall e: Event
      ensures (multiset(FlushTriggers(pending, f)) + multiset(done))[e] == multiset(FlushTriggers(all, f))[e]
    {
      FlushCounts(pending, f, e);
      FlushCounts(all, f, e);
      assert (multiset(pending) + multiset(done))[e] == multiset(all)[e];
      if !Kept(e, f) { assert e !in done; }
    }
  }

  function Take(pending: seq<Event>, e: Event): seq<Event>
  {
    if e.kind.Flush? then FlushTriggers(pending, e.sample) else Insert(pending, e)
  }

  lemma TakeKeepsSurvivors(pending: seq<Event>, done: seq<Event>, taken: seq<Event>, e: Event)
    requires multiset(pending) + multiset(done) == multiset(Survivors(taken))
    requires e.kind.Flush? ==> AllKept(done, e.sample)
    ensures multiset(Take(pending, e)) + multiset(done) == multiset(Survivors(taken + [e]))
  {
    hide Insert, FlushTriggers, Kept;
    assert (taken + [e])[..|taken|] == taken;
    if e.kind.Flush? {
      FlushOfParts(pending, done, Survivors(taken), e.sample);
    } else {
      InsertKeeps(pending, e);
    }
  }

  ghost predicate AllKept(done: seq<Event>, f: nat) { forall d <- done :: Kept(d, f) }

  /** No flush waiting asks back anything already applied. */
  ghost predicate FlushesSpare(waiting: seq<Event>, done: seq<Event>)
  {
    forall i :: 0 <= i < |waiting| && waiting[i].kind.Flush? ==> AllKept(done, waiting[i].sample)
  }

  lemma SpareFirst(waiting: seq<Event>, done: seq<Event>)
    requires FlushesSpare(waiting, done) && waiting != []
    ensures waiting[0].kind.Flush? ==> AllKept(done, waiting[0].sample)
    ensures FlushesSpare(waiting[1..], done)
  {
    hide AllKept;
  }

  /** However much a pull takes, the pending and the applied events are exactly the survivors
      of what it and the pulls before it took, as long as no flush taken asks back something
      already applied. */
  lemma {:induction false} PullKeepsSurvivors(
    pending: seq<Event>, done: seq<Event>, taken: seq<Event>, waiting: seq<Event>)
    requires multiset(pending) + multiset(done) == multiset(Survivors(taken)) && FlushesSpare(waiting, done)
    ensures var (pending', rest) := Pull(pending, waiting);
            multiset(pending') + multiset(done) == multiset(Survivors(taken + waiting[..|waiting| - |rest|]))
    decreases |waiting|
  {
    hide Insert, FlushTriggers, AllKept, Survivors, Pull, FlushesSpare, Take;
    PullNext(pending, waiting);
    if waiting == [] || |pending| >= PENDING_CAPACITY {
      assert taken + waiting[..0] == taken;
    } else {
      var e, later := waiting[0], waiting[1..];
      var pending1 := Take(pending, e);
      SpareFirst(waiting, done);
      TakeIs(pending, e);
      TakeKeepsSurvivors(pending, done, taken, e);
      PullKeepsSurvivors(pending1, done, taken + [e], later);
      var n := |later| - |Pull(pending1, later).1|;
      assert Pull(pending, waiting) == Pull(pending1, later);
      assert taken + waiting[..n + 1] == taken + [e] + later[..n] by { TakenMore(taken, waiting, n); }
    }
  }

  /** The same for everything that waits, were there room. */
  lemma {:induction false} TakeAllKeepsSurvivors(
    pending: seq<Event>, done: seq<Event>, taken: seq<Event>, waiting: seq<Event>)
    requires multiset(pending) + multiset(done) == multiset(Survivors(taken)) && FlushesSpare(waiting, done)
    ensures multiset(TakeAll(pending, waiting)) + multiset(done) == multiset(Survivors(taken + waiting))
    decreases |waiting|
  {
    hide Insert, FlushTriggers, AllKept, Survivors, FlushesSpare, Take;
    if waiting == [] {
      assert taken + waiting == taken;
    } else {
      SpareFirst(waiting, done);
      TakeKeepsSurvivors(pending, done, taken, waiting[0]);
      TakeAllKeepsSurvivors(Take(pending, waiting[0]), done, taken + [waiting[0]], waiting[1..]);
      assert taken + [waiting[0]] + waiting[1..] == taken + waiting;
    }
  }

  lemma {:induction false} TakeAllEvents(pending: seq<Event>, waiting: seq<Event>)
    requires NoFlush(waiting)
    ensures multiset(TakeAll(pending, waiting)) == multiset(pending) + multiset(waiting)
    decreases |waiting|
  {
    hide Insert;
    if waiting != [] {
      assert waiting[0] in waiting;
      InsertKeeps(pending, waiting[0]);
      TakeAllEvents(Insert(pending, waiting[0]), waiting[1..]);
      assert waiting == [waiting[0]] + waiting[1..];
    }
  }

  lemma TakeIs(pending: seq<Event>, e: Event)
    ensures Take(pending, e) == if e.kind.Flush? then FlushTriggers(pending, e.sample) else Insert(pending, e)
  {
  }

  lemma TakenMore(taken: seq<Event>, waiting: seq<Event>, n: nat)
    requires n < |waiting|
    ensures taken + waiting[..n + 1] == taken + [waiting[0]] + waiting[1..][..n]
  {
  }

  /** Pulling keeps the list sorted. */
  lemma {:induction false} FlushKeepsSorted(es: seq<Event>, f: nat)
    requires Sorted(es)
    ensures Sorted(FlushTriggers(es, f))
    ensures forall e <- FlushTriggers(es, f) :: e in es && Kept(e, f)
  {
    if es != [] {
      FlushKeepsSorted(es[..|es| - 1], f);
      var kept := FlushTriggers(es[..|es| - 1], f);
      forall i | 0 <= i < |kept|
        ensures kept[i].sample <= es[|es| - 1].sample
      {
        assert kept[i] in es[..|es| - 1];
      }
    }
  }

  lemma {:induction false} PullKeepsSorted(pending: seq<Event>, waiting: seq<Event>)
    requires Sorted(pending)
    ensures Sorted(Pull(pending, waiting).0)
    decreases |waiting|
  {
    if waiting != [] && |pending| < PENDING_CAPACITY {
      if waiting[0].kind.Flush? {
        FlushKeepsSorted(pending, waiting[0].sample);
        PullKeepsSorted(FlushTriggers(pending, waiting[0].sample), waiting[1..]);
      } else {
        InsertKeeps(pending, waiting[0]);
        PullKeepsSorted(Insert(pending, waiting[0]), waiting[1..]);
      }
    }
  }

  lemma InsertOneUp(es: seq<Event>, i: nat, e: Event)
    requires 0 < i <= |es| && es[i - 1].sample > e.sample
    ensures Insert(es[..i], e) == Insert(es[..i - 1], e) + [es[i - 1]]
  {
    assert es[..i][..i - 1] == es[..i - 1];
  }

  lemma InsertHere(es: seq<Event>, e: Event)
    requires es == [] || es[|es| - 1].sample <= e.sample
    ensures Insert(es, e) == es + [e]
  {
  }

  lemma ApplyDueFields(s: RenderState)
    ensures var n, t := DueCount(s.pending, s.position), ApplyDue(s);
            && t.pending == s.pending[n..] && t.applied == s.applied + Stamp(s.pending[..n], s.position)
            && t.position == s.position && t.published == s.published
  {
  }

  // ---- When a flush is left behind ----

  ghost predicate NoFlush(es: seq<Event>) { forall w <- es :: !w.kind.Flush? }

  /** The list after taking `es` one by one, were there no end to its room. */
  function TakeAll(pending: seq<Event>, es: seq<Event>): seq<Event>
    decreases |es|
  {
    if es == [] then pending else TakeAll(Take(pending, es[0]), es[1..])
  }

  /** Some waiting flush finds the list full when its turn comes. */
  ghost predicate FlushFindsFull(pending: seq<Event>, waiting: seq<Event>)
  {
    exists k :: 0 <= k < |waiting| && waiting[k].kind.Flush? && |TakeAll(pending, waiting[..k])| >= PENDING_CAPACITY
  }

  lemma {:induction false} TakeAllGrows(pending: seq<Event>, es: seq<Event>)
    requires NoFlush(es)
    ensures |TakeAll(pending, es)| == |pending| + |es|
    decreases |es|
  {
    hide Insert;
    if es != [] {
      assert es[0] in es;
      TakeAllGrows(Take(pending, es[0]), es[1..]);
    }
  }

  lemma TakeAllFirst(pending: seq<Event>, waiting: seq<Event>, k: nat)
    requires 1 <= k <= |waiting|
    ensures TakeAll(pending, waiting[..k]) == TakeAll(Take(pending, waiting[0]), waiting[1..][..k - 1])
  {
    assert waiting[..k][1..] == waiting[1..][..k - 1];
  }

  lemma {:induction false} FirstFlush(waiting: seq<Event>) returns (k: nat)
    requires !NoFlush(waiting)
    ensures k < |waiting| && waiting[k].kind.Flush? && NoFlush(waiting[..k])
    decreases |waiting|
  {
    k := 0;
    if !waiting[0].kind.Flush? {
      var i := FirstFlush(waiting[1..]);
      k := i + 1;
      assert waiting[..k] == [waiting[0]] + waiting[1..][..i];
    }
  }

  lemma FullLeavesFlush(pending: seq<Event>, waiting: seq<Event>)
    requires |pending| >= PENDING_CAPACITY
    ensures FlushFindsFull(pending, waiting) <==> !NoFlush(waiting)
  {
    if !NoFlush(waiting) {
      var k := FirstFlush(waiting);
      TakeAllGrows(pending, waiting[..k]);
    }
  }

  lemma FindsFullLater(pending: seq<Event>, waiting: seq<Event>)
    requires waiting != [] && |pending| < PENDING_CAPACITY
    ensures FlushFindsFull(pending, waiting) <==> FlushFindsFull(Take(pending, waiting[0]), waiting[1..])
  {
    hide Take, TakeAll;
    var next, later := Take(pending, waiting[0]), waiting[1..];
    if FlushFindsFull(pending, waiting) {
      var k :| 0 <= k < |waiting| && waiting[k].kind.Flush? && |TakeAll(pending, waiting[..k])| >= PENDING_CAPACITY;
      if k == 0 { TakesNothing(pending, waiting); }
      TakeAllFirst(pending, waiting, k);
      assert later[k - 1].kind.Flush?;
    }
    if FlushFindsFull(next, later) {
      var k :| 0 <= k < |later| && later[k].kind.Flush? && |TakeAll(next, later[..k])| >= PENDING_CAPACITY;
      TakeAllFirst(pending, waiting, k + 1);
      assert waiting[k + 1].kind.Flush?;
    }
  }

  lemma TakesNothing(pending: seq<Event>, waiting: seq<Event>)
    ensures TakeAll(pending, waiting[..0]) == pending
  {
  }

  /** A pull leaves a flush in the queue exactly if some flush finds the list at 256 when its
      turn comes. */
  lemma {:induction false} PullLeavesFlush(pending: seq<Event>, waiting: seq<Event>)
    ensures !NoFlush(Pull(pending, waiting).1) <==> FlushFindsFull(pending, waiting)
    decreases |waiting|
  {
    hide FlushFindsFull, Take, Pull;
    PullNext(pending, waiting);
    if waiting == [] {
      assert !FlushFindsFull(pending, waiting) by { NothingFindsFull(pending); }
    } else if |pending| >= PENDING_CAPACITY {
      FullLeavesFlush(pending, waiting);
    } else {
      TakeIs(pending, waiting[0]);
      FindsFullLater(pending, waiting);
      PullLeavesFlush(Take(pending, waiting[0]), waiting[1..]);
    }
  }

  lemma NothingFindsFull(pending: seq<Event>)
    ensures !FlushFindsFull(pending, [])
  {
  }

  /** A flush left behind is missed if a trigger it should take back is held, and due before `end`. */
  ghost predicate MissesFlush(pending: seq<Event>, waiting: seq<Event>, end: nat)
  {
    var (held, rest) := Pull(pending, waiting);
    exists k, t :: 0 <= k < |rest| && rest[k].kind.Flush? && t in held && !Kept(t, rest[k].sample) && t.sample < end
  }

  lemma {:induction false} SurvivorsBeforeFlush(pushed: seq<Event>, k: nat, t: Event)
    requires k < |pushed| && pushed[k].kind.Flush? && !Kept(t, pushed[k].sample)
    ensures t !in Survivors(pushed[..k + 1])
  {
    assert pushed[..k + 1][..k] == pushed[..k];
    FlushCounts(Survivors(pushed[..k]), pushed[k].sample, t);
    assert multiset(Survivors(pushed[..k + 1]))[t] == 0;
  }

  // ---- The same, on the fixed array ----

  lemma NothingMoved(before: seq<Event>, e: Event)
    ensures Insert(before, e) == Insert(before[..|before|], e) + []
  {
    assert before[..|before|] == before;
  }

  lemma FlushOfNothing(sample: nat)
    ensures FlushTriggers([], sample) == []
  {
  }

  lemma FlushNext(es: seq<Event>, i: nat, sample: nat)
    requires i < |es|
    ensures FlushTriggers(es[..i + 1], sample)
            == FlushTriggers(es[..i], sample) + if Kept(es[i], sample) then [es[i]] else []
  {
    assert es[..i + 1][..i] == es[..i];
  }

  lemma PullNext(pending: seq<Event>, waiting: seq<Event>)
    ensures Pull(pending, waiting)
            == if waiting == [] || |pending| >= PENDING_CAPACITY then (pending, waiting)
               else if waiting[0].kind.Flush? then Pull(FlushTriggers(pending, waiting[0].sample), waiting[1..])
               else Pull(Insert(pending, waiting[0]), waiting[1..])
  {
  }

  lemma NothingPlayed(s: RenderState)
    ensures Play(s, 0) == s
  {
  }

  lemma PlayNext(s: RenderState, n: nat)
    ensures Play(s, n + 1) == ApplyDue(Play(s, n)).(position := Play(s, n).position + 1)
  {
    hide ApplyDue;
  }

  lemma PullFull(pending: seq<Event>, waiting: seq<Event>)
    requires |pending| >= PENDING_CAPACITY
    ensures Pull(pending, waiting) == (pending, waiting)
  {
  }

  lemma StampNothing(now: nat)
    ensures Stamp([], now) == []
  {
  }

  lemma StampNext(es: seq<Event>, i: nat, now: nat)
    requires i < |es|
    ensures Stamp(es[..i + 1], now) == Stamp(es[..i], now) + [Applied(Max(es[i].sample, now), es[i])]
  {
  }

  class Renderer {
    var position: nat
    var pending: array<Event>
    var pendingLen: nat
    var published: nat
    var applied: seq<Applied>
    const consumer: EventQueue

    ghost predicate Valid()
      reads this, consumer
    {
      pending.Length == PENDING_CAPACITY && pendingLen <= PENDING_CAPACITY && consumer.Value().Valid()
    }

    ghost function Value(): RenderState
      reads this, pending
      requires pendingLen <= pending.Length
    {
      RenderState(position, pending[..pendingLen], applied, published)
    }

    constructor (consumer: EventQueue)
      requires consumer.Value().Valid()
      ensures Valid() && fresh(pending) && Value() == RenderState(0, [], [], 0) && this.consumer == consumer
    {
      this.consumer := consumer;
      position, pendingLen, published, applied := 0, 0, 0, [];
      pending := new Event[PENDING_CAPACITY](_ => Event(0, Flush));
    }

    /** One block: announce it, pull, play. */
    method Process(n: nat)
      requires Valid()
      modifies this, pending, consumer
      ensures Valid() && pending == old(pending)
      ensures (Value(), consumer.Value().Waiting()) == old(Processed(Value(), consumer.Value().Waiting(), n))
      ensures consumer.pushed == old(consumer.pushed) && consumer.pops == old(consumer.pops)
      ensures position == old(position) + n
    {
      hide Pull, Play;
      ghost var start, waiting := Value(), consumer.Value().Waiting();
      published := position;
      PullEvents();
      ghost var pulled := Pull(start.pending, waiting);
      assert Value() == start.(pending := pulled.0, published := start.position);
      PlayPosition(Value(), n);
      PlayBlock(n);
    }

    /** Every sample of the block: what is due on it is applied before it sounds. */
    method PlayBlock(n: nat)
      requires Valid()
      modifies this`position, this`pendingLen, this`applied, pending
      ensures Valid() && Value() == Play(old(Value()), n)
    {
      hide ApplyDue, DueCount, Stamp, Play;
      ghost var start := Value();
      ghost var sim := start;
      var blockStart := position;
      NothingPlayed(start);
      for i := 0 to n
        invariant Valid() && position == blockStart && published == start.published
        invariant sim == Play(start, i) && sim.position == blockStart + i && sim.published == start.published
        invariant pending[..pendingLen] == sim.pending && applied == sim.applied
      {
        ApplyDueFields(sim);
        PlayNext(start, i);
        ApplyDueEvents(blockStart + i);
        sim := Play(start, i + 1);
      }
      position := blockStart + n;
    }

    method PullEvents()
      requires Valid()
      modifies this`pendingLen, pending, consumer
      ensures Valid() && pending == old(pending) && consumer.pushed == old(consumer.pushed)
      ensures consumer.pops == old(consumer.pops)
      ensures (pending[..pendingLen], consumer.Value().Waiting())
              == old(Pull(pending[..pendingLen], consumer.Value().Waiting()))
    {
      hide Pull, Insert, FlushTriggers;
      ghost var held, waiting := pending[..pendingLen], consumer.Value().Waiting();
      ghost var outcome := Pull(held, waiting);
      while pendingLen < PENDING_CAPACITY
        invariant Valid() && pending == old(pending) && consumer.pushed == old(consumer.pushed)
        invariant consumer.pops == old(consumer.pops)
        invariant held == pending[..pendingLen] && waiting == consumer.Value().Waiting()
        invariant outcome == Pull(held, waiting)
        decreases |waiting|
      {
        PullNext(held, waiting);
        var event := consumer.Pop();
        if event == None { return; }
        if event.value.kind.Flush? {
          FlushFrom(event.value.sample);
        } else {
          InsertSorted(event.value);
        }
        held, waiting := pending[..pendingLen], consumer.Value().Waiting();
      }
      PullFull(held, waiting);
    }

    method InsertSorted(e: Event)
      requires Valid() && pendingLen < PENDING_CAPACITY
      modifies this`pendingLen, pending
      ensures Valid() && pending[..pendingLen] == Insert(old(pending[..pendingLen]), e)
    {
      hide Insert;
      InsertIn(pending, pendingLen, e);
      pendingLen := pendingLen + 1;
    }

    /** Finds the place from the newest event down. */
    static method InsertIn(list: array<Event>, len: nat, e: Event)
      requires len < list.Length
      modifies list
      ensures list[..len + 1] == Insert(old(list[..len]), e)
    {
      hide Insert;
      ghost var before := list[..len];
      ghost var moved: seq<Event> := [];
      var i := len;
      NothingMoved(before, e);
      while i > 0 && list[i - 1].sample > e.sample
        invariant i <= len && |moved| == len - i
        invariant forall k :: 0 <= k < i ==> list[k] == before[k]
        invariant forall k :: i < k <= len ==> list[k] == moved[k - i - 1]
        invariant Insert(before, e) == Insert(before[..i], e) + moved
      {
        InsertOneUp(before, i, e);
        moved := [before[i - 1]] + moved;
        list[i] := list[i - 1];
        i := i - 1;
      }
      InsertHere(before[..i], e);
      list[i] := e;
      assert list[..len + 1] == before[..i] + [e] + moved;
    }

    method FlushFrom(sample: nat)
      requires Valid()
      modifies this`pendingLen, pending
      ensures Valid() && pending[..pendingLen] == FlushTriggers(old(pending[..pendingLen]), sample)
    {
      pendingLen := KeepIn(pending, pendingLen, sample);
    }

    /** Drops the triggers at or after `sample`, moving the rest up. */
    static method KeepIn(list: array<Event>, len: nat, sample: nat) returns (kept: nat)
      requires len <= list.Length
      modifies list
      ensures kept <= len && list[..kept] == FlushTriggers(old(list[..len]), sample)
    {
      hide FlushTriggers, Kept;
      ghost var before := list[..len];
      ghost var left: seq<Event> := [];
      kept := 0;
      FlushOfNothing(sample);
      for i := 0 to len
        invariant kept <= i && left == FlushTriggers(before[..i], sample) && |left| == kept
        invariant forall k :: 0 <= k < kept ==> list[k] == left[k]
        invariant forall k :: i <= k < len ==> list[k] == before[k]
      {
        var e := list[i];
        FlushNext(before, i, sample);
        if Kept(e, sample) {
          left := left + [e];
          list[kept] := e;
          kept := kept + 1;
        }
      }
      assert before[..len] == before;
      assert list[..kept] == left;
    }

    method ApplyDueEvents(now: nat)
      requires Valid()
      modifies this`pendingLen, this`applied, pending
      ensures Valid()
      ensures var before := old(pending[..pendingLen]);
              var n := DueCount(before, now);
              pending[..pendingLen] == before[n..] && applied == old(applied) + Stamp(before[..n], now)
    {
      hide DueCount, Stamp;
      ghost var es := pending[..pendingLen];
      var consumed := 0;
      StampNothing(now);
      while consumed < pendingLen && pending[consumed].sample <= now
        invariant Valid() && pendingLen == old(pendingLen) && consumed <= pendingLen && pending[..pendingLen] == es
        invariant applied == old(applied) + Stamp(es[..consumed], now)
        invariant forall k :: 0 <= k < consumed ==> es[k].sample <= now
      {
        StampNext(es, consumed, now);
        applied := applied + [Applied(now, pending[consumed])];
        consumed := consumed + 1;
      }
      DueCountUnique(es, now, consumed);
      if consumed > 0 {
        CopyDown(pending, consumed, pendingLen);
        pendingLen := pendingLen - consumed;
      }
    }

    /** Moves the entries from `start` on to the front. */
    static method CopyDown(list: array<Event>, start: nat, len: nat)
      requires start <= len <= list.Length
      modifies list
      ensures list[..len - start] == old(list[start..len])
    {
      ghost var tail := list[start..len];
      for k := 0 to len - start
        invariant forall i :: 0 <= i < k ==> list[i] == tail[i]
        invariant forall i :: k <= i < len - start ==> list[start + i] == tail[i]
      {
        list[k] := list[start + k];
      }
    }
  }
}
