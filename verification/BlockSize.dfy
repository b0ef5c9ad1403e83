/** What is heard does not depend on the block size. */
module BlockSizes {
  import opened Numbers
  import opened Clock
  import opened Pattern
  import opened Scheduling
  import opened Rendering
  import opened Controlling
  import opened Engines

  // ---- Counting the events before a sample ----

  function CountBefore(es: seq<Event>, end: nat): (n: nat)
    ensures n <= |es|
  {
    if es == [] then 0
    else CountBefore(es[..|es| - 1], end) + if es[|es| - 1].sample < end then 1 else 0
  }

  lemma {:induction false} CountConcat(a: seq<Event>, b: seq<Event>, end: nat)
    ensures CountBefore(a + b, end) == CountBefore(a, end) + CountBefore(b, end)
    decreases |b|
  {
    if b == [] {
      assert a + b == a;
    } else {
      assert (a + b)[..|a + b| - 1] == a + b[..|b| - 1];
      CountConcat(a, b[..|b| - 1], end);
    }
  }

  lemma {:induction false} CountInsert(pending: seq<Event>, e: Event, end: nat)
    ensures CountBefore(Insert(pending, e), end) == CountBefore(pending, end) + CountBefore([e], end)
  {
    if pending == [] || pending[|pending| - 1].sample <= e.sample {
      CountConcat(pending, [e], end);
    } else {
      var rest, last := pending[..|pending| - 1], pending[|pending| - 1];
      assert pending == rest + [last];
      CountInsert(rest, e, end);
      CountConcat(Insert(rest, e), [last], end);
      CountConcat(rest, [last], end);
    }
  }

  lemma {:induction false} CountInsertAll(pending: seq<Event>, es: seq<Event>, end: nat)
    ensures CountBefore(InsertAll(pending, es), end) == CountBefore(pending, end) + CountBefore(es, end)
    decreases |es|
  {
    if es != [] {
      var rest, last := es[..|es| - 1], es[|es| - 1];
      assert es == rest + [last];
      CountInsertAll(pending, rest, end);
      CountInsert(InsertAll(pending, rest), last, end);
      CountConcat(rest, [last], end);
    }
  }

  lemma {:induction false} CountAll(es: seq<Event>, end: nat)
    ensures (forall e <- es :: e.sample < end) ==> CountBefore(es, end) == |es|
    ensures (forall e <- es :: e.sample >= end) ==> CountBefore(es, end) == 0
  {
    if es != [] {
      assert es[|es| - 1] in es;
      CountAll(es[..|es| - 1], end);
    }
  }

  lemma CountSorted(es: seq<Event>, end: nat)
    requires Sorted(es)
    ensures Before(es, end) == CountBefore(es, end)
  {
    var n := Before(es, end);
    BeforeSplits(es, end);
    hide Before;
    var low, high := es[..n], es[n..];
    assert es == low + high;
    CountConcat(low, high, end);
    forall e | e in high
      ensures e.sample >= end
    {
      var i :| 0 <= i < |high| && high[i] == e;
      assert es[n].sample <= es[n + i].sample;
    }
    CountAll(low, end);
    CountAll(high, end);
  }

  // ---- The ideal performance ----

  /** One past the last step with a grid hit before `end`, in a run from step `first` that ends
      at `stopAt`. */
  function StepsBefore(p: Pattern, c: AdjustedClock, first: nat, stopAt: Option<nat>, end: nat): (n: nat)
    requires c.Valid()
    ensures n >= first
  {
    var n := Walk(p, c, end, first);
    if stopAt.Some? && stopAt.value < n then Max(first, stopAt.value) else n
  }

  /** Every event of the run's steps with a grid hit before `end`, stably sorted by sample. */
  function SortedStream(p: Pattern, c: AdjustedClock, first: nat, stopAt: Option<nat>, end: nat): seq<Event>
    requires p.Valid() && c.Valid()
  {
    InsertAll([], Stream(p, c, first, StepsBefore(p, c, first, stopAt, end)))
  }

  /** What is heard between `start` and `end`: the sorted stream's events before `end` (a grace
      note reaches at most a flam spacing back, so steps a flam spacing past `end` suffice),
      each on its own sample, or on `start` if it lies before. */
  function Performance(p: Pattern, c: AdjustedClock, first: nat, stopAt: Option<nat>, start: nat,
                       end: nat): seq<Applied>
    requires p.Valid() && c.Valid()
  {
    var stream := SortedStream(p, c, first, stopAt, end + FlamSamples(p, c));
    Stamp(stream[..Before(stream, end)], start)
  }

  lemma StepsBeforeMonotone(p: Pattern, c: AdjustedClock, first: nat, stopAt: Option<nat>, a: nat, b: nat)
    requires c.Valid() && a <= b
    ensures StepsBefore(p, c, first, stopAt, a) <= StepsBefore(p, c, first, stopAt, b)
    ensures forall k :: StepsBefore(p, c, first, stopAt, a) <= k < StepsBefore(p, c, first, stopAt, b) ==>
              a <= StepSample(p, c, k) < b
  {
    hide StepSample;
    var m, n := Walk(p, c, a, first), Walk(p, c, b, first);
    forall k | m <= k < n
      ensures StepSample(p, c, k) >= a
    {
      WalkStops(p, c, a, first, k);
    }
  }

  /** On a clock whose steps keep their order, everything from the found step on is late enough. */
  lemma WalkStops(p: Pattern, c: AdjustedClock, sample: nat, first: nat, k: nat)
    requires c.Valid() && k >= Walk(p, c, sample, first)
    ensures StepSample(p, c, k) >= sample
  {
    var m := Walk(p, c, sample, first);
    if m < k { StepsInOrder(p, c, m, k); }
  }

  lemma StepsInOrder(p: Pattern, c: AdjustedClock, a: nat, b: nat)
    requires c.Valid() && a < b
    ensures StepSample(p, c, a) <= StepSample(p, c, b)
  {
    StepBeatIncreasing(p, a, b);
    ClockIncreasing(c, p.StepBeat(a), p.StepBeat(b));
    RoundMonotone(c.SampleAtBeat(p.StepBeat(a)), c.SampleAtBeat(p.StepBeat(b)));
  }

  /** Events of later steps never sound more than a flam spacing before their grid hits. */
  lemma {:induction false} StreamIsLate(p: Pattern, c: AdjustedClock, first: nat, end: nat, sample: nat)
    requires p.Valid() && c.Valid() && first <= end
    requires forall k :: first <= k < end ==> StepSample(p, c, k) >= sample
    ensures forall e <- Stream(p, c, first, end) :: e.sample + FlamSamples(p, c) >= sample
    decreases end
  {
    hide StepSample, StepEvents, FlamSamples;
    if first < end {
      StreamIsLate(p, c, first, end - 1, sample);
      StepEventsInSpan(p, c, end - 1);
    }
  }

  lemma {:induction false} StreamIsEarly(p: Pattern, c: AdjustedClock, first: nat, end: nat, sample: nat)
    requires p.Valid() && c.Valid() && first <= end
    requires forall k :: first <= k < end ==> StepSample(p, c, k) < sample
    ensures forall e <- Stream(p, c, first, end) :: e.sample < sample
    decreases end
  {
    hide StepSample, StepEvents, FlamSamples;
    if first < end {
      StreamIsEarly(p, c, first, end - 1, sample);
      StepEventsInSpan(p, c, end - 1);
    }
  }

  lemma {:induction false} StreamIsShort(p: Pattern, c: AdjustedClock, first: nat, end: nat)
    requires p.Valid() && c.Valid() && first <= end
    ensures |Stream(p, c, first, end)| <= STEP_SLOTS * (end - first)
    decreases end
  {
    hide StepSample, StepEvents, FlamSamples;
    if first < end {
      StreamIsShort(p, c, first, end - 1);
      StepEventsInSpan(p, c, end - 1);
    }
  }

  /** Looking further ahead changes nothing that is already settled: the sorted stream up to a
      later horizon starts with the same events before `heard`. */
  lemma StreamExtends(p: Pattern, c: AdjustedClock, first: nat, stopAt: Option<nat>, heard: nat, a: nat, b: nat)
    requires p.Valid() && c.Valid() && a <= b && heard + FlamSamples(p, c) <= a
    ensures var more := Stream(p, c, StepsBefore(p, c, first, stopAt, a), StepsBefore(p, c, first, stopAt, b));
            var x, y := SortedStream(p, c, first, stopAt, a), SortedStream(p, c, first, stopAt, b);
            var k := Before(x, heard);
            && StepsBefore(p, c, first, stopAt, a) <= StepsBefore(p, c, first, stopAt, b)
            && k == Before(y, heard) && y == x[..k] + InsertAll(x[k..], more)
            && x[..k] == y[..k]
  {
    hide StepSample, StepEvents, FlamSamples, StepsBefore;
    var m, n := StepsBefore(p, c, first, stopAt, a), StepsBefore(p, c, first, stopAt, b);
    StepsBeforeMonotone(p, c, first, stopAt, a, b);
    var early, more := Stream(p, c, first, m), Stream(p, c, m, n);
    StreamSplits(p, c, first, m, n);
    StreamIsLate(p, c, m, n, a);
    var x, y := SortedStream(p, c, first, stopAt, a), SortedStream(p, c, first, stopAt, b);
    InsertAllConcat([], early, more);
    assert y == InsertAll(x, more);
    var k := Before(x, heard);
    BeforeSplits(x, heard);
    assert x == x[..k] + x[k..];
    InsertAllSkips(x[..k], x[k..], more);
    InsertAllSorts(early, 0);
    InsertAllSorts(early + more, 0);
    CountSorted(x, heard);
    CountSorted(y, heard);
    CountInsertAll(x, more, heard);
    CountAll(more, heard);
  }

  // ---- A run of renders on a steady internal clock ----

  /** How many events `n` steps from `first` on have. */
  function EventsIn(c: ControlState, first: nat, n: nat): nat
    requires c.Valid()
  {
    |Stream(c.Pattern(), c.Adjusted(), first, first + n)|
  }

  /** The lookahead spans at most `n` steps, and no `n` steps in a row have more events than the
      renderer's list has room for. */
  ghost predicate Roomy(c: ControlState, n: nat)
    requires c.Valid()
  {
    && n % 2 == 0 && c.lookahead as real + 1.0 <= n as real * BEATS_PER_STEP * c.internal.SamplesPerBeat()
    && forall k: nat :: EventsIn(c, k, n) <= PENDING_CAPACITY
  }

  /** Three beats of lookahead are roomy whatever the pattern: twelve steps have at most 240 events. */
  lemma ThreeBeatsAreRoomy(c: ControlState)
    requires c.Valid() && c.lookahead as real + 1.0 <= 3.0 * c.internal.SamplesPerBeat()
    ensures Roomy(c, 12)
  {
    hide Stream, Line.SamplesPerBeat;
    forall k: nat
      ensures EventsIn(c, k, 12) <= PENDING_CAPACITY
    {
      StreamIsShort(c.Pattern(), c.Adjusted(), k, k + 12);
    }
  }

  /** About to play: the clock free-runs, nothing is queued or held, the next step lies ahead,
      and there is room for what the lookahead spans. */
  ghost predicate Poised(e: Engine)
  {
    && e.Valid() && e.control.mode == FreeRunning && e.control.pendingFlush == None
    && e.control.queue.capacity == EVENT_QUEUE_CAPACITY && e.control.queue.Waiting() == []
    && e.renderer.pending == []
    && e.control.scheduler.playing
    && e.control.Adjusted().SampleAtBeat(e.control.Pattern().StepBeat(e.control.scheduler.nextStep))
       >= e.renderer.position as real
    && exists n: nat :: Roomy(e.control, n)
  }

  /** A start from rest poises the engine: step 0 is due exactly where it was started. */
  lemma StartIsPoised(e: Engine, n: nat)
    requires e.Valid() && e.control.mode == FreeRunning && e.control.pendingFlush == None && e.control.log == []
    requires e.control.queue.capacity == EVENT_QUEUE_CAPACITY && e.control.queue.Waiting() == []
    requires e.renderer.pending == [] && e.control.internal.sampleRate == e.control.sampleRate
    requires || e.renderer.published < e.renderer.position
             || (e.renderer.position == e.renderer.published && e.control.renderBlock == 0)
    requires Roomy(e.control, n)
    requires e.control.published <= e.renderer.published && (e.control.renderBlock == 0 ==> e.control.published == 0)
    ensures Poised(After(e, Start)) && After(e, Start).renderer == e.renderer
  {
    hide StepSample, Roomy;
    var c, now := e.control, e.renderer.position;
    var c1 := Controlling.CommitPoint(c, e.renderer.published, now).0;
    assert Controlling.CommitPoint(c, e.renderer.published, now).1 == now;
    assert DropQueuedFrom(c1, now) == (c1, c1.scheduler.nextStep);
    RestartPutsStepZero(c1, now);
    RestartValid(c1, now);
    AfterValid(e, Start);
    assert c.Pattern().StepBeat(0) == 0.0;
    RoomySame(c, After(e, Start).control, n);
  }

  /** Room does not depend on where the clock is anchored. */
  lemma RoomySame(c: ControlState, c': ControlState, n: nat)
    requires c.Valid() && c'.Valid() && Roomy(c, n) && c'.lookahead == c.lookahead && c'.Pattern() == c.Pattern()
    requires c'.internal.bpm == c.internal.bpm && c'.internal.sampleRate == c.internal.sampleRate
    ensures Roomy(c', n)
  {
    assert c'.internal.SamplesPerBeat() == c.internal.SamplesPerBeat();
    hide Stream, Line.SamplesPerBeat;
    forall k: nat
      ensures EventsIn(c', k, n) <= PENDING_CAPACITY
    {
      assert EventsIn(c, k, n) <= PENDING_CAPACITY;
      StreamLength(c.Pattern(), c.Adjusted(), c'.Adjusted(), k, k + n);
    }
  }

  lemma {:induction false} StreamLength(p: Pattern, c: AdjustedClock, c': AdjustedClock, first: nat, end: nat)
    requires p.Valid() && c.Valid() && c'.Valid() && first <= end
    ensures |Stream(p, c', first, end)| == |Stream(p, c, first, end)|
    decreases end
  {
    hide EventsOfFirst;
    if first < end {
      StreamLength(p, c, c', first, end - 1);
      EventsLength(p, c, c', end - 1, VOICE_COUNT);
    }
  }

  lemma {:induction false} EventsLength(p: Pattern, c: AdjustedClock, c': AdjustedClock, step: nat, voices: nat)
    requires p.Valid() && c.Valid() && c'.Valid() && voices <= VOICE_COUNT
    ensures |EventsOfFirst(p, c', step, voices)| == |EventsOfFirst(p, c, step, voices)|
  {
    hide StepSample, FlamSamples;
    if voices > 0 { EventsLength(p, c, c', step, voices - 1); }
  }

  /** Only renders, each of between one frame and the lookahead less a flam spacing. */
  ghost predicate BlocksFit(e: Engine, ops: seq<Op>)
    requires e.Valid()
  {
    forall i :: 0 <= i < |ops| ==>
      && ops[i].Render? && OpValid(ops[i])
      && 1 <= ops[i].frames && ops[i].frames + FlamSamples(e.control.Pattern(),
         e.control.Adjusted()) <= e.control.lookahead
  }

  function Frames(ops: seq<Op>): nat
    requires forall i :: 0 <= i < |ops| ==> ops[i].Render?
  {
    if ops == [] then 0 else ops[0].frames + Frames(ops[1..])
  }

  /** Everything a render leaves alone. */
  ghost predicate SameSong(a: ControlState, b: ControlState)
  {
    && a.mode == b.mode == FreeRunning && a.internal == b.internal && a.controls == b.controls
    && a.lookahead == b.lookahead && a.sampleRate == b.sampleRate
    && a.scheduler.pattern == b.scheduler.pattern && a.scheduler.stopAt == b.scheduler.stopAt
  }

  function Song(start: Engine, horizon: nat): seq<Event>
    requires start.Valid()
  {
    var c := start.control;
    SortedStream(c.Pattern(), c.Adjusted(), c.scheduler.nextStep, c.scheduler.stopAt, horizon)
  }

  function SongSteps(start: Engine, horizon: nat): nat
    requires start.Valid()
  {
    var c := start.control;
    StepsBefore(c.Pattern(), c.Adjusted(), c.scheduler.nextStep, c.scheduler.stopAt, horizon)
  }

  function SongEvents(start: Engine, a: nat, b: nat): seq<Event>
    requires start.Valid()
  {
    if a <= b then Stream(start.control.Pattern(), start.control.Adjusted(), a, b) else []
  }

  /** Between blocks: the song up to the last tick's horizon, what lies before the render
      position played, the rest held. */
  ghost predicate Playing(start: Engine, e: Engine, horizon: nat)
    requires start.Valid()
  {
    var song, q := Song(start, horizon), e.renderer.position;
    var k := Before(song, q);
    && e.Valid() && SameSong(start.control, e.control)
    && e.control.pendingFlush == None
    && e.control.queue.capacity == EVENT_QUEUE_CAPACITY && e.control.queue.Waiting() == []
    && start.renderer.position <= q <= horizon <= q + e.control.lookahead
    && (q + FlamSamples(start.control.Pattern(), start.control.Adjusted()) <= horizon
        || (q == start.renderer.position == horizon && song == []))
    && e.control.scheduler.nextStep == SongSteps(start, horizon)
    && (e.control.scheduler.playing || e.control.scheduler.AtEnd())
    && e.renderer.pending == song[k..]
    && e.renderer.applied == start.renderer.applied + Stamp(song[..k], start.renderer.position)
  }

  lemma FirstStepAhead(e: Engine)
    requires Poised(e)
    ensures SongSteps(e, e.renderer.position) == e.control.scheduler.nextStep
  {
    var clock, p := e.control.Adjusted(), e.control.Pattern();
    var x := clock.SampleAtBeat(p.StepBeat(e.control.scheduler.nextStep));
    RoundMonotone(e.renderer.position as real, x);
    assert StepSample(p, clock, e.control.scheduler.nextStep) >= e.renderer.position;
  }

  lemma PoisedIsPlaying(e: Engine)
    requires Poised(e)
    ensures Playing(e, e, e.renderer.position)
  {
    FirstStepAhead(e);
    var c, q := e.control, e.renderer.position;
    var first := c.scheduler.nextStep;
    assert Stream(c.Pattern(), c.Adjusted(), first, first) == [];
    hide StepsBefore;
    assert Song(e, q) == [];
    hide Song, SongSteps, StepSample;
    assert Before([], q) == 0;
  }

  /** An even number of steps is a fixed number of beats, so a lookahead of at most that never
      reaches further. */
  lemma ManySteps(e: Engine, n: nat, k: nat)
    requires Poised(e) && Roomy(e.control, n) && k >= e.control.scheduler.nextStep
    ensures var p, clock := e.control.Pattern(), e.control.Adjusted();
            StepSample(p, clock, k + n) >= StepSample(p, clock, k) + e.control.lookahead
  {
    ManyStepsLater(e.control, n, k);
    LaterStepsAreAhead(e, k);
    var p, clock := e.control.Pattern(), e.control.Adjusted();
    hide Pattern.StepBeat, AdjustedClock.SampleAtBeat, RoundToNat, Round, Line.SamplesPerBeat;
    FarApart(clock.SampleAtBeat(p.StepBeat(k)), clock.SampleAtBeat(p.StepBeat(k + n)), e.control.lookahead);
  }

  lemma LaterStepsAreAhead(e: Engine, k: nat)
    requires Poised(e) && k >= e.control.scheduler.nextStep
    ensures e.control.Adjusted().SampleAtBeat(e.control.Pattern().StepBeat(k)) >= 0.0
  {
    hide Pattern.StepBeat, AdjustedClock.SampleAtBeat, Roomy;
    var p, clock, first := e.control.Pattern(), e.control.Adjusted(), e.control.scheduler.nextStep;
    if first < k {
      StepBeatIncreasing(p, first, k);
      ClockIncreasing(clock, p.StepBeat(first), p.StepBeat(k));
    }
  }

  lemma FarApart(x: real, y: real, n: nat)
    requires x >= 0.0 && y >= x + n as real + 1.0
    ensures RoundToNat(y) >= RoundToNat(x) + n
  {
    RoundNear(x);
    RoundNear(y);
  }

  lemma ManyStepsLater(c: ControlState, n: nat, k: nat)
    requires c.Valid() && c.mode == FreeRunning && n % 2 == 0
    ensures var p, clock := c.Pattern(), c.Adjusted();
            clock.SampleAtBeat(p.StepBeat(k + n))
            == clock.SampleAtBeat(p.StepBeat(k)) + n as real * BEATS_PER_STEP * c.internal.SamplesPerBeat()
  {
    EvenSteps(c.Pattern(), k, n);
    hide Pattern.StepBeat, Line.SamplesPerBeat;
    BeatsLater(c.internal, c.Pattern().StepBeat(k) + c.controls.nudgeBeats, n as real * BEATS_PER_STEP);
  }

  lemma EvenSteps(p: Pattern, k: nat, n: nat)
    requires n % 2 == 0
    ensures p.StepBeat(k + n) == p.StepBeat(k) + n as real * BEATS_PER_STEP
  {
    assert (k + n) % 2 == k % 2;
  }

  lemma BeatsLater(l: Line, beat: real, beats: real)
    requires l.Valid()
    ensures l.SampleAtBeat(beat + beats) == l.SampleAtBeat(beat) + beats * l.SamplesPerBeat()
  {
    var spb := l.SamplesPerBeat();
    Distribute(beat - l.anchorBeat, beats, spb);
  }

  /** From the render position to the horizon there are at most that many steps. */
  lemma AtMostSteps(e: Engine, n: nat, q: nat)
    requires Poised(e) && Roomy(e.control, n)
    ensures SongSteps(e, q) <= SongSteps(e, q + e.control.lookahead) <= SongSteps(e, q) + n
  {
    hide StepSample, Roomy;
    var c, p := e.control, e.control.Pattern();
    var clock, first, stopAt := c.Adjusted(), c.scheduler.nextStep, c.scheduler.stopAt;
    StepsBeforeMonotone(p, clock, first, stopAt, q, q + c.lookahead);
    var m, end := SongSteps(e, q), SongSteps(e, q + c.lookahead);
    if m + n < end {
      ManySteps(e, n, m);
    }
  }

  /** Some of `n` steps have no more events than all of them. */
  lemma SomeSteps(c: ControlState, n: nat, m: nat, end: nat)
    requires c.Valid() && Roomy(c, n) && m <= end <= m + n
    ensures |Stream(c.Pattern(), c.Adjusted(), m, end)| <= PENDING_CAPACITY
  {
    hide Stream, Line.SamplesPerBeat;
    assert EventsIn(c, m, n) <= PENDING_CAPACITY;
    StreamSplits(c.Pattern(), c.Adjusted(), m, end, m + n);
  }

  /** Every event of a step whose grid hit lies before `q` counts as before `q`. */
  lemma EarlyStepsCount(e: Engine, q: nat, horizon: nat)
    requires e.Valid() && SongSteps(e, q) <= SongSteps(e, horizon)
    ensures var c := e.control;
            var heard := Stream(c.Pattern(), c.Adjusted(), c.scheduler.nextStep, SongSteps(e, q));
            |heard| <= Before(Song(e, horizon), q)
  {
    var c, p := e.control, e.control.Pattern();
    var clock, first := c.Adjusted(), c.scheduler.nextStep;
    var m, n := SongSteps(e, q), SongSteps(e, horizon);
    var song, heard := Stream(p, clock, first, n), Stream(p, clock, first, m);
    hide StepSample, Stream;
    StreamIsEarly(p, clock, first, m, q);
    StreamSplits(p, clock, first, m, n);
    CountAll(heard, q);
    CountConcat(heard, Stream(p, clock, m, n), q);
    InsertAllSorts(song, 0);
    CountSorted(InsertAll([], song), q);
    CountInsertAll([], song, q);
  }

  lemma SongLength(e: Engine, n: nat, q: nat, horizon: nat)
    requires e.Valid() && Roomy(e.control, n) && SongSteps(e, q) <= SongSteps(e, horizon) <= SongSteps(e, q) + n
    ensures var c := e.control;
            |Song(e, horizon)|
            <= |Stream(c.Pattern(), c.Adjusted(), c.scheduler.nextStep, SongSteps(e, q))| + PENDING_CAPACITY
  {
    var c, p, clock := e.control, e.control.Pattern(), e.control.Adjusted();
    var m, end := SongSteps(e, q), SongSteps(e, horizon);
    hide StepSample, StepsBefore, Stream, Roomy;
    StreamSplits(p, clock, c.scheduler.nextStep, m, end);
    SomeSteps(c, n, m, end);
  }

  /** How much is held after a tick at `q`: no more than the list has room for. */
  lemma FewHeld(e: Engine, q: nat, k: nat)
    requires Poised(e)
    requires k == Before(Song(e, q + e.control.lookahead), q) || (k == 0 && q == e.renderer.position)
    ensures |Song(e, q + e.control.lookahead)| <= k + PENDING_CAPACITY
  {
    hide StepSample, Song, Before, Walk, AudioRate, Roomy;
    var n: nat :| Roomy(e.control, n);
    AtMostSteps(e, n, q);
    SongLength(e, n, q, q + e.control.lookahead);
    EarlyStepsCount(e, q, q + e.control.lookahead);
    if q == e.renderer.position { FirstStepAhead(e); }
  }

  /** A call that is not short of room stops where the song's steps before its horizon do. */
  lemma EndsAtHorizon(start: Engine, s: SchedulerState, horizon: nat, q: Ring, s': SchedulerState, q': Ring)
    requires start.Valid() && s.pattern == start.control.Pattern() && s.stopAt == start.control.scheduler.stopAt
    requires start.control.scheduler.nextStep <= s.nextStep <= SongSteps(start, horizon)
    requires s.playing || s.AtEnd()
    requires q.Valid() && Outcome(s, start.control.Adjusted(), horizon, q, s', q')
    ensures s'.nextStep <= SongSteps(start, horizon)
    ensures q'.Vacant() >= STEP_SLOTS + FLUSH_RESERVE || s'.AtEnd() ==> s'.nextStep == SongSteps(start, horizon)
    ensures s'.playing || s'.AtEnd()
  {
    hide StepSample, Stream;
    var clock, last := start.control.Adjusted(), SongSteps(start, horizon);
    var walk := Walk(s.pattern, clock, horizon, start.control.scheduler.nextStep);
    // Were `last` itself emitted, it would be neither at the end nor at the horizon.
    var atWalk, atLast := StepSample(s.pattern, clock, walk), StepSample(s.pattern, clock, last);
    var atNext := StepSample(s.pattern, clock, s'.nextStep);
  }

  /** The tick schedules exactly the song's steps up to its horizon. */
  lemma TickSchedules(start: Engine, e: Engine, horizon: nat)
    requires Poised(start) && Playing(start, e, horizon)
    ensures var q := e.renderer.position;
            var c := ScheduleAndLog(NoteRenderPosition(e.control, e.renderer.published), q);
            var more := SongEvents(start, SongSteps(start, horizon), SongSteps(start, q + c.lookahead));
            && c.Valid() && SameSong(start.control, c) && c.pendingFlush == None
            && c.queue == e.control.queue.PushAll(more)
            && c.scheduler.nextStep == SongSteps(start, q + c.lookahead) >= SongSteps(start, horizon)
            && (c.scheduler.playing || c.scheduler.AtEnd())
  {
    hide StepSample, Stream, LogSteps, Scheduled, Song, SongSteps, SongEvents, Before, Stamp, Roomy;
    TickOutcome(start, e, horizon);
    var q, c0 := e.renderer.position, NoteRenderPosition(e.control, e.renderer.published);
    ScheduleAndLogValid(c0, q);
  }

  lemma TickOutcome(start: Engine, e: Engine, horizon: nat)
    requires Poised(start) && Playing(start, e, horizon)
    ensures var c := NoteRenderPosition(e.control, e.renderer.published);
            var end := e.renderer.position + e.control.lookahead;
            var (s', ring') := Scheduled(c.scheduler, start.control.Adjusted(), end, c.queue, []);
            && c.scheduler.pattern.Valid() && start.control.Adjusted() == c.Adjusted()
            && SongSteps(start, horizon) <= s'.nextStep == SongSteps(start, end)
            && s' == c.scheduler.(nextStep := s'.nextStep, playing := s'.playing) && (s'.playing || s'.AtEnd())
            && ring' == c.queue.PushAll(SongEvents(start, SongSteps(start, horizon), SongSteps(start, end)))
  {
    hide StepSample, Stream, Scheduled, Song, StepsBefore, Before, Stamp, Roomy;
    var n: nat :| Roomy(start.control, n);
    var q, c := e.renderer.position, NoteRenderPosition(e.control, e.renderer.published);
    var p, clock, first, end := c.Pattern(), c.Adjusted(), start.control.scheduler.nextStep, q + c.lookahead;
    AtMostSteps(start, n, q);
    StepsBeforeMonotone(p, clock, first, c.scheduler.stopAt, q, horizon);
    StepsBeforeMonotone(p, clock, first, c.scheduler.stopAt, horizon, end);
    TickFits(start, n, c.scheduler, end, c.queue);
  }

  /** What is due fits the list, so there is room for all of it in the queue. */
  lemma TickFits(start: Engine, n: nat, s: SchedulerState, horizon: nat, ring: Ring)
    requires start.Valid() && s.pattern == start.control.Pattern() && s.stopAt == start.control.scheduler.stopAt
    requires Roomy(start.control, n)
    requires start.control.scheduler.nextStep <= s.nextStep <= SongSteps(start, horizon) <= s.nextStep + n
    requires s.playing || s.AtEnd()
    requires ring.Valid() && ring.capacity == EVENT_QUEUE_CAPACITY && ring.Waiting() == []
    ensures var (s', ring') := Scheduled(s, start.control.Adjusted(), horizon, ring, []);
            && s'.nextStep == SongSteps(start, horizon)
            && s' == s.(nextStep := s'.nextStep, playing := s'.playing) && (s'.playing || s'.AtEnd())
            && ring' == ring.PushAll(SongEvents(start, s.nextStep, s'.nextStep))
  {
    hide StepSample, Stream, Scheduled, SongSteps, Roomy;
    var clock := start.control.Adjusted();
    ScheduleRefines(s, clock, horizon, ring, []);
    var (s', ring') := Scheduled(s, clock, horizon, ring, []);
    EndsAtHorizon(start, s, horizon, ring, s', ring');
    SomeSteps(start.control, n, s.nextStep, s'.nextStep);
    assert |ring'.pushed| - ring'.popped <= PENDING_CAPACITY;
  }

  /** The song up to a later horizon is the song so far with the new events sorted into what
      is still held. */
  lemma SongGrows(start: Engine, e: Engine, horizon: nat)
    requires Poised(start) && Playing(start, e, horizon)
    ensures var song, song', q := Song(start, horizon), Song(start, e.renderer.position + e.control.lookahead),
            e.renderer.position;
            var k := Before(song, q);
            var more := SongEvents(start, SongSteps(start, horizon), SongSteps(start, q + e.control.lookahead));
            && song' == song[..k] + InsertAll(song[k..], more)
            && (k == Before(song', q) || (k == 0 && q == start.renderer.position))
  {
    hide StepSample, Stream;
    var c, p, q := start.control, start.control.Pattern(), e.renderer.position;
    var clock, first := c.Adjusted(), c.scheduler.nextStep;
    if q + FlamSamples(p, clock) <= horizon {
      StreamExtends(p, clock, first, c.scheduler.stopAt, q, horizon, q + c.lookahead);
    } else {
      FirstStepAhead(start);
      StepsBeforeMonotone(p, clock, first, c.scheduler.stopAt, q, q + c.lookahead);
      assert Song(start, horizon) == [];
      assert Before([], q) == 0;
    }
  }

  lemma BeforeConcat(a: seq<Event>, b: seq<Event>, end: nat)
    requires Sorted(a + b) && forall i :: 0 <= i < |a| ==> a[i].sample < end
    ensures Before(a + b, end) == |a| + Before(b, end)
  {
    hide Before;
    assert Sorted(b) by {
      forall i, j | 0 <= i < j < |b|
        ensures b[i].sample <= b[j].sample
      {
        assert (a + b)[|a| + i].sample <= (a + b)[|a| + j].sample;
      }
    }
    CountSorted(a + b, end);
    CountSorted(b, end);
    CountConcat(a, b, end);
    CountAll(a, end);
  }

  /** Playing what is held of a song plays the song. */
  lemma SongPlays(song: seq<Event>, k: nat, q: nat, n: nat, first: nat)
    requires Sorted(song) && k <= |song| && first <= q && n >= 1
    requires forall i :: 0 <= i < k ==> song[i].sample < q
    requires k == Before(song, q) || q == first
    ensures var held := song[k..];
            var m := Before(held, q + n);
            && Before(song, q + n) == k + m
            && Stamp(song[..k], first) + Stamp(held[..m], q) == Stamp(song[..k + m], first)
            && held[m..] == song[k + m..]
  {
    hide Before, Stamp;
    var held := song[k..];
    assert song == song[..k] + held;
    BeforeConcat(song[..k], held, q + n);
    var m := Before(held, q + n);
    HeldIsNotLate(song, k, q, first);
    StampSplits(song, k, k + m, first, q);
    assert held[..m] == song[k..k + m];
  }

  lemma HeldIsNotLate(song: seq<Event>, k: nat, q: nat, first: nat)
    requires Sorted(song) && k <= |song| && first <= q
    requires k == Before(song, q) || q == first
    ensures forall i :: k <= i < |song| ==> Max(song[i].sample, first) == Max(song[i].sample, q)
  {
    BeforeSplits(song, q);
    hide Before;
    forall i | k <= i < |song|
      ensures Max(song[i].sample, first) == Max(song[i].sample, q)
    {
      if q != first { assert song[k].sample <= song[i].sample; }
    }
  }

  lemma SongSorted(start: Engine, horizon: nat)
    requires start.Valid()
    ensures Sorted(Song(start, horizon))
  {
    var c := start.control;
    InsertAllSorts(Stream(c.Pattern(), c.Adjusted(), c.scheduler.nextStep, SongSteps(start, horizon)), 0);
  }

  /** What a tick leaves to hear: everything it queued is pulled and sorted into what was held. */
  lemma RenderHears(start: Engine, e: Engine, horizon: nat, op: Op, song: seq<Event>, song': seq<Event>, k: nat)
    requires start.Valid() && e.Valid() && Poised(start) && Playing(start, e, horizon)
    requires op.Render? && OpValid(op) && op.frames >= 1
    requires song == Song(start, horizon) && song' == Song(start, e.renderer.position + start.control.lookahead)
    requires k == Before(song, e.renderer.position)
    ensures k <= |song'| && song'[..k] == song[..k]
    ensures k == Before(song', e.renderer.position) || (k == 0 && e.renderer.position == start.renderer.position)
    ensures var q := e.renderer.position;
            var c := ScheduleAndLog(NoteRenderPosition(e.control, e.renderer.published), q);
            After(e, op) == Engine(c.(queue := c.queue.(popped := |c.queue.pushed|)),
                                   Played(e.renderer.(pending := song'[k..], published := q), op.frames))
  {
    hide StepSample, Stream, Song, SongSteps, StepsBefore, ScheduleAndLog, Before, Stamp, Pull, Play, InsertAll,
         FlamSamples, After, Played, Poised;
    var q := e.renderer.position;
    TickSchedules(start, e, horizon);
    var more := SongEvents(start, SongSteps(start, horizon), SongSteps(start, q + start.control.lookahead));
    SongGrows(start, e, horizon);
    FewHeld(start, q, k);
    MoreIsTriggers(start, SongSteps(start, horizon), SongSteps(start, q + start.control.lookahead));
    var held := InsertAll(e.renderer.pending, more);
    assert held == song'[k..];
    PullInserts(e.renderer.pending, more);
    var c := ScheduleAndLog(NoteRenderPosition(e.control, e.renderer.published), q);
    assert c.queue.Waiting() == more;
    SongSorted(start, q + start.control.lookahead);
    HeldSorted(song', k);
    RenderIs(e, op, c, held);
  }

  /** What is held of the song, played on: the sound half of `Playing`. */
  lemma HeldPlays(start: Engine, e: Engine, song': seq<Event>, k: nat, n: nat)
    requires Sorted(song') && k <= |song'| && n >= 1 && start.renderer.position <= e.renderer.position
    requires forall i :: 0 <= i < k ==> song'[i].sample < e.renderer.position
    requires k == Before(song', e.renderer.position) || e.renderer.position == start.renderer.position
    requires e.renderer.applied == start.renderer.applied + Stamp(song'[..k], start.renderer.position)
    ensures var q := e.renderer.position;
            var r := Played(e.renderer.(pending := song'[k..], published := q), n);
            var k' := Before(song', q + n);
            && r.position == q + n && r.pending == song'[k'..]
            && r.applied == start.renderer.applied + Stamp(song'[..k'], start.renderer.position)
  {
    hide Before, Stamp, Sorted, Played;
    var q, first := e.renderer.position, start.renderer.position;
    SongPlays(song', k, q, n, first);
    PlayedIs(e.renderer.(pending := song'[k..], published := q), n);
    Reassociate(start.renderer.applied, Stamp(song'[..k], first), Stamp(song'[k..][..Before(song'[k..], q + n)], q));
  }

  /** One render keeps the song going: nothing repeats, nothing is lost, nothing is late. */
  lemma RenderPlays(start: Engine, e: Engine, horizon: nat, op: Op)
    requires start.Valid() && e.Valid() && Poised(start) && Playing(start, e, horizon) && op.Render? && OpValid(op)
    requires 1 <= op.frames
    requires op.frames + FlamSamples(start.control.Pattern(), start.control.Adjusted()) <= start.control.lookahead
    ensures Playing(start, After(e, op), e.renderer.position + start.control.lookahead)
    ensures After(e, op).renderer.position == e.renderer.position + op.frames
  {
    hide StepSample, Stream, Song, SongSteps, StepsBefore, ScheduleAndLog, Before, Stamp, Pull, Play, InsertAll,
         FlamSamples, After, Played, Poised;
    var q := e.renderer.position;
    var song, song' := Song(start, horizon), Song(start, q + start.control.lookahead);
    RenderHears(start, e, horizon, op, song, song', Before(song, q));
    TickSchedules(start, e, horizon);
    SongSorted(start, q + start.control.lookahead);
    BeforeSplits(song, q);
    HeldPlays(start, e, song', Before(song, q), op.frames);
    AfterValid(e, op);
  }

  /** A render that pulls everything. */
  lemma RenderIs(e: Engine, op: Op, c: ControlState, held: seq<Event>)
    requires e.Valid() && op.Render? && OpValid(op) && op.frames >= 1
    requires c == ControlStep(e.control, op, e.renderer.published, e.renderer.position) && c.Valid()
    requires Pull(e.renderer.pending, c.queue.Waiting()) == (held, []) && Sorted(held)
    ensures After(e, op) == Engine(c.(queue := c.queue.(popped := |c.queue.pushed|)),
                                   Played(e.renderer.(pending := held, published := e.renderer.position), op.frames))
  {
    hide ControlStep, Pull, Play, Played, Sorted;
    PlayApplies(e.renderer.(pending := held, published := e.renderer.position), op.frames);
  }

  lemma MoreIsTriggers(start: Engine, a: nat, b: nat)
    requires start.Valid()
    ensures NoFlush(SongEvents(start, a, b))
  {
    if a <= b { StreamIsTriggers(start.control.Pattern(), start.control.Adjusted(), a, b); }
  }

  lemma HeldSorted(song: seq<Event>, k: nat)
    requires Sorted(song) && k <= |song|
    ensures Sorted(song[k..])
  {
  }

  lemma FitIsValid(start: Engine, ops: seq<Op>)
    requires start.Valid() && BlocksFit(start, ops)
    ensures OpsValid(ops) && (forall i :: 0 <= i < |ops| ==> ops[i].Render?)
    ensures if ops == [] then Frames(ops) == 0 else Frames(ops) >= 1
  {
    if ops != [] { assert ops[0].frames >= 1; }
  }

  lemma PlayingValid(start: Engine, e: Engine, horizon: nat)
    requires Poised(start) && Playing(start, e, horizon)
    ensures start.Valid() && e.Valid()
  {
  }

  lemma FitFirst(start: Engine, ops: seq<Op>)
    requires start.Valid() && BlocksFit(start, ops) && ops != []
    ensures ops[0].Render? && OpValid(ops[0]) && BlocksFit(start, ops[1..])
    ensures 1 <= ops[0].frames && Frames(ops) == ops[0].frames + Frames(ops[1..])
    ensures ops[0].frames + FlamSamples(start.control.Pattern(), start.control.Adjusted()) <= start.control.lookahead
  {
  }

  lemma {:induction false} RunPlays(start: Engine, e: Engine, horizon: nat, ops: seq<Op>)
    requires Poised(start) && Playing(start, e, horizon) && BlocksFit(start, ops)
    ensures OpsValid(ops)
    ensures exists h :: Playing(start, Run(e, ops), h)
    ensures Run(e, ops).renderer.position == e.renderer.position + Frames(ops)
    decreases |ops|
  {
    hide *;
    assert start.Valid() && e.Valid() by { PlayingValid(start, e, horizon); }
    FitIsValid(start, ops);
    RunFirst(e, ops);
    if ops != [] { FitFirst(start, ops); }
    if ops == [] {
      assert Playing(start, Run(e, ops), horizon);
    } else {
      RenderPlays(start, e, horizon, ops[0]);
      AfterValid(e, ops[0]);
      RunPlays(start, After(e, ops[0]), e.renderer.position + start.control.lookahead, ops[1..]);
    }
  }

  /** The end position decides what was heard, not the horizon the scheduler had reached. */
  lemma PlayingIsPerformance(start: Engine, e: Engine, horizon: nat)
    requires Poised(start) && Playing(start, e, horizon) && e.renderer.position > start.renderer.position
    ensures var c := start.control;
            e.renderer.applied == start.renderer.applied
              + Performance(c.Pattern(), c.Adjusted(), c.scheduler.nextStep, c.scheduler.stopAt,
                            start.renderer.position, e.renderer.position)
  {
    hide StepSample, Stream, StepsBefore;
    var c, q := start.control, e.renderer.position;
    var p, clock := c.Pattern(), c.Adjusted();
    StreamExtends(p, clock, c.scheduler.nextStep, c.scheduler.stopAt, q, q + FlamSamples(p, clock), horizon);
  }

  /** Rendering in blocks of any sizes between one frame and the lookahead less a flam spacing
      plays the ideal performance: the run's step stream, stably sorted by sample, up to the
      last frame rendered, each event on its own sample or on the start position. */
  lemma RendersIdeal(start: Engine, ops: seq<Op>)
    requires Poised(start) && BlocksFit(start, ops) && ops != []
    ensures OpsValid(ops)
    ensures var c, e := start.control, Run(start, ops);
            && e.renderer.position == start.renderer.position + Frames(ops)
            && e.renderer.applied == start.renderer.applied
                 + Performance(c.Pattern(), c.Adjusted(), c.scheduler.nextStep, c.scheduler.stopAt,
                               start.renderer.position, start.renderer.position + Frames(ops))
  {
    hide *;
    PoisedIsPlaying(start);
    PlayingValid(start, start, start.renderer.position);
    FitIsValid(start, ops);
    RunPlays(start, start, start.renderer.position, ops);
    var horizon :| Playing(start, Run(start, ops), horizon);
    PlayingIsPerformance(start, Run(start, ops), horizon);
  }

  /** Any two ways of cutting the same frames into blocks sound the same. */
  lemma BlockSizeIndependence(start: Engine, xs: seq<Op>, ys: seq<Op>)
    requires Poised(start) && BlocksFit(start, xs) && BlocksFit(start, ys)
    requires Frames(xs) == Frames(ys)
    ensures OpsValid(xs) && OpsValid(ys)
    ensures Run(start, xs).renderer.applied == Run(start, ys).renderer.applied
  {
    hide *;
    PoisedIsPlaying(start);
    PlayingValid(start, start, start.renderer.position);
    FitIsValid(start, xs);
    FitIsValid(start, ys);
    if xs != [] && ys != [] {
      RendersIdeal(start, xs);
      RendersIdeal(start, ys);
    } else {
      assert xs == [] && ys == [];
    }
  }
}
