/** Control and renderer on their own threads: every interleaving of their steps, with blocks of
    one size. A flush sent at the commit point always arrives before it is needed. */
module SplitThreads {
  import opened Numbers
  import opened Pattern
  import opened Clock
  import opened Scheduling
  import opened QueuedLogs
  import opened Rendering
  import opened Controlling

  /** Where the renderer is inside `process_at`. */
  datatype Phase = BetweenBlocks | Pulling | Playing

  /** What control keeps between reading the position and pushing its flush: the commit point,
      and (for the statement only) how many blocks had begun at the read and whether a block
      size was known. */
  datatype Pending = Pending(commit: nat, begun: nat, learned: bool)

  datatype World = World(
    block: nat, begun: nat, phase: Phase, renderer: RenderState, control: ControlState, flushing: Option<Pending>)
  {
    /** No event stamped at or after this is applied before the next pull. */
    function Limit(): nat
    {
      match phase
      case BetweenBlocks => begun * block
      case Pulling => renderer.position
      case Playing => begun * block
    }
  }

  /** One atomic step of either side. */
  datatype Move =
    | Publish           // renderer: publish the block start
    | PullOne           // renderer: pop one event into the pending list
    | PullEnd           // renderer: nothing more to pop, or no room for it
    | PlayOne           // renderer: one sample
    | ReadPosition      // control: learn the block, fix the commit point
    | SendFlush(at: nat)
    | PushEvent(event: Event)

  predicate Enabled(w: World, m: Move)
  {
    w.control.queue.Valid() &&
    match m
    case Publish => w.phase == BetweenBlocks
    case PullOne => w.phase == Pulling && |w.renderer.pending| < PENDING_CAPACITY && w.control.queue.Waiting() != []
    case PullEnd => w.phase == Pulling && (|w.renderer.pending| >= PENDING_CAPACITY || w.control.queue.Waiting() == [])
    case PlayOne => w.phase == Playing
    case ReadPosition => true
    case SendFlush(at) => w.flushing.Some? && at >= w.flushing.value.commit && w.control.queue.Vacant() > 0
    case PushEvent(e) => w.control.queue.Vacant() > 0 && !e.kind.Flush?
  }

  function Moved(w: World, m: Move): World
    requires Enabled(w, m)
  {
    var r, c := w.renderer, w.control;
    match m
    case Publish => w.(begun := w.begun + 1, phase := Pulling, renderer := r.(published := r.position))
    case PullOne =>
      w.(renderer := r.(pending := Take(r.pending, c.queue.Waiting()[0])),
         control := c.(queue := c.queue.(popped := c.queue.popped + 1)))
    case PullEnd => w.(phase := Playing)
    case PlayOne =>
      var r' := ApplyDue(r).(position := r.position + 1);
      w.(renderer := r', phase := if r'.position == r.published + w.block then BetweenBlocks else Playing)
    case ReadPosition =>
      var (c', commit) := Controlling.CommitPoint(c, r.published, r.published);
      w.(control := c', flushing := Some(Pending(commit, w.begun, c'.renderBlock > 0)))
    case SendFlush(at) => w.(control := c.(queue := c.queue.Push(Event(at, Flush))), flushing := None)
    case PushEvent(e) => w.(control := c.(queue := c.queue.Push(e)))
  }

  /** What the design asks: a block size has been learned when a flush is sent, at most one more
      block begins between the read and the push, and the pending list (256) never fills up
      while a flush waits behind it. */
  predicate Timely(w: World, m: Move)
    requires Enabled(w, m)
  {
    && (m.SendFlush? ==> w.flushing.value.learned && w.begun <= w.flushing.value.begun + 1)
    && (m.PullEnd? ==> forall e <- w.control.queue.Waiting() :: !e.kind.Flush?)
  }

  predicate AllTimely(w: World, moves: seq<Move>)
    decreases |moves|
  {
    moves == [] || (Enabled(w, moves[0]) && Timely(w, moves[0]) && AllTimely(Moved(w, moves[0]), moves[1..]))
  }

  function MovedAll(w: World, moves: seq<Move>): World
    requires AllTimely(w, moves)
    decreases |moves|
  {
    if moves == [] then w else MovedAll(Moved(w, moves[0]), moves[1..])
  }

  predicate Initial(w: World)
  {
    && w.block >= 1 && w.control.lookahead / 2 >= COMMITTED_BLOCKS * w.block
    && w.begun == 0 && w.phase == BetweenBlocks && w.flushing == None
    && w.renderer == RenderState(0, [], [], 0)
    && w.control.queue == Ring(w.control.queue.capacity, [], 0)
    && w.control.published == 0 && w.control.renderBlock == 0
  }

  /** The start of the newest block begun. */
  function NewestStart(w: World): nat { if w.begun == 0 then 0 else (w.begun - 1) * w.block }

  ghost predicate Timing(w: World)
  {
    && w.block >= 1 && w.control.lookahead / 2 >= COMMITTED_BLOCKS * w.block
    && w.renderer.published == NewestStart(w)
    && match w.phase
       case BetweenBlocks => w.renderer.position == w.begun * w.block
       case Pulling => w.begun >= 1 && w.renderer.position == NewestStart(w)
       case Playing => w.begun >= 1 && NewestStart(w) <= w.renderer.position < w.begun * w.block
  }

  /** Control has seen only block starts, and learned no less than the block. */
  ghost predicate Learned(w: World)
  {
    && (exists seen: nat :: seen * w.block == w.control.published)
    && w.control.published <= NewestStart(w)
    && (w.control.renderBlock == 0 || w.control.renderBlock >= w.block)
    && (w.flushing.Some? && w.flushing.value.learned ==>
          w.flushing.value.begun <= w.begun && w.flushing.value.commit >= (w.flushing.value.begun + 1) * w.block)
  }

  ghost predicate InTime(w: World)
  {
    && w.control.queue.Valid()
    && (forall a <- w.renderer.applied :: a.event.sample <= a.time < w.renderer.position)
    && (forall e <- w.control.queue.Waiting() :: e.kind.Flush? ==> e.sample >= w.Limit())
    && multiset(w.renderer.pending) + multiset(Events(w.renderer.applied))
       == multiset(Survivors(w.control.queue.pushed[..w.control.queue.popped]))
  }

  ghost predicate Inv(w: World) { Timing(w) && Learned(w) && InTime(w) }

  // ---- Each step keeps the invariant ----

  lemma MultiplesApart(a: nat, b: nat, block: nat, x: nat, y: nat)
    requires x == a * block && y == b * block && x < y
    ensures y - x >= block
  {
    if a >= b { MulGrows(b, a, block); } else { MulGrows(a + 1, b, block); }
    MulNext(a, block);
  }

  lemma TimingKept(w: World, m: Move)
    requires Enabled(w, m) && Timing(w)
    ensures Timing(Moved(w, m))
  {
    hide Take, Insert, ApplyDue;
    assert w.begun >= 1 ==> (w.begun - 1) * w.block + w.block == w.begun * w.block;
    if m.PlayOne? { DueKeepsPosition(w.renderer); }
  }

  lemma DueKeepsPosition(r: RenderState)
    ensures ApplyDue(r).published == r.published && ApplyDue(r).position == r.position
  {
  }

  lemma NewestStartGrows(w: World, m: Move)
    requires Enabled(w, m)
    ensures Moved(w, m).block == w.block && Moved(w, m).begun >= w.begun && NewestStart(Moved(w, m)) >= NewestStart(w)
  {
    hide Take, Insert, ApplyDue;
    if m.Publish? && w.begun >= 1 { assert w.begun * w.block >= (w.begun - 1) * w.block; }
  }

  /** What a read makes of the position: the commit point clears two blocks once one is known. */
  lemma ReadCommits(c: ControlState, position: nat, block: nat)
    requires block >= 1 && c.lookahead / 2 >= COMMITTED_BLOCKS * block && c.published <= position
    requires c.renderBlock == 0 || c.renderBlock >= block
    requires c.published < position ==> position - c.published >= block
    ensures var (c', commit) := Controlling.CommitPoint(c, position, position);
            && c'.published == position && (c'.renderBlock == 0 || c'.renderBlock >= block)
            && (c'.renderBlock > 0 ==> commit >= position + COMMITTED_BLOCKS * block)
  {
  }

  lemma ReadLearns(w: World)
    requires Timing(w) && Learned(w) && w.control.queue.Valid()
    ensures Learned(Moved(w, ReadPosition))
  {
    hide Controlling.CommitPoint, NoteRenderPosition;
    var c, position := w.control, w.renderer.published;
    var seen: nat :| seen * w.block == c.published;
    var newest := if w.begun == 0 then 0 else w.begun - 1;
    assert position == newest * w.block by { assert 0 * w.block == 0; }
    if c.published < position { MultiplesApart(seen, newest, w.block, c.published, position); }
    ReadCommits(c, position, w.block);
    MulNext(w.begun, w.block);
    MulNext(newest, w.block);
    var w' := Moved(w, ReadPosition);
    assert newest * w.block == w'.control.published;
  }

  lemma LearnedKept(w: World, m: Move)
    requires Enabled(w, m) && Timing(w) && Learned(w)
    ensures Learned(Moved(w, m))
  {
    if m.ReadPosition? {
      ReadLearns(w);
    } else {
      NewestStartGrows(w, m);
      hide Take, Insert, ApplyDue, NewestStart;
      var seen: nat :| seen * w.block == w.control.published;
      assert seen * w.block == Moved(w, m).control.published;
    }
  }

  lemma StartBeforeEnd(w: World)
    ensures NewestStart(w) <= w.begun * w.block
  {
    if w.begun >= 1 { MulGrows(w.begun - 1, w.begun, w.block); }
  }

  /** No flush pushed in time asks back what may still be applied before it is pulled. */
  lemma FlushIsAhead(w: World, at: nat)
    requires Timing(w) && Learned(w) && Enabled(w, SendFlush(at)) && Timely(w, SendFlush(at))
    ensures at >= w.Limit()
  {
    hide NewestStart;
    MulGrows(w.begun, w.flushing.value.begun + 1, w.block);
    StartBeforeEnd(w);
  }

  lemma PullsInTime(w: World)
    requires Timing(w) && InTime(w) && Enabled(w, PullOne)
    ensures InTime(Moved(w, PullOne))
  {
    hide Take, Survivors, Kept;
    var q := w.control.queue;
    var e, done := q.Waiting()[0], Events(w.renderer.applied);
    assert e in q.Waiting();
    if e.kind.Flush? { NothingTakenBack(w.renderer, e.sample); }
    TakeKeepsSurvivors(w.renderer.pending, done, q.pushed[..q.popped], e);
    assert q.pushed[..q.popped] + [e] == q.pushed[..q.popped + 1];
    assert q.pushed[q.popped + 1..] == q.Waiting()[1..];
  }

  lemma NothingTakenBack(r: RenderState, f: nat)
    requires forall a <- r.applied :: a.event.sample <= a.time < r.position
    requires f >= r.position
    ensures AllKept(Events(r.applied), f)
  {
    forall d | d in Events(r.applied)
      ensures d.sample < f
    {
      var i :| 0 <= i < |r.applied| && Events(r.applied)[i] == d;
      assert r.applied[i] in r.applied;
    }
  }

  lemma DueMoves(r: RenderState)
    requires forall a <- r.applied :: a.event.sample <= a.time < r.position
    ensures var r' := ApplyDue(r);
            && multiset(r'.pending) + multiset(Events(r'.applied)) == multiset(r.pending) + multiset(Events(r.applied))
            && forall a <- r'.applied :: a.event.sample <= a.time <= r.position
  {
    var n := DueCount(r.pending, r.position);
    DueCountSplits(r.pending, r.position);
    hide DueCount;
    assert r.pending == r.pending[..n] + r.pending[n..];
    assert Events(r.applied + Stamp(r.pending[..n], r.position)) == Events(r.applied) + r.pending[..n];
  }

  lemma InTimeKept(w: World, m: Move)
    requires Enabled(w, m) && Timely(w, m) && Inv(w)
    ensures InTime(Moved(w, m))
  {
    hide Take, Survivors, Kept, Insert, ApplyDue, Learned;
    var q := w.control.queue;
    match m
    case PullOne => PullsInTime(w);
    case PlayOne => DueMoves(w.renderer); DueKeepsPosition(w.renderer);
    case SendFlush(at) =>
      FlushIsAhead(w, at);
      PushKeeps(w, Event(at, Flush), m);
    case PushEvent(e) => PushKeeps(w, e, m);
    case Publish => assert w.begun * w.block == NewestStart(w.(begun := w.begun + 1));
    case PullEnd =>
    case ReadPosition =>
  }

  lemma PushKeeps(w: World, e: Event, m: Move)
    requires Enabled(w, m) && InTime(w) && w.control.queue.Vacant() > 0
    requires m == PushEvent(e) || (e.kind.Flush? && m == SendFlush(e.sample) && e.sample >= w.Limit())
    ensures InTime(Moved(w, m))
  {
    hide Survivors;
    var q := w.control.queue;
    assert (q.pushed + [e])[q.popped..] == q.Waiting() + [e];
    assert (q.pushed + [e])[..q.popped] == q.pushed[..q.popped];
  }

  lemma MoveKeeps(w: World, m: Move)
    requires Enabled(w, m) && Timely(w, m) && Inv(w)
    ensures Inv(Moved(w, m))
  {
    hide Timing, Learned, InTime, Moved, Timely;
    TimingKept(w, m);
    LearnedKept(w, m);
    InTimeKept(w, m);
  }

  lemma InitialInv(w: World)
    requires Initial(w)
    ensures Inv(w)
  {
    assert 0 * w.block == 0;
    assert Events([]) == [];
  }

  lemma {:induction false} RunKeeps(w: World, moves: seq<Move>)
    requires Inv(w) && AllTimely(w, moves)
    ensures Inv(MovedAll(w, moves))
    decreases |moves|
  {
    hide Inv, Moved, Enabled, Timely;
    if moves != [] {
      MoveKeeps(w, moves[0]);
      RunKeeps(Moved(w, moves[0]), moves[1..]);
    }
  }

  /** Over every interleaving: when the renderer pulls a flush, it has applied no trigger at or
      after the flush sample, and what it played and holds is exactly what survives the flushes
      among everything it has pulled. */
  lemma FlushArrivesInTime(w: World, moves: seq<Move>)
    requires Initial(w) && AllTimely(w, moves)
    ensures var w' := MovedAll(w, moves);
            var q := w'.control.queue;
            && q.Valid()
            && (w'.phase == Pulling && q.Waiting() != [] && q.Waiting()[0].kind.Flush? ==>
                  forall a <- w'.renderer.applied :: a.event.sample < q.Waiting()[0].sample)
            && multiset(w'.renderer.pending) + multiset(Events(w'.renderer.applied))
               == multiset(Survivors(q.pushed[..q.popped]))
  {
    hide Survivors, MovedAll, AllTimely, Learned;
    InitialInv(w);
    RunKeeps(w, moves);
    var w' := MovedAll(w, moves);
    var waiting := w'.control.queue.Waiting();
    if waiting != [] { assert waiting[0] in waiting; }
  }
}
