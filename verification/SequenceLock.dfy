/** The render position and host time shared through a sequence lock, one atomic load or store
    at a time. */
module SequenceLocks {
  import opened Numbers
  import opened Bits

  datatype Snapshot = Snapshot(position: nat, hostTicks: nat)

  /** Where the single writer is inside `publish`. */
  datatype Writer =
    | WriterIdle
    | LoadedSeq(next: Snapshot, s: nat)
    | Marked(next: Snapshot, s: nat)
    | StoredPosition(next: Snapshot, s: nat)
    | StoredTicks(next: Snapshot, s: nat)

  /** Where the reader is inside `read`. `seen` (for the statement only) is how many publishes
      had completed when the sequence number was loaded. */
  datatype Reader =
    | ReaderIdle
    | GotSeq(s1: nat, seen: nat)
    | GotPosition(s1: nat, seen: nat, position: nat)
    | GotTicks(s1: nat, seen: nat, position: nat, hostTicks: nat)

  /** A snapshot a reader returned, and how many publishes it reflects. */
  datatype Returned = Returned(snapshot: Snapshot, index: nat)

  /** The three shared words, both sides, the initial pair followed by all those published, and
      what was returned. */
  datatype Lock = Lock(
    sequence: nat, position: nat, hostTicks: nat, writer: Writer, reader: Reader,
    history: seq<Snapshot>, returned: seq<Returned>)
  {
    /** Publishes completed. */
    function Completed(): int { |history| - 1 }
  }

  datatype LockStep = BeginPublish(next: Snapshot) | WriterGo | ReaderGo

  const INITIAL := Lock(0, 0, 0, WriterIdle, ReaderIdle, [Snapshot(0, 0)], [])

  function WriterStep(l: Lock): Lock
  {
    match l.writer
    case WriterIdle => l
    case LoadedSeq(next, s) => l.(sequence := WrappingAdd(s, 1), writer := Marked(next, s))
    case Marked(next, s) => l.(position := next.position, writer := StoredPosition(next, s))
    case StoredPosition(next, s) => l.(hostTicks := next.hostTicks, writer := StoredTicks(next, s))
    case StoredTicks(next, s) =>
      l.(sequence := WrappingAdd(s, 2), writer := WriterIdle, history := l.history + [next])
  }

  predicate Accepts(l: Lock) { l.reader.GotTicks? && l.sequence == l.reader.s1 }

  function ReaderStep(l: Lock): Lock
    requires l.history != []
  {
    match l.reader
    case ReaderIdle => if l.sequence % 2 == 1 then l else l.(reader := GotSeq(l.sequence, |l.history| - 1))
    case GotSeq(s1, seen) => l.(reader := GotPosition(s1, seen, l.position))
    case GotPosition(s1, seen, position) => l.(reader := GotTicks(s1, seen, position, l.hostTicks))
    case GotTicks(s1, seen, position, ticks) =>
      if Accepts(l) then
        l.(reader := ReaderIdle, returned := l.returned + [Returned(Snapshot(position, ticks), seen)])
      else l.(reader := ReaderIdle)
  }

  function LockStepped(l: Lock, step: LockStep): (l': Lock)
    requires l.history != []
    ensures l'.history != []
  {
    match step
    case BeginPublish(next) => if l.writer.WriterIdle? then l.(writer := LoadedSeq(next, l.sequence)) else l
    case WriterGo => WriterStep(l)
    case ReaderGo => ReaderStep(l)
  }

  /** A read attempt during which fewer than 2^63 publishes complete. */
  predicate Prompt(l: Lock, step: LockStep)
  {
    step.ReaderGo? && l.reader.GotTicks? ==> l.Completed() - l.reader.seen < WORD / 2
  }

  predicate AllPrompt(l: Lock, steps: seq<LockStep>)
    requires l.history != []
    decreases |steps|
  {
    steps == [] || (Prompt(l, steps[0]) && AllPrompt(LockStepped(l, steps[0]), steps[1..]))
  }

  function LockRun(l: Lock, steps: seq<LockStep>): Lock
    requires l.history != []
    decreases |steps|
  {
    if steps == [] then l else LockRun(LockStepped(l, steps[0]), steps[1..])
  }

  // ---- What every step keeps ----

  predicate Mid(l: Lock) { !l.writer.WriterIdle? && !l.writer.LoadedSeq? }

  /** The sequence number counts half publishes; the words hold the newest pair, or what the
      writer has stored so far. */
  ghost predicate Words(l: Lock)
  {
    && l.history != []
    && l.sequence == (2 * l.Completed() + if Mid(l) then 1 else 0) % WORD
    && var last := l.history[|l.history| - 1];
       match l.writer
       case WriterIdle => Snapshot(l.position, l.hostTicks) == last
       case LoadedSeq(_, s) => Snapshot(l.position, l.hostTicks) == last && s == l.sequence
       case Marked(_, s) => Snapshot(l.position, l.hostTicks) == last && s == 2 * l.Completed() % WORD
       case StoredPosition(next, s) =>
         l.position == next.position && l.hostTicks == last.hostTicks && s == 2 * l.Completed() % WORD
       case StoredTicks(next, s) => Snapshot(l.position, l.hostTicks) == next && s == 2 * l.Completed() % WORD
  }

  /** What the reader has loaded is still the pair it began with, unless a publish has begun. */
  ghost predicate Loads(l: Lock)
    requires l.history != []
  {
    match l.reader
    case ReaderIdle => true
    case GotSeq(s1, seen) => seen <= l.Completed() && s1 == 2 * seen % WORD
    case GotPosition(s1, seen, position) =>
      && seen <= l.Completed() && s1 == 2 * seen % WORD
      && (seen == l.Completed() && !Mid(l) ==> position == l.history[seen].position)
    case GotTicks(s1, seen, position, ticks) =>
      && seen <= l.Completed() && s1 == 2 * seen % WORD
      && (seen == l.Completed() && !Mid(l) ==> Snapshot(position, ticks) == l.history[seen])
  }

  ghost predicate Honest(l: Lock)
  {
    && (forall i :: 0 <= i < |l.returned| ==>
          l.returned[i].index < |l.history| && l.returned[i].snapshot == l.history[l.returned[i].index])
    && (forall i, j :: 0 <= i < j < |l.returned| ==> l.returned[i].index <= l.returned[j].index)
    && (l.returned != [] && !l.reader.ReaderIdle? ==> l.returned[|l.returned| - 1].index <= l.reader.seen)
  }

  ghost predicate LockInv(l: Lock) { Words(l) && Loads(l) && Honest(l) }

  lemma EvenWord(n: nat)
    ensures (2 * n) % WORD % 2 == 0 && (2 * n + 1) % WORD % 2 == 1
    ensures WrappingAdd((2 * n) % WORD, 1) == (2 * n + 1) % WORD
    ensures WrappingAdd((2 * n) % WORD, 2) == (2 * n + 2) % WORD
  {
  }

  /** Two counts give the same sequence number exactly if they differ by a multiple of 2^63. */
  lemma SameWord(seen: nat, n: nat)
    requires seen <= n
    ensures (2 * n) % WORD == (2 * seen) % WORD <==> (n - seen) % (WORD / 2) == 0
  {
    var d := n - seen;
    assert 2 * n == 2 * seen + 2 * d;
    if d % (WORD / 2) == 0 {
      var q := d / (WORD / 2);
      assert 2 * d == WORD * q;
    }
    if (2 * n) % WORD == (2 * seen) % WORD {
      var q := 2 * n / WORD - 2 * seen / WORD;
      assert 2 * d == WORD * q;
      assert d == (WORD / 2) * q;
    }
  }

  lemma WriterKeeps(l: Lock)
    requires LockInv(l)
    ensures LockInv(WriterStep(l))
  {
    EvenWord(l.Completed());
  }

  /** The second load of the sequence number lets a read through exactly if no publish is under
      way and the number of those completed since the first is a multiple of 2^63. */
  lemma AcceptsExactly(l: Lock)
    requires LockInv(l) && l.reader.GotTicks?
    ensures Accepts(l) <==> !Mid(l) && (l.Completed() - l.reader.seen) % (WORD / 2) == 0
  {
    hide Honest;
    EvenWord(l.Completed());
    EvenWord(l.reader.seen);
    SameWord(l.reader.seen, l.Completed());
  }

  lemma ReaderKeeps(l: Lock)
    requires LockInv(l) && Prompt(l, ReaderGo)
    ensures LockInv(ReaderStep(l))
  {
    hide Accepts;
    EvenWord(l.Completed());
    if l.reader.GotTicks? {
      AcceptsExactly(l);
      SmallMultiple(l.Completed() - l.reader.seen);
    }
  }

  lemma SmallMultiple(d: nat)
    ensures d < WORD / 2 && d % (WORD / 2) == 0 ==> d == 0
  {
  }

  lemma {:induction false} LockRunKeeps(l: Lock, steps: seq<LockStep>)
    requires LockInv(l) && AllPrompt(l, steps)
    ensures LockInv(LockRun(l, steps))
    decreases |steps|
  {
    if steps != [] {
      match steps[0] {
        case BeginPublish(next) =>
        case WriterGo => WriterKeeps(l);
        case ReaderGo => ReaderKeeps(l);
      }
      assert LockInv(LockStepped(l, steps[0]));
      LockRunKeeps(LockStepped(l, steps[0]), steps[1..]);
    }
  }

  /** Under every interleaving of the writer's stores with a retrying reader: each returned
      snapshot is one published pair (or the initial one), never a mixture, and reads never go
      back in publish order. */
  lemma SnapshotsAreConsistent(steps: seq<LockStep>)
    requires AllPrompt(INITIAL, steps)
    ensures var l := LockRun(INITIAL, steps);
            && (forall i :: 0 <= i < |l.returned| ==>
                  l.returned[i].index < |l.history| && l.returned[i].snapshot == l.history[l.returned[i].index])
            && (forall i, j :: 0 <= i < j < |l.returned| ==> l.returned[i].index <= l.returned[j].index)
  {
    hide LockRun, AllPrompt;
    assert LockInv(INITIAL);
    LockRunKeeps(INITIAL, steps);
  }

  /** A snapshot is never older than the last publish completed before its read began. */
  lemma SnapshotsAreFresh(l: Lock, steps: seq<LockStep>)
    requires LockInv(l) && l.reader == ReaderIdle && AllPrompt(l, steps)
    ensures var l' := LockRun(l, steps);
            && |l.returned| <= |l'.returned|
            && forall i :: |l.returned| <= i < |l'.returned| ==> l'.returned[i].index >= l.Completed()
  {
    hide LockInv;
    assert l.history != [] by { InvHistory(l); }
    FreshFrom(l, steps, |l.returned|, l.Completed());
  }

  lemma InvHistory(l: Lock)
    requires LockInv(l)
    ensures l.history != []
  {
  }

  lemma {:induction false} FreshFrom(l: Lock, steps: seq<LockStep>, k: nat, n: int)
    requires l.history != [] && l.Completed() >= n && k <= |l.returned|
    requires l.reader == ReaderIdle || l.reader.seen >= n
    requires forall i :: k <= i < |l.returned| ==> l.returned[i].index >= n
    ensures var l' := LockRun(l, steps);
            k <= |l'.returned| && forall i :: k <= i < |l'.returned| ==> l'.returned[i].index >= n
    decreases |steps|
  {
    if steps != [] { FreshFrom(LockStepped(l, steps[0]), steps[1..], k, n); }
  }

  // ---- Without the bound a mixture gets through ----

  /** One whole publish of the writer, the reader standing still. */
  function Publish(next: Snapshot): seq<LockStep> { [BeginPublish(next), WriterGo, WriterGo, WriterGo, WriterGo] }

  function Publishes(next: Snapshot, n: nat): seq<LockStep>
  {
    if n == 0 then [] else Publish(next) + Publishes(next, n - 1)
  }

  function Copies(next: Snapshot, n: nat): (r: seq<Snapshot>)
    ensures |r| == n
  {
    seq(n, _ => next)
  }

  lemma {:induction false} LockRunConcat(l: Lock, a: seq<LockStep>, b: seq<LockStep>)
    requires l.history != []
    ensures LockRun(l, a).history != [] && LockRun(l, a + b) == LockRun(LockRun(l, a), b)
    decreases |a|
  {
    hide LockStepped;
    if a == [] {
      assert a + b == b;
    } else {
      assert (a + b)[1..] == a[1..] + b;
      LockRunConcat(LockStepped(l, a[0]), a[1..], b);
    }
  }

  lemma LockRunFirst(l: Lock, step: LockStep, steps: seq<LockStep>)
    requires l.history != []
    ensures LockRun(l, [step] + steps) == LockRun(LockStepped(l, step), steps)
  {
    hide LockStepped;
    assert ([step] + steps)[1..] == steps;
  }

  lemma OnePublish(l: Lock, next: Snapshot)
    requires l.history != [] && l.writer == WriterIdle
    ensures LockRun(l, Publish(next))
            == l.(sequence := WrappingAdd(l.sequence, 2), position := next.position, hostTicks := next.hostTicks,
                  history := l.history + [next])
  {
    hide LockRun, LockStepped;
    var l1 := Stepped(l, BeginPublish(next));
    var l2 := Stepped(l1, WriterGo);
    var l3 := Stepped(l2, WriterGo);
    var l4 := Stepped(l3, WriterGo);
    var l5 := Stepped(l4, WriterGo);
    LockRunFive(l, l1, l2, l3, l4, l5, next);
  }

  lemma Stepped(l: Lock, step: LockStep) returns (l': Lock)
    requires l.history != []
    ensures l' == LockStepped(l, step) && l'.history != []
    ensures step.BeginPublish? && l.writer.WriterIdle? ==> l' == l.(writer := LoadedSeq(step.next, l.sequence))
    ensures step.WriterGo? ==> l' == WriterStep(l)
  {
    l' := LockStepped(l, step);
  }

  lemma LockRunFive(l: Lock, l1: Lock, l2: Lock, l3: Lock, l4: Lock, l5: Lock, next: Snapshot)
    requires l.history != [] && l1 == LockStepped(l, BeginPublish(next)) && l2 == LockStepped(l1, WriterGo)
    requires l3 == LockStepped(l2, WriterGo) && l4 == LockStepped(l3, WriterGo) && l5 == LockStepped(l4, WriterGo)
    ensures LockRun(l, Publish(next)) == l5
  {
    hide LockStepped, LockRun;
    var go := [WriterGo];
    assert Publish(next) == [BeginPublish(next)] + (go + (go + (go + (go + []))));
    LockRunFirst(l, BeginPublish(next), go + (go + (go + (go + []))));
    LockRunFirst(l1, WriterGo, go + (go + (go + [])));
    LockRunFirst(l2, WriterGo, go + (go + []));
    LockRunFirst(l3, WriterGo, go + []);
    LockRunFirst(l4, WriterGo, []);
    RunNothing(l5);
  }

  lemma RunNothing(l: Lock)
    requires l.history != []
    ensures LockRun(l, []) == l
  {
  }

  /** `n` whole publishes of one pair. */
  lemma {:induction false} ManyPublishes(l: Lock, next: Snapshot, n: nat)
    requires l.history != [] && l.writer == WriterIdle && l.sequence < WORD
    ensures var l' := LockRun(l, Publishes(next, n));
            && l'.sequence == (l.sequence + 2 * n) % WORD && l'.history == l.history + Copies(next, n)
            && l' == l.(sequence := l'.sequence, position := l'.position, hostTicks := l'.hostTicks,
               history := l'.history)
    decreases n
  {
    hide LockRun, LockStepped, Publish, WriterStep;
    if n == 0 {
      RunNothing(l);
    } else {
      LockRunConcat(l, Publish(next), Publishes(next, n - 1));
      OnePublish(l, next);
      var l1 := LockRun(l, Publish(next));
      ManyPublishes(l1, next, n - 1);
      assert Copies(next, n) == [next] + Copies(next, n - 1);
      assert l.history + [next] + Copies(next, n - 1) == l.history + ([next] + Copies(next, n - 1));
      WrapTwice(l.sequence, n);
    }
  }

  lemma WrapTwice(s: nat, n: nat)
    requires s < WORD && n >= 1
    ensures (WrappingAdd(s, 2) + 2 * (n - 1)) % WORD == (s + 2 * n) % WORD && WrappingAdd(s, 2) < WORD
  {
  }

  /** A read that spans exactly 2^63 publishes: it takes the position of the initial pair and the
      host time of a later one, finds the sequence number where it left it, and returns a pair that
      was never published. */
  lemma WrapsUnnoticed(next: Snapshot)
    requires next.position != 0 && next.hostTicks != 0
    ensures var steps := [ReaderGo, ReaderGo] + Publishes(next, 1) + [ReaderGo] + Publishes(next,
            WORD / 2 - 1) + [ReaderGo];
            var l := LockRun(INITIAL, steps);
            && l.returned == [Returned(Snapshot(0, next.hostTicks), 0)]
            && Snapshot(0, next.hostTicks) !in l.history
  {
    hide LockRun, Publishes, Publish, WriterStep;
    var first, last := Publishes(next, 1), Publishes(next, WORD / 2 - 1);
    var l1 := INITIAL.(reader := GotPosition(0, 0, 0));
    TwoReads();
    LockRunConcat(INITIAL, [ReaderGo, ReaderGo], first);
    ManyPublishes(l1, next, 1);
    OnePair(l1, next);
    var l2 := LockRun(l1, first);
    LockRunConcat(INITIAL, [ReaderGo, ReaderGo] + first, [ReaderGo]);
    ReadOnce(l2);
    var l3 := LockStepped(l2, ReaderGo);
    LockRunConcat(INITIAL, [ReaderGo, ReaderGo] + first + [ReaderGo], last);
    ManyPublishes(l3, next, WORD / 2 - 1);
    var l4 := LockRun(l3, last);
    LockRunConcat(INITIAL, [ReaderGo, ReaderGo] + first + [ReaderGo] + last, [ReaderGo]);
    ReadOnce(l4);
    assert l4.sequence == 0;
  }

  lemma ReadOnce(l: Lock)
    requires l.history != []
    ensures LockRun(l, [ReaderGo]) == LockStepped(l, ReaderGo)
  {
    hide LockStepped;
    LockRunFirst(l, ReaderGo, []);
    assert [ReaderGo] + [] == [ReaderGo];
    RunNothing(LockStepped(l, ReaderGo));
  }

  lemma TwoReads()
    ensures LockRun(INITIAL, [ReaderGo, ReaderGo]) == INITIAL.(reader := GotPosition(0, 0, 0))
  {
    LockRunFirst(INITIAL, ReaderGo, [ReaderGo]);
    assert [ReaderGo] + [ReaderGo] == [ReaderGo, ReaderGo];
    ReadOnce(LockStepped(INITIAL, ReaderGo));
  }

  lemma OnePair(l: Lock, next: Snapshot)
    requires l.history != [] && l.writer == WriterIdle
    ensures LockRun(l, Publishes(next, 1)).position == next.position
            && LockRun(l, Publishes(next, 1)).hostTicks == next.hostTicks
  {
    hide LockRun, Publish;
    OnePublish(l, next);
    assert Publish(next) + [] == Publish(next);
    assert Publishes(next, 0) == [];
  }
}
