/** The most recently scheduled steps, with the samples they were queued at. */
module QueuedLogs {
  import opened Numbers
  import opened Rings

  const QUEUED_MEMORY := 32

  /** One scheduled step: its earliest event (a grace note, else the hit) and its grid hit. */
  datatype Queued = Queued(step: nat, first: nat, sample: nat)

  /** The cut through the queued steps at a jump. */
  datatype Cut = Cut(flush: nat, heard: Option<Queued>, dropped: Option<nat>)

  // ---- On the remembered steps, oldest first ----

  function Remember(log: seq<Queued>, q: Queued): seq<Queued>
  {
    if |log| < QUEUED_MEMORY then log + [q] else log[1..] + [q]
  }

  /** The log without its newest steps, those with a hit at or behind the flush. */
  function FlushFrom(log: seq<Queued>, sample: nat): seq<Queued>
  {
    if log != [] && log[|log| - 1].sample >= sample then FlushFrom(log[..|log| - 1], sample) else log
  }

  function CutFrom(log: seq<Queued>, flush: nat, heard: Option<Queued>): Cut
  {
    if log == [] then Cut(flush, heard, None)
    else if log[0].first < flush then CutFrom(log[1..], Max(flush, log[0].sample + 1), Some(log[0]))
    else Cut(flush, heard, Some(log[0].step))
  }

  /** Queued positions only grow, and a grace note precedes its hit. */
  ghost predicate LogSorted(log: seq<Queued>)
  {
    && (forall i :: 0 <= i < |log| ==> log[i].first <= log[i].sample)
    && (forall i, j :: 0 <= i < j < |log| ==> log[i].first <= log[j].first && log[i].sample <= log[j].sample)
  }

  /** A flush at `f` would take the hit of a step but leave its grace note. */
  predicate Splits(q: Queued, f: nat) { q.first < f <= q.sample }

  ghost predicate SplitsSome(log: seq<Queued>, f: nat)
  {
    exists i :: 0 <= i < |log| && Splits(log[i], f)
  }

  /** How many of the oldest steps are heard whole. */
  function HeardCount(log: seq<Queued>, flush: nat): (n: nat)
    ensures n <= |log|
  {
    if log == [] || log[0].first >= flush then 0
    else 1 + HeardCount(log[1..], Max(flush, log[0].sample + 1))
  }

  /** `f` is a flush point that splits no step, and no earlier one from `commit` on is. */
  ghost predicate IsLeastCut(log: seq<Queued>, commit: nat, f: nat)
  {
    && f >= commit
    && (forall i :: 0 <= i < |log| ==> !Splits(log[i], f))
    && (forall g: nat :: commit <= g < f ==> SplitsSome(log, g))
  }

  lemma CutStep(log: seq<Queued>, k: nat, flush: nat, heard: Option<Queued>)
    requires k < |log|
    ensures CutFrom(log[k..], flush, heard)
            == if log[k].first < flush then CutFrom(log[k + 1..], Max(flush, log[k].sample + 1), Some(log[k]))
               else Cut(flush, heard, Some(log[k].step))
  {
    assert log[k..][1..] == log[k + 1..];
  }

  lemma CutEnd(log: seq<Queued>, flush: nat, heard: Option<Queued>)
    requires log == []
    ensures CutFrom(log, flush, heard) == Cut(flush, heard, None)
  {
  }

  /** What the cut says of a log of which the first `n` steps are heard. */
  ghost predicate CutsAt(log: seq<Queued>, n: nat, flush: nat)
    requires n <= |log|
  {
    && (forall i :: 0 <= i < n ==> log[i].sample < flush)
    && (forall i :: n <= i < |log| ==> log[i].first >= flush)
  }

  lemma CutsAtNone(log: seq<Queued>, flush: nat)
    requires LogSorted(log) && (log != [] ==> log[0].first >= flush)
    ensures CutsAt(log, 0, flush)
  {
  }

  lemma CutsAtMore(log: seq<Queued>, n: nat, flush: nat)
    requires log != [] && n < |log| && log[0].sample < flush && CutsAt(log[1..], n, flush)
    ensures CutsAt(log, n + 1, flush)
  {
    forall i | 1 <= i < |log|
      ensures log[i] == log[1..][i - 1]
    {
    }
  }

  lemma SortedTail(log: seq<Queued>)
    requires LogSorted(log) && log != []
    ensures LogSorted(log[1..])
  {
  }

  lemma {:induction false} CutShape(log: seq<Queued>, commit: nat, heard: Option<Queued>)
    requires LogSorted(log)
    ensures var cut, n := CutFrom(log, commit, heard), HeardCount(log, commit);
            && cut.flush >= commit && CutsAt(log, n, cut.flush)
            && cut.heard == (if n > 0 then Some(log[n - 1]) else heard)
            && cut.dropped == (if n < |log| then Some(log[n].step) else None)
    decreases |log|
  {
    hide LogSorted, CutsAt;
    if log != [] && log[0].first < commit {
      SortedTail(log);
      var rest, later := log[1..], Max(commit, log[0].sample + 1);
      CutShape(rest, later, Some(log[0]));
      CutsAtMore(log, HeardCount(rest, later), CutFrom(rest, later, Some(log[0])).flush);
    } else {
      CutsAtNone(log, commit);
    }
  }

  lemma {:induction false} CutIsTight(log: seq<Queued>, commit: nat, heard: Option<Queued>, g: nat)
    requires commit <= g < CutFrom(log, commit, heard).flush
    ensures SplitsSome(log, g)
    decreases |log|
  {
    var rest, later := log[1..], Max(commit, log[0].sample + 1);
    if g < later {
      assert Splits(log[0], g);
    } else {
      CutIsTight(rest, later, Some(log[0]), g);
      var i :| 0 <= i < |rest| && Splits(rest[i], g);
      assert Splits(log[i + 1], g);
    }
  }

  /** The cut splits the remembered steps into a prefix heard whole and a rest dropped whole,
      names the last of the one and the first of the other, and flushes at the least point
      that splits nothing. */
  lemma CutIsLeast(log: seq<Queued>, commit: nat)
    requires LogSorted(log)
    ensures var cut, n := CutFrom(log, commit, None), HeardCount(log, commit);
            && IsLeastCut(log, commit, cut.flush)
            && cut.heard == (if n > 0 then Some(log[n - 1]) else None)
            && cut.dropped == (if n < |log| then Some(log[n].step) else None)
            && (forall i :: 0 <= i < n ==> log[i].sample < cut.flush)
            && (forall i :: n <= i < |log| ==> log[i].first >= cut.flush)
  {
    CutShape(log, commit, None);
    forall g: nat | commit <= g < CutFrom(log, commit, None).flush
      ensures SplitsSome(log, g)
    {
      CutIsTight(log, commit, None, g);
    }
  }

  /** After the flush, exactly the heard prefix is remembered. */
  lemma {:induction false} FlushKeepsPrefix(log: seq<Queued>, n: nat, flush: nat)
    requires n <= |log|
    requires forall i :: 0 <= i < n ==> log[i].sample < flush
    requires forall i :: n <= i < |log| ==> log[i].sample >= flush
    ensures FlushFrom(log, flush) == log[..n]
    decreases |log|
  {
    if n < |log| {
      FlushKeepsPrefix(log[..|log| - 1], n, flush);
      assert log[..|log| - 1][..n] == log[..n];
    } else {
      assert log[..n] == log;
    }
  }

  lemma FlushAfterCut(log: seq<Queued>, commit: nat)
    requires LogSorted(log)
    ensures FlushFrom(log, CutFrom(log, commit, None).flush) == log[..HeardCount(log, commit)]
  {
    CutIsLeast(log, commit);
    FlushKeepsPrefix(log, HeardCount(log, commit), CutFrom(log, commit, None).flush);
  }

  /** What counts as heard once stays heard: a later commit point never drops a step an
      earlier one kept. */
  lemma {:induction false} HeardGrows(log: seq<Queued>, commit: nat, later: nat)
    requires commit <= later
    ensures HeardCount(log, commit) <= HeardCount(log, later)
    decreases |log|
  {
    if log != [] && log[0].first < commit {
      HeardGrows(log[1..], Max(commit, log[0].sample + 1), Max(later, log[0].sample + 1));
    }
  }

  lemma FlushNewest(log: seq<Queued>, sample: nat)
    ensures FlushFrom(log, sample)
            == if log != [] && log[|log| - 1].sample >= sample then FlushFrom(log[..|log| - 1], sample) else log
  {
  }

  /** The cut of the `i` newest entries, by its newest-but-`i` entry. */
  lemma CutNext(log: seq<Queued>, i: nat, cut: Cut)
    requires 1 <= i <= |log| && cut.dropped == None
    ensures var q := log[|log| - i];
            CutFrom(log[|log| - i..], cut.flush, cut.heard)
            == if q.first < cut.flush then CutFrom(log[|log| - i + 1..], Max(cut.flush, q.sample + 1), Some(q))
               else cut.(dropped := Some(q.step))
  {
    CutStep(log, |log| - i, cut.flush, cut.heard);
  }

  class QueuedLog {
    var entries: array<Queued>
    var head: nat
    var len: nat

    ghost predicate Valid()
      reads this
    {
      entries.Length == QUEUED_MEMORY && head < QUEUED_MEMORY && len <= QUEUED_MEMORY
    }

    /** The remembered steps, oldest first. */
    ghost function Contents(): (s: seq<Queued>)
      reads this, entries
      requires Valid()
      ensures |s| == len
    {
      Window(entries[..], head, len)
    }

    constructor ()
      ensures Valid() && fresh(entries) && Contents() == []
    {
      entries := new Queued[QUEUED_MEMORY](_ => Queued(0, 0, 0));
      head, len := 0, 0;
    }

    method Push(q: Queued)
      requires Valid()
      modifies this`head, this`len, entries
      ensures Valid() && Contents() == Remember(old(Contents()), q)
    {
      WindowPush(entries[..], head, len, q);
      entries[head] := q;
      head := (head + 1) % QUEUED_MEMORY;
      len := Min(len + 1, QUEUED_MEMORY);
    }

    /** Counts back from the newest entry, which is number 0. */
    method Newest(i: nat) returns (q: Queued)
      requires Valid() && i < len
      ensures q == Contents()[len - 1 - i]
    {
      q := entries[(head + 2 * QUEUED_MEMORY - 1 - i) % QUEUED_MEMORY];
    }

    method Flush(sample: nat)
      requires Valid()
      modifies this`head, this`len
      ensures Valid() && Contents() == FlushFrom(old(Contents()), sample)
    {
      hide FlushFrom;
      ghost var log := Contents();
      assert log[..len] == log;
      while len > 0
        invariant Valid() && len <= |log| && Contents() == log[..len]
        invariant FlushFrom(log[..len], sample) == FlushFrom(log, sample)
      {
        var newest := Newest(0);
        FlushNewest(log[..len], sample);
        assert log[..len][..len - 1] == log[..len - 1];
        if newest.sample < sample { return; }
        WindowPop(entries[..], head, len);
        head := (head + QUEUED_MEMORY - 1) % QUEUED_MEMORY;
        len := len - 1;
      }
      FlushNewest([], sample);
    }

    method CutAt(commit: nat) returns (cut: Cut)
      requires Valid()
      ensures cut == CutFrom(Contents(), commit, None)
    {
      hide Rings.Window, CutFrom, LogSorted, IsLeastCut;
      ghost var log := Contents();
      ghost var whole := CutFrom(log, commit, None);
      assert log[|log| - len..] == log;
      cut := Cut(commit, None, None);
      var i := len;
      while i > 0
        invariant 0 <= i <= len && cut.dropped == None
        invariant CutFrom(log[|log| - i..], cut.flush, cut.heard) == whole
      {
        CutNext(log, i, cut);
        i := i - 1;
        var q := Newest(i);
        if q.first >= cut.flush {
          cut := cut.(dropped := Some(q.step));
          assert cut == whole;
          break;
        }
        cut := cut.(flush := Max(cut.flush, q.sample + 1), heard := Some(q));
      }
      if cut.dropped == None { CutEnd(log[|log|..], cut.flush, cut.heard); }
    }
  }
}
