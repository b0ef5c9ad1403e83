/** Tap tempo: the tempo most intervals have, and the beat that suits all the taps. */
module TapTempos {
  import opened Numbers
  import opened Clock
  import opened Observing

  const TAP_TIMEOUT_S := 2.0
  const TAPS := 8
  const OUTLIER_FRACTION := 0.25
  const BOUNCE_FRACTION := 0.35

  // ---- Sorting and medians ----

  function InsertAsc(s: seq<real>, x: real): (r: seq<real>)
    ensures |r| == |s| + 1
  {
    if s == [] || s[|s| - 1] <= x then s + [x] else InsertAsc(s[..|s| - 1], x) + [s[|s| - 1]]
  }

  function SortAsc(s: seq<real>): (r: seq<real>)
    ensures |r| == |s|
  {
    if s == [] then [] else InsertAsc(SortAsc(s[..|s| - 1]), s[|s| - 1])
  }

  ghost predicate Ascending(s: seq<real>) { forall i, j :: 0 <= i < j < |s| ==> s[i] <= s[j] }

  lemma {:induction false} InsertAscKeeps(s: seq<real>, x: real)
    ensures multiset(InsertAsc(s, x)) == multiset(s) + multiset{x}
  {
    if s != [] && s[|s| - 1] > x {
      assert s == s[..|s| - 1] + [s[|s| - 1]];
      InsertAscKeeps(s[..|s| - 1], x);
    }
  }

  lemma AppendAscending(s: seq<real>, x: real)
    requires Ascending(s) && forall y <- s :: y <= x
    ensures Ascending(s + [x])
  {
    forall i, j | 0 <= i < j < |s| + 1
      ensures (s + [x])[i] <= (s + [x])[j]
    {
      assert s[i] in s;
    }
  }

  lemma {:induction false} InsertAscSorts(s: seq<real>, x: real)
    requires Ascending(s)
    ensures Ascending(InsertAsc(s, x))
  {
    hide Ascending;
    if s == [] || s[|s| - 1] <= x {
      LastIsLargest(s);
      AppendAscending(s, x);
    } else {
      var rest, last := s[..|s| - 1], s[|s| - 1];
      LastIsLargest(s);
      InsertAscSorts(rest, x);
      forall y | y in InsertAsc(rest, x)
        ensures y <= last
      {
        InsertAscKeeps(rest, x);
        assert y in multiset(InsertAsc(rest, x));
        if y != x {
          assert y in multiset(rest);
          assert y in rest;
          assert rest <= s;
          assert y in s;
        }
      }
      AppendAscending(InsertAsc(rest, x), last);
    }
  }

  lemma LastIsLargest(s: seq<real>)
    requires Ascending(s)
    ensures s != [] ==> (forall y <- s :: y <= s[|s| - 1]) && Ascending(s[..|s| - 1])
  {
  }

  lemma {:induction false} SortAscSorts(s: seq<real>)
    ensures Ascending(SortAsc(s)) && multiset(SortAsc(s)) == multiset(s)
  {
    hide InsertAsc, Ascending;
    assert Ascending([]) by { NothingAscends(); }
    if s != [] {
      var rest, last := s[..|s| - 1], s[|s| - 1];
      assert s == rest + [last];
      SortAscSorts(rest);
      InsertAscSorts(SortAsc(rest), last);
      InsertAscKeeps(SortAsc(rest), last);
    }
  }

  lemma NothingAscends()
    ensures Ascending([])
  {
  }

  lemma SortedMember(v: seq<real>, i: nat)
    requires i < |v|
    ensures SortAsc(v)[i] in v
  {
    hide SortAsc;
    SortAscSorts(v);
    assert SortAsc(v)[i] in multiset(SortAsc(v));
  }

  function Middle(s: seq<real>): real
    requires s != []
  {
    if |s| % 2 == 1 then s[|s| / 2] else 0.5 * (s[|s| / 2 - 1] + s[|s| / 2])
  }

  function Median(v: seq<real>): real
    requires v != []
  {
    Middle(SortAsc(v))
  }

  /** How many values are at most, or at least, `m`. */
  function AtMost(v: seq<real>, m: real): nat
  {
    if v == [] then 0 else AtMost(v[..|v| - 1], m) + if v[|v| - 1] <= m then 1 else 0
  }

  function AtLeast(v: seq<real>, m: real): nat
  {
    if v == [] then 0 else AtLeast(v[..|v| - 1], m) + if v[|v| - 1] >= m then 1 else 0
  }

  lemma {:induction false} InsertCounts(s: seq<real>, x: real, m: real)
    ensures AtMost(InsertAsc(s, x), m) == AtMost(s, m) + if x <= m then 1 else 0
    ensures AtLeast(InsertAsc(s, x), m) == AtLeast(s, m) + if x >= m then 1 else 0
  {
    if s == [] || s[|s| - 1] <= x {
      assert (s + [x])[..|s|] == s;
    } else {
      var rest, last := s[..|s| - 1], s[|s| - 1];
      InsertCounts(rest, x, m);
      assert (InsertAsc(rest, x) + [last])[..|s|] == InsertAsc(rest, x);
    }
  }

  lemma {:induction false} SortCounts(v: seq<real>, m: real)
    ensures AtMost(SortAsc(v), m) == AtMost(v, m) && AtLeast(SortAsc(v), m) == AtLeast(v, m)
  {
    if v != [] {
      SortCounts(v[..|v| - 1], m);
      InsertCounts(SortAsc(v[..|v| - 1]), v[|v| - 1], m);
    }
  }

  /** In a sorted sequence, position `k` bounds how many values lie on either side. */
  lemma {:induction false} SortedCounts(s: seq<real>, k: nat, m: real)
    requires Ascending(s) && k < |s|
    ensures s[k] <= m ==> AtMost(s, m) >= k + 1
    ensures s[k] >= m ==> AtLeast(s, m) >= |s| - k
  {
    var rest, last := s[..|s| - 1], s[|s| - 1];
    if k < |rest| {
      SortedCounts(rest, k, m);
    } else if |rest| > 0 {
      assert rest[k - 1] <= last;
      SortedCounts(rest, k - 1, m);
    } else {
      assert s[..0] == [];
    }
  }

  lemma MiddleCounts(s: seq<real>)
    requires Ascending(s) && s != []
    ensures 2 * AtMost(s, Middle(s)) >= |s| && 2 * AtLeast(s, Middle(s)) >= |s|
  {
    hide AtMost, AtLeast;
    var n, m := |s|, Middle(s);
    if n % 2 == 1 {
      SortedCounts(s, n / 2, m);
    } else {
      assert s[n / 2 - 1] <= s[n / 2];
      SortedCounts(s, n / 2 - 1, m);
      SortedCounts(s, n / 2, m);
    }
  }

  /** No more than half of the values lie on either side of the median. */
  lemma MedianIsMedian(v: seq<real>)
    requires v != []
    ensures 2 * AtMost(v, Median(v)) >= |v| && 2 * AtLeast(v, Median(v)) >= |v|
  {
    hide SortAsc, AtMost, AtLeast, Ascending, Middle;
    SortAscSorts(v);
    SortCounts(v, Median(v));
    MiddleCounts(SortAsc(v));
  }

  lemma MedianInRange(v: seq<real>, lo: real, hi: real)
    requires v != [] && forall x <- v :: lo <= x <= hi
    ensures lo <= Median(v) <= hi
  {
    hide SortAsc;
    SortedMember(v, |v| / 2);
    if |v| % 2 == 0 { SortedMember(v, |v| / 2 - 1); }
  }

  lemma MedianPositive(v: seq<real>)
    requires v != [] && forall x <- v :: x > 0.0
    ensures Median(v) > 0.0
  {
    hide SortAsc;
    SortedMember(v, |v| / 2);
    if |v| % 2 == 0 { SortedMember(v, |v| / 2 - 1); }
  }

  lemma {:induction false} CountsFit(s: seq<real>, t: real)
    ensures multiset(s)[t] <= |s|
  {
    if s != [] {
      assert s == s[..|s| - 1] + [s[|s| - 1]];
      CountsFit(s[..|s| - 1], t);
    }
  }

  /** In sorted values, those equal to `t` lie beyond a smaller one and before a larger one. */
  lemma EqualOnOneSide(s: seq<real>, t: real, k: nat)
    requires Ascending(s) && k < |s|
    ensures s[k] < t ==> multiset(s)[t] <= |s| - k - 1
    ensures s[k] > t ==> multiset(s)[t] <= k
  {
    if s[k] < t {
      assert s == s[..k + 1] + s[k + 1..];
      assert t !in s[..k + 1];
      CountsFit(s[k + 1..], t);
    } else if s[k] > t {
      assert s == s[..k] + s[k..];
      assert t !in s[k..];
      CountsFit(s[..k], t);
    }
  }

  /** A value held by a strict majority is the median. */
  lemma MajorityIsMedian(v: seq<real>, t: real)
    requires 2 * multiset(v)[t] > |v|
    ensures v != [] && Median(v) == t
  {
    hide SortAsc, Ascending;
    SortAscSorts(v);
    CountsFit(v, t);
    EqualOnOneSide(SortAsc(v), t, |v| / 2);
    if |v| % 2 == 0 { EqualOnOneSide(SortAsc(v), t, |v| / 2 - 1); }
  }

  // ---- The tap sequence ----

  datatype TapState = TapState(sampleRate: real, taps: seq<real>, outliers: nat)

  function Intervals(taps: seq<real>): (v: seq<real>)
    requires taps != []
    ensures |v| == |taps| - 1
  {
    seq(|taps| - 1, i requires 0 <= i < |taps| - 1 => taps[i + 1] - taps[i])
  }

  function MedianInterval(taps: seq<real>): (m: Option<real>)
    ensures m.Some? <==> |taps| >= 2
  {
    if |taps| < 2 then None else Some(Median(Intervals(taps)))
  }

  lemma IntervalsPositive(taps: seq<real>)
    requires |taps| >= 2 && Increasing(taps)
    ensures Median(Intervals(taps)) > 0.0 && taps[|taps| - 1] - taps[|taps| - 2] > 0.0
  {
    MedianPositive(Intervals(taps));
  }

  function Forgotten(s: TapState): TapState { s.(taps := [], outliers := 0) }

  /** More than a quarter off. */
  predicate IsOff(interval: real, from: real)
    requires from != 0.0
  {
    AbsR(interval / from - 1.0) > OUTLIER_FRACTION
  }

  /** The sequence a tap joins, or `None` if the tap is ignored. */
  function Joined(s: TapState, sample: real): Option<TapState>
    requires Increasing(s.taps)
  {
    var n := |s.taps|;
    if n == 0 then Some(s)
    else
      var last := s.taps[n - 1];
      var interval := sample - last;
      if interval > TAP_TIMEOUT_S * s.sampleRate || interval < 0.0 then Some(Forgotten(s))
      else if interval == 0.0 then None
      else if n < 2 then Some(s)
      else
        var median := MedianInterval(s.taps).value;
        IntervalsPositive(s.taps);
        if interval < BOUNCE_FRACTION * median then None
        else if !IsOff(interval, median) then Some(s.(outliers := 0))
        else if s.outliers + 1 < 2 then Some(s.(outliers := s.outliers + 1))
        else if !IsOff(interval, last - s.taps[n - 2]) then Some(s.(taps := [s.taps[n - 2], last], outliers := 0))
        else Some(s.(taps := s.taps[..n - 1], outliers := 0))
  }

  function PushTap(taps: seq<real>, sample: real): seq<real>
  {
    if |taps| == TAPS then taps[1..] + [sample] else taps + [sample]
  }

  /** How far a tap is off the beats counted from the newest one. */
  function GridOffset(tap: real, newest: real, interval: real): real
    requires interval > 0.0
  {
    var beats := (tap - newest) / interval;
    (beats - Round(beats) as real) * interval
  }

  function GridOffsets(taps: seq<real>, interval: real): (v: seq<real>)
    requires taps != [] && interval > 0.0
    ensures |v| == |taps|
  {
    seq(|taps|, i requires 0 <= i < |taps| => GridOffset(taps[i], taps[|taps| - 1], interval))
  }

  function FittedLastBeat(taps: seq<real>, interval: real): real
    requires taps != [] && interval > 0.0
  {
    taps[|taps| - 1] + Median(GridOffsets(taps, interval))
  }

  function Report(s: TapState): Option<Observation>
    requires Increasing(s.taps)
  {
    var interval := MedianInterval(s.taps);
    if interval.None? then None
    else
      IntervalsPositive(s.taps);
      var bpm := 60.0 * s.sampleRate / interval.value;
      if MIN_BPM <= bpm <= MAX_BPM then
        Some(Observation(Finite(FittedLastBeat(s.taps, interval.value)), Beat(Finite(0.0)), Some(Finite(bpm))))
      else None
  }

  function TapAt(s: TapState, sample: Float): (TapState, Option<Observation>)
    requires Valid(s)
  {
    if sample.NotFinite? || Joined(s, sample.value).None? then (s, None)
    else
      var joined := Joined(s, sample.value).value;
      var s' := joined.(taps := PushTap(joined.taps, sample.value));
      TapKeeps(s, sample.value);
      (s', Report(s'))
  }

  // ---- What every tap keeps ----

  ghost predicate Increasing(taps: seq<real>) { forall i :: 1 <= i < |taps| ==> taps[i - 1] < taps[i] }

  ghost predicate Valid(s: TapState)
  {
    s.sampleRate > 0.0 && |s.taps| <= TAPS && Increasing(s.taps) && s.outliers <= 1
  }

  lemma TapKeeps(s: TapState, sample: real)
    requires Valid(s) && Joined(s, sample).Some?
    ensures var joined := Joined(s, sample).value;
            Valid(joined.(taps := PushTap(joined.taps, sample)))
  {
    hide Median, MedianInterval, IsOff;
    var joined := Joined(s, sample).value;
    assert joined.taps != [] ==> joined.taps[|joined.taps| - 1] < sample;
  }

  lemma TapAtKeeps(s: TapState, sample: Float)
    requires Valid(s)
    ensures Valid(TapAt(s, sample).0)
  {
    hide Joined, Report, PushTap;
    if sample.Finite? && Joined(s, sample.value).Some? { TapKeeps(s, sample.value); }
  }

  /** An offset from the grid is at most half an interval. */
  lemma GridOffsetSmall(tap: real, newest: real, interval: real)
    requires interval > 0.0
    ensures -interval / 2.0 <= GridOffset(tap, newest, interval) <= interval / 2.0
  {
    var beats := (tap - newest) / interval;
    var d := beats - Round(beats) as real;
    RoundNear(beats);
    var offset := Share(d, interval);
    assert GridOffset(tap, newest, interval) == offset;
  }

  lemma Share(d: real, interval: real) returns (part: real)
    requires interval > 0.0 && -0.5 <= d <= 0.5
    ensures part == d * interval && -interval / 2.0 <= part <= interval / 2.0
  {
    part := d * interval;
    AtMostHalf(d, interval);
    AtLeastHalf(d, interval);
  }

  lemma AtMostHalf(d: real, interval: real)
    requires interval > 0.0 && d <= 0.5
    ensures d * interval <= 0.5 * interval
  {
  }

  lemma AtLeastHalf(d: real, interval: real)
    requires interval > 0.0 && d >= -0.5
    ensures d * interval >= -0.5 * interval
  {
  }

  /** Whatever was tapped before: a tap that is taken becomes the newest; a report's tempo is
      that of the true median of the intervals, so a strict majority of equal intervals decides
      it alone; and the reported beat lies within half an interval of the tap. */
  lemma TapReports(s: TapState, sample: Float)
    requires Valid(s)
    ensures var (s', out) := TapAt(s, sample);
            out.Some? ==>
              && Valid(s') && sample.Finite? && |s'.taps| >= 2 && s'.taps[|s'.taps| - 1] == sample.value
              && var v, bpm, at := Intervals(s'.taps), out.value.bpm.value.value, out.value.sample.value;
                 var m := Median(v);
                 && m > 0.0 && bpm == 60.0 * s.sampleRate / m && MIN_BPM <= bpm <= MAX_BPM
                 && 2 * AtMost(v, m) >= |v| && 2 * AtLeast(v, m) >= |v|
                 && (forall t :: 2 * multiset(v)[t] > |v| ==> m == t)
                 && sample.value - m / 2.0 <= at <= sample.value + m / 2.0
  {
    hide Median, IsOff, GridOffset, AtMost, AtLeast, Intervals, FittedLastBeat;
    var (s', out) := TapAt(s, sample);
    if out.Some? {
      TapKeeps(s, sample.value);
      JoinedSame(s, sample.value);
      var v := Intervals(s'.taps);
      IntervalsPositive(s'.taps);
      MedianIsMedian(v);
      forall t | 2 * multiset(v)[t] > |v|
        ensures Median(v) == t
      {
        MajorityIsMedian(v, t);
      }
      BeatNear(s'.taps, Median(v));
    }
  }

  /** A first tap reports nothing, a second one the tempo of a beat between them, with a beat on itself. */
  lemma TwoTaps(sampleRate: real, a: real, b: real)
    requires sampleRate > 0.0 && a < b <= a + TAP_TIMEOUT_S * sampleRate
    requires MIN_BPM <= 60.0 * sampleRate / (b - a) <= MAX_BPM
    ensures var silent := TapState(sampleRate, [], 0);
            && Valid(silent) && TapAt(silent, Finite(a)) == (TapState(sampleRate, [a], 0), None)
            && Valid(TapState(sampleRate, [a], 0))
            && TapAt(TapState(sampleRate, [a], 0), Finite(b))
               == (TapState(sampleRate, [a, b], 0),
                   Some(Observation(Finite(b), Beat(Finite(0.0)), Some(Finite(60.0 * sampleRate / (b - a))))))
  {
    assert PushTap([], a) == [a] && PushTap([a], b) == [a, b];
    var v := Intervals([a, b]);
    assert v == [b - a] && Median(v) == b - a by { OneValue(b - a); }
    var offsets := GridOffsets([a, b], b - a);
    assert GridOffset(b, b, b - a) == 0.0;
    assert GridOffset(a, b, b - a) == 0.0 by { WholeBeat(a, b); }
    assert offsets == [0.0, 0.0];
    NoOffsets();
  }

  lemma OneValue(x: real)
    ensures Median([x]) == x
  {
    assert SortAsc([x]) == [x];
  }

  lemma NoOffsets()
    ensures Median([0.0, 0.0]) == 0.0
  {
    assert [0.0, 0.0][..1] == [0.0];
    assert SortAsc([0.0]) == [0.0];
    assert SortAsc([0.0, 0.0]) == [0.0, 0.0];
  }

  lemma WholeBeat(a: real, b: real)
    requires a < b
    ensures GridOffset(a, b, b - a) == 0.0
  {
    assert (a - b) / (b - a) == -1.0;
  }

  lemma JoinedSame(s: TapState, sample: real)
    requires Increasing(s.taps)
    ensures Joined(s, sample).Some? ==> Joined(s, sample).value.sampleRate == s.sampleRate
  {
  }

  lemma BeatNear(taps: seq<real>, interval: real)
    requires taps != [] && interval > 0.0
    ensures var newest := taps[|taps| - 1];
            newest - interval / 2.0 <= FittedLastBeat(taps, interval) <= newest + interval / 2.0
  {
    hide Median, GridOffset;
    var v := GridOffsets(taps, interval);
    forall x | x in v
      ensures -interval / 2.0 <= x <= interval / 2.0
    {
      var i :| 0 <= i < |v| && v[i] == x;
      GridOffsetSmall(taps[i], taps[|taps| - 1], interval);
    }
    MedianInRange(v, -interval / 2.0, interval / 2.0);
  }

  function TapAll(s: TapState, samples: seq<Float>): (s': TapState)
    requires Valid(s)
    ensures Valid(s')
    decreases |samples|
  {
    if samples == [] then s
    else
      TapAtKeeps(s, samples[0]);
      TapAll(TapAt(s, samples[0]).0, samples[1..])
  }

  /** In every reachable state there are at most eight taps, strictly increasing. */
  lemma ReachableTaps(sampleRate: real, samples: seq<Float>)
    requires sampleRate > 0.0
    ensures Valid(TapState(sampleRate, [], 0))
    ensures var s := TapAll(TapState(sampleRate, [], 0), samples);
            |s.taps| <= TAPS && forall i, j :: 0 <= i < j < |s.taps| ==> s.taps[i] < s.taps[j]
  {
    var s := TapAll(TapState(sampleRate, [], 0), samples);
    forall i, j | 0 <= i < j < |s.taps|
      ensures s.taps[i] < s.taps[j]
    {
      InOrder(s.taps, i, j);
    }
  }

  lemma {:induction false} InOrder(taps: seq<real>, i: nat, j: nat)
    requires Increasing(taps) && i < j < |taps|
    ensures taps[i] < taps[j]
    decreases j
  {
    if i < j - 1 { InOrder(taps, i, j - 1); }
  }

  // ---- In place ----

  /** Insertion sort of the first `n` entries. */
  method SortFirst(v: array<real>, n: nat)
    requires n <= v.Length
    modifies v
    ensures v[..n] == SortAsc(old(v[..n]))
  {
    hide SortAsc, InsertAsc;
    ghost var all := v[..n];
    SortNone();
    for k := 0 to n
      invariant v[..k] == SortAsc(all[..k])
      invariant v[k..n] == all[k..n]
    {
      SortNext(all, k);
      assert v[k] == all[k] by { assert v[k..n][0] == all[k..n][0]; }
      ghost var later := v[k + 1..n];
      assert later == all[k + 1..n] by { assert v[k..n][1..] == all[k..n][1..]; }
      InsertLast(v, k);
      assert v[k + 1..n] == later;
    }
    assert all[..n] == all;
  }

  lemma SortNone()
    ensures SortAsc([]) == []
  {
  }

  lemma SortNext(all: seq<real>, k: nat)
    requires k < |all|
    ensures SortAsc(all[..k + 1]) == InsertAsc(SortAsc(all[..k]), all[k])
  {
    assert all[..k + 1][..k] == all[..k];
  }

  /** Moves entry `k` down to its place among the `k` sorted entries before it. */
  method InsertLast(v: array<real>, k: nat)
    requires k < v.Length
    modifies v
    ensures v[..k + 1] == InsertAsc(old(v[..k]), old(v[k]))
    ensures v[k + 1..] == old(v[k + 1..])
  {
    hide InsertAsc;
    var x, i := v[k], k;
    ghost var before := v[..k];
    ghost var moved: seq<real> := [];
    while i > 0 && v[i - 1] > x
      invariant i <= k && |moved| == k - i && v[..i] == before[..i]
      invariant forall p :: i < p <= k ==> v[p] == moved[p - i - 1]
      invariant v[k + 1..] == old(v[k + 1..])
      invariant InsertAsc(before, x) == InsertAsc(before[..i], x) + moved
    {
      assert v[i - 1] == before[i - 1] by { assert v[..i][i - 1] == before[..i][i - 1]; }
      InsertBefore(before, i, x);
      moved := [before[i - 1]] + moved;
      v[i] := v[i - 1];
      i := i - 1;
    }
    if i > 0 { assert v[i - 1] == before[i - 1] by { assert v[..i][i - 1] == before[..i][i - 1]; } }
    InsertHere(before[..i], x);
    v[i] := x;
    assert v[..k + 1] == before[..i] + [x] + moved;
  }

  lemma InsertBefore(s: seq<real>, i: nat, x: real)
    requires 1 <= i <= |s| && s[i - 1] > x
    ensures InsertAsc(s[..i], x) == InsertAsc(s[..i - 1], x) + [s[i - 1]]
  {
    assert s[..i][..i - 1] == s[..i - 1];
  }

  lemma InsertHere(s: seq<real>, x: real)
    requires s == [] || s[|s| - 1] <= x
    ensures InsertAsc(s, x) == s + [x]
  {
  }

  class TapTempo {
    const sampleRate: real
    const taps: array<real>
    var count: nat
    var outliers: nat

    ghost predicate Ok()
      reads this, taps
    {
      taps.Length == TAPS && count <= TAPS && Valid(Value())
    }

    ghost function Value(): TapState
      reads this, taps
      requires count <= taps.Length
    {
      TapState(sampleRate, taps[..count], outliers)
    }

    constructor (sampleRate: real)
      requires sampleRate > 0.0
      ensures Ok() && fresh(taps) && Value() == TapState(sampleRate, [], 0)
    {
      this.sampleRate := sampleRate;
      taps := new real[TAPS](_ => 0.0);
      count, outliers := 0, 0;
    }

    /** Forgets all taps. */
    method Reset()
      requires count <= taps.Length
      modifies this
      ensures count == 0 && Value() == Forgotten(old(Value()))
    {
      count, outliers := 0, 0;
    }

    /** Takes one tap into the sequence. */
    method Tap(sample: Float) returns (out: Option<Observation>)
      requires Ok()
      modifies this, taps
      ensures Ok() && (Value(), out) == TapAt(old(Value()), sample)
    {
      hide Joined, Report, PushTap, Valid, Forgotten;
      if sample.NotFinite? { return None; }
      var joins := Join(sample.value);
      if !joins { return None; }
      TapKeeps(old(Value()), sample.value);
      Push(sample.value);
      out := Reported();
    }

    /** Decides what becomes of the sequence; `false` if the tap is ignored. */
    method Join(sample: real) returns (joins: bool)
      requires Ok()
      modifies this, taps
      ensures count <= taps.Length
      ensures var joined := Joined(old(Value()), sample);
              joins == joined.Some? && Value() == if joins then joined.value else old(Value())
    {
      hide Median, IsOff;
      joins := true;
      if count > 0 {
        var last := taps[count - 1];
        var interval := sample - last;
        if interval > TAP_TIMEOUT_S * sampleRate || interval < 0.0 {
          Reset();
        } else if interval == 0.0 {
          return false;
        } else if count >= 2 {
          IntervalsPositive(taps[..count]);
          var median := MedianOfIntervals();
          if interval < BOUNCE_FRACTION * median { return false; }
          if IsOff(interval, median) {
            outliers := outliers + 1;
            if outliers >= 2 {
              var previous := last - taps[count - 2];
              if !IsOff(interval, previous) {
                taps[0], taps[1] := taps[count - 2], last;
                count := 2;
              } else {
                count := count - 1;
              }
              outliers := 0;
            }
          } else {
            outliers := 0;
          }
        }
      }
    }

    method Push(sample: real)
      requires taps.Length == TAPS && count <= TAPS
      modifies this`count, taps
      ensures count <= TAPS && Value() == old(Value()).(taps := PushTap(old(Value()).taps, sample))
    {
      if count == TAPS {
        for i := 0 to TAPS - 1
          invariant count == TAPS && forall k :: 0 <= k < i ==> taps[k] == old(taps[k + 1])
          invariant forall k :: i <= k < TAPS ==> taps[k] == old(taps[k])
        {
          taps[i] := taps[i + 1];
        }
        count := count - 1;
      }
      taps[count] := sample;
      count := count + 1;
    }

    /** Sorts the gaps between taps and picks the middle. */
    method MedianOfIntervals() returns (median: real)
      requires Ok() && count >= 2
      ensures median == Median(Intervals(taps[..count]))
    {
      hide Middle, SortAsc, Valid;
      ghost var intervals := Intervals(taps[..count]);
      var v, n := new real[TAPS - 1], count - 1;
      for i := 0 to n
        invariant forall k :: 0 <= k < i ==> v[k] == intervals[k]
      {
        v[i] := taps[i + 1] - taps[i];
      }
      assert v[..n] == intervals;
      SortFirst(v, n);
      median := MiddleOf(v, n);
    }

    /** Fits a beat to all taps, near the last one. */
    method FitLastBeat(interval: real) returns (beat: real)
      requires Ok() && count >= 1 && interval > 0.0
      ensures beat == FittedLastBeat(taps[..count], interval)
    {
      hide GridOffset, SortAsc, Valid;
      var newest, v, n := taps[count - 1], new real[TAPS], count;
      for i := 0 to n
        invariant forall k :: 0 <= k < i ==> v[k] == GridOffset(taps[k], newest, interval)
      {
        v[i] := GridOffset(taps[i], newest, interval);
      }
      assert v[..n] == GridOffsets(taps[..count], interval);
      SortFirst(v, n);
      var median := MiddleOf(v, n);
      beat := newest + median;
    }

    static method MiddleOf(v: array<real>, n: nat) returns (median: real)
      requires 1 <= n <= v.Length
      ensures median == Middle(v[..n])
    {
      median := if n % 2 == 1 then v[n / 2] else 0.5 * (v[n / 2 - 1] + v[n / 2]);
    }

    method Reported() returns (out: Option<Observation>)
      requires Ok()
      ensures out == Report(Value())
    {
      hide Median, FittedLastBeat, Intervals;
      if count < 2 { return None; }
      IntervalsPositive(taps[..count]);
      var interval := MedianOfIntervals();
      var bpm := 60.0 * sampleRate / interval;
      if !(MIN_BPM <= bpm <= MAX_BPM) { return None; }
      var beat := FitLastBeat(interval);
      out := Some(Observation(Finite(beat), Beat(Finite(0.0)), Some(Finite(bpm))));
    }
  }
}
