/** The beat a tap report names lies on the grid that most of the taps share. */
module TapGrids {
  import opened Numbers
  import opened Clock
  import opened Observing
  import opened TapTempos

  /** A whole number of intervals from `start`. */
  ghost predicate OnGrid(x: real, start: real, interval: real)
  {
    exists k: int :: x == Line(start, interval, k)
  }

  function Line(start: real, interval: real, k: int): real { start + interval * k as real }

  /** How many of the taps are. */
  ghost function OnCount(taps: seq<real>, start: real, interval: real): (n: nat)
    ensures n <= |taps|
  {
    if taps == [] then 0
    else OnCount(taps[..|taps| - 1], start, interval) + if OnGrid(taps[|taps| - 1], start, interval) then 1 else 0
  }

  // ---- Taps of one grid have one offset ----

  /** Up to 0 rounding goes to the nearest, halves down, so it moves with whole numbers. */
  lemma RoundMoves(x: real, n: int)
    requires x <= 0.0 && x + n as real <= 0.0
    ensures Round(x + n as real) == Round(x) + n
  {
  }

  lemma SameOffsets(a: real, b: real, newest: real, start: real, interval: real)
    requires interval > 0.0 && a <= newest && b <= newest
    requires OnGrid(a, start, interval) && OnGrid(b, start, interval)
    ensures GridOffset(a, newest, interval) == GridOffset(b, newest, interval)
    ensures OnGrid(newest + GridOffset(a, newest, interval), start, interval)
  {
    var i: int :| a == Line(start, interval, i);
    var j: int :| b == Line(start, interval, j);
    var x, y := (a - newest) / interval, (b - newest) / interval;
    BeatsApart(a - newest, b - newest, interval, j - i);
    RoundMoves(x, j - i);
    var r := Round(x);
    OffsetOf(a, newest, interval, x, r);
    OffsetOf(b, newest, interval, y, r + (j - i));
    GridShift(start, interval, i, r);
    GridShift(start, interval, j, r + (j - i));
    assert newest + GridOffset(a, newest, interval) == Line(start, interval, i - r);
  }

  lemma BeatsApart(a: real, b: real, interval: real, n: int)
    requires interval > 0.0 && a <= 0.0 && b <= 0.0 && b == a + interval * n as real
    ensures b / interval == a / interval + n as real && a / interval <= 0.0 && b / interval <= 0.0
  {
    var q := a / interval;
    DivPos(a, interval);
    NotPositive(a, interval);
    NotPositive(b, interval);
    MulThenDiv(q + n as real, interval);
    assert (q + n as real) * interval == q * interval + interval * n as real;
  }

  lemma NotPositive(x: real, d: real)
    requires d > 0.0 && x <= 0.0
    ensures x / d <= 0.0
  {
    DivPos(x, d);
    MulLess(0.0, x / d, d);
  }

  lemma OffsetOf(tap: real, newest: real, interval: real, beats: real, r: int)
    requires interval > 0.0 && beats == (tap - newest) / interval && r == Round(beats)
    ensures GridOffset(tap, newest, interval) == tap - newest - interval * r as real
  {
    DivPos(tap - newest, interval);
    assert (beats - r as real) * interval == beats * interval - interval * r as real;
  }

  lemma GridShift(start: real, interval: real, i: int, r: int)
    ensures Line(start, interval, i) - interval * r as real == Line(start, interval, i - r)
  {
    assert interval * (i - r) as real == interval * i as real - interval * r as real;
  }

  // ---- A majority decides ----

  lemma {:induction false} OffsetsCount(v: seq<real>, taps: seq<real>, start: real, interval: real, d: real)
    requires |v| == |taps| && forall i :: 0 <= i < |taps| && OnGrid(taps[i], start, interval) ==> v[i] == d
    ensures multiset(v)[d] >= OnCount(taps, start, interval)
  {
    hide OnGrid;
    if taps != [] {
      var n := |taps| - 1;
      assert v == v[..n] + [v[n]];
      OffsetsCount(v[..n], taps[..n], start, interval, d);
    }
  }

  lemma {:induction false} SomeOn(taps: seq<real>, start: real, interval: real) returns (i: nat)
    requires OnCount(taps, start, interval) > 0
    ensures i < |taps| && OnGrid(taps[i], start, interval)
  {
    hide OnGrid;
    var n := |taps| - 1;
    if OnGrid(taps[n], start, interval) {
      i := n;
    } else {
      i := SomeOn(taps[..n], start, interval);
    }
  }

  lemma {:induction false} NewestIsLast(taps: seq<real>, i: nat)
    requires Increasing(taps) && i < |taps|
    ensures taps[i] <= taps[|taps| - 1]
    decreases |taps| - i
  {
    if i + 1 < |taps| { NewestIsLast(taps, i + 1); }
  }

  /** If more than half of the taps are on one grid of the interval, the beat is on it too. */
  lemma MajorityGrid(taps: seq<real>, interval: real, start: real)
    requires taps != [] && Increasing(taps) && interval > 0.0 && 2 * OnCount(taps, start, interval) > |taps|
    ensures OnGrid(FittedLastBeat(taps, interval), start, interval)
  {
    hide OnGrid, GridOffset, Median, OnCount, Increasing;
    var newest, v := taps[|taps| - 1], GridOffsets(taps, interval);
    var a := SomeOn(taps, start, interval);
    var d := GridOffset(taps[a], newest, interval);
    NewestIsLast(taps, a);
    forall i | 0 <= i < |taps| && OnGrid(taps[i], start, interval)
      ensures v[i] == d
    {
      NewestIsLast(taps, i);
      SameOffsets(taps[i], taps[a], newest, start, interval);
    }
    OffsetsCount(v, taps, start, interval, d);
    MajorityIsMedian(v, d);
    SameOffsets(taps[a], taps[a], newest, start, interval);
  }

  /** Whatever was tapped before: if more than half of the taps the report rests on lie on one grid of
      its own interval, the beat it names lies on that grid, however far off it the newest tap is. */
  lemma ReportOnGrid(s: TapState, sample: Float, start: real)
    requires Valid(s)
    ensures var (s', out) := TapAt(s, sample);
            out.Some? ==>
              && Valid(s') && |s'.taps| >= 2 && out.value.sample.Finite? && out.value.bpm.Some?
              && out.value.bpm.value.Finite? && out.value.bpm.value.value > 0.0
              && var interval := 60.0 * s.sampleRate / out.value.bpm.value.value;
                 2 * OnCount(s'.taps, start, interval) > |s'.taps| ==>
                   OnGrid(out.value.sample.value, start, interval)
  {
    hide OnGrid, OnCount, IsOff, Median, FittedLastBeat;
    var (s', out) := TapAt(s, sample);
    if out.Some? {
      TapKeeps(s, sample.value);
      JoinedSame(s, sample.value);
      IntervalsPositive(s'.taps);
      var interval := MedianInterval(s'.taps).value;
      IntervalBack(s.sampleRate, interval);
      if 2 * OnCount(s'.taps, start, interval) > |s'.taps| { MajorityGrid(s'.taps, interval, start); }
    }
  }

  lemma IntervalBack(sampleRate: real, interval: real)
    requires sampleRate > 0.0 && interval > 0.0
    ensures var bpm := 60.0 * sampleRate / interval; bpm > 0.0 && 60.0 * sampleRate / bpm == interval
  {
    var x := 60.0 * sampleRate;
    DivPos(x, interval);
    var bpm := x / interval;
    assert x == interval * bpm;
    MulThenDiv(interval, bpm);
  }

  /** Of three taps or more, the newest alone never moves the grid the others share. */
  lemma NewestCannotMove(taps: seq<real>, interval: real, start: real)
    requires |taps| >= 3 && Increasing(taps) && interval > 0.0
    requires forall i :: 0 <= i < |taps| - 1 ==> OnGrid(taps[i], start, interval)
    ensures OnGrid(FittedLastBeat(taps, interval), start, interval)
  {
    hide OnGrid, FittedLastBeat, Increasing;
    AllOn(taps[..|taps| - 1], start, interval);
    MajorityGrid(taps, interval, start);
  }

  lemma {:induction false} AllOn(taps: seq<real>, start: real, interval: real)
    requires forall i :: 0 <= i < |taps| ==> OnGrid(taps[i], start, interval)
    ensures OnCount(taps, start, interval) == |taps|
  {
    hide OnGrid;
    if taps != [] { AllOn(taps[..|taps| - 1], start, interval); }
  }
}
