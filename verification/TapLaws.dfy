/** What the tap sequence makes of a player: steady taps, a bounce, a tap out of time, a new tempo, a pause. */
module TapLaws {
  import opened Numbers
  import opened Clock
  import opened Observing
  import opened TapTempos

  /** Taps a fixed interval apart, the newest at `last`. */
  ghost predicate Even(taps: seq<real>, interval: real, last: real)
  {
    taps != [] && forall i :: 0 <= i < |taps| ==> taps[i] == Back(last, interval, |taps| - 1 - i)
  }

  /** `n` beats before `last`. */
  function Back(last: real, interval: real, n: int): real { last - interval * n as real }

  lemma OneOn(last: real, interval: real, n: int)
    ensures Back(last + interval, interval, n) == Back(last, interval, n - 1)
    ensures Back(last, interval, 0) == last
  {
    Apart(interval, n);
  }

  /** A tempo taps can have: in range, and so within the timeout. */
  predicate Playable(sampleRate: real, interval: real)
  {
    sampleRate > 0.0 && interval > 0.0 && 20.0 <= 60.0 * sampleRate / interval <= 400.0 && interval <= 2.0 * sampleRate
  }

  /** A player in time: up to eight taps, none out of line. */
  ghost predicate InTime(s: TapState, interval: real, last: real)
  {
    Valid(s) && s.outliers == 0 && Even(s.taps, interval, last) && Playable(s.sampleRate, interval)
  }

  /** A report of this tempo with a beat at `sample`. */
  function ReportAt(sampleRate: real, interval: real, sample: real): Observation
    requires interval != 0.0
  {
    Observation(Finite(sample), Beat(Finite(0.0)), Some(Finite(60.0 * sampleRate / interval)))
  }

  // ---- The median of even taps ----

  lemma EvenIntervals(taps: seq<real>, interval: real, last: real)
    requires Even(taps, interval, last) && |taps| >= 2
    ensures Median(Intervals(taps)) == interval
  {
    hide Median;
    var v := Intervals(taps);
    forall i | 0 <= i < |v|
      ensures v[i] == interval
    {
      Apart(interval, |taps| - 1 - i);
    }
    AllAre(v, interval);
    MajorityIsMedian(v, interval);
  }

  lemma Apart(interval: real, n: int)
    ensures interval * n as real - interval * (n - 1) as real == interval
  {
    assert interval * (n - 1) as real == interval * n as real - interval;
  }

  lemma {:induction false} AllAre(v: seq<real>, x: real)
    requires forall i :: 0 <= i < |v| ==> v[i] == x
    ensures multiset(v)[x] == |v|
  {
    if v != [] {
      var n := |v| - 1;
      assert v == v[..n] + [v[n]];
      AllAre(v[..n], x);
    }
  }

  lemma EvenBeat(taps: seq<real>, interval: real, last: real)
    requires Even(taps, interval, last) && interval > 0.0
    ensures FittedLastBeat(taps, interval) == last
  {
    hide Median, GridOffset;
    var v := GridOffsets(taps, interval);
    assert taps[|taps| - 1] == last by { assert interval * 0.0 == 0.0; }
    forall i | 0 <= i < |v|
      ensures v[i] == 0.0
    {
      var n: nat := |taps| - 1 - i;
      assert taps[i] == last - interval * n as real && v[i] == GridOffset(taps[i], last, interval);
      WholeBeats(last, interval, n);
    }
    AllAre(v, 0.0);
    MajorityIsMedian(v, 0.0);
  }

  lemma WholeBeats(last: real, interval: real, n: nat)
    requires interval > 0.0
    ensures GridOffset(last - interval * n as real, last, interval) == 0.0
  {
    var p := interval * n as real;
    MulThenDiv(n as real, interval);
    assert p / interval == n as real by { assert p == n as real * interval; }
    NegativeQuotient(p, interval);
    assert last - p - last == -p;
    var back: int := 0 - n;
    NoOffset(last - p, last, interval, -(n as real), back);
  }

  lemma NegativeQuotient(x: real, d: real)
    requires d > 0.0
    ensures -x / d == -(x / d)
  {
  }

  lemma NoOffset(tap: real, newest: real, interval: real, beats: real, n: int)
    requires interval > 0.0 && (tap - newest) / interval == beats == n as real
    ensures GridOffset(tap, newest, interval) == 0.0
  {
    assert Round(beats) == n;
  }

  lemma EvenReports(s: TapState, interval: real, last: real)
    requires InTime(s, interval, last) && |s.taps| >= 2
    ensures Report(s) == Some(ReportAt(s.sampleRate, interval, last))
  {
    hide Median, FittedLastBeat;
    EvenIntervals(s.taps, interval, last);
    EvenBeat(s.taps, interval, last);
  }

  lemma EvenPush(taps: seq<real>, interval: real, last: real)
    requires Even(taps, interval, last) && |taps| <= 8
    ensures Even(PushTap(taps, last + interval), interval, last + interval)
    ensures |PushTap(taps, last + interval)| == Min(|taps| + 1, 8)
  {
    hide Back;
    var next := PushTap(taps, last + interval);
    forall i | 0 <= i < |next|
      ensures next[i] == Back(last + interval, interval, |next| - 1 - i)
    {
      OneOn(last, interval, |next| - 1 - i);
      OneOn(last + interval, interval, 0);
    }
  }

  // ---- The player stays in time ----

  /** A tap in time: taken, and from the second one on reported with the player's tempo and a beat on itself. */
  lemma TapInTime(s: TapState, interval: real, last: real)
    requires InTime(s, interval, last)
    ensures var (s', out) := TapAt(s, Finite(last + interval));
            && InTime(s', interval, last + interval) && |s'.taps| == Min(|s.taps| + 1, 8)
            && out == Some(ReportAt(s.sampleRate, interval, last + interval))
  {
    hide TapAt, Report, Even, Playable, PushTap, Increasing;
    var t := last + interval;
    IsPlayable(s.sampleRate, interval);
    Taken(s, interval, last);
    EvenPush(s.taps, interval, last);
    ReportsIfTaken(s, t);
    EvenReports(TapAt(s, Finite(t)).0, interval, t);
  }

  lemma IsPlayable(sampleRate: real, interval: real)
    requires Playable(sampleRate, interval)
    ensures sampleRate > 0.0 && 0.0 < interval <= 2.0 * sampleRate
  {
  }

  lemma Taken(s: TapState, interval: real, last: real)
    requires InTime(s, interval, last)
    ensures 1 <= |s.taps| <= 8
    ensures TapAt(s, Finite(last + interval)).0 == TapState(s.sampleRate, PushTap(s.taps, last + interval), 0) != s
  {
    hide Median, Report, Playable, IsOff;
    IsPlayable(s.sampleRate, interval);
    var n := |s.taps|;
    OneOn(last, interval, 0);
    assert s.taps[n - 1] == last;
    if n >= 2 {
      EvenIntervals(s.taps, interval, last);
      NotOff(interval);
      OffIs(interval, interval);
    }
  }

  /** A bounce is not a beat: a tap within 0.35 of the interval is ignored, one at the very sample too. */
  lemma BounceIgnored(s: TapState, interval: real, last: real, late: real)
    requires InTime(s, interval, last) && 0.0 <= late < 0.35 * interval && (|s.taps| >= 2 || late == 0.0)
    ensures TapAt(s, Finite(last + late)) == (s, None)
  {
    hide Median;
    assert s.taps[|s.taps| - 1] == last by { assert interval * 0.0 == 0.0; }
    if |s.taps| >= 2 { EvenIntervals(s.taps, interval, last); }
  }

  /** After a pause of more than two seconds, or when time goes back, the player starts over. */
  lemma PauseStartsOver(s: TapState, sample: real)
    requires Valid(s) && s.taps != []
    requires var last := s.taps[|s.taps| - 1]; sample > last + 2.0 * s.sampleRate || sample < last
    ensures TapAt(s, Finite(sample)) == (TapState(s.sampleRate, [sample], 0), None)
  {
    hide Median;
    assert PushTap([], sample) == [sample];
  }

  // ---- The player slips, or changes tempo ----

  /** The first `k` values are `x`, and they are more than half. */
  lemma MostAre(v: seq<real>, x: real, k: nat)
    requires k <= |v| < 2 * k && forall i :: 0 <= i < k ==> v[i] == x
    ensures v != [] && Median(v) == x
  {
    hide Median;
    assert v == v[..k] + v[k..];
    AllAre(v[..k], x);
    MajorityIsMedian(v, x);
  }

  lemma IntervalsThen(taps: seq<real>, interval: real, last: real, next: real)
    requires Even(taps, interval, last) && |taps| >= 3
    ensures Median(Intervals(taps + [next])) == interval
  {
    hide Median;
    var v := Intervals(taps + [next]);
    forall i | 0 <= i < |taps| - 1
      ensures v[i] == interval
    {
      Apart(interval, |taps| - 1 - i);
    }
    MostAre(v, interval, |taps| - 1);
  }

  /** What is left of the taps once one more is pushed. */
  function Kept(taps: seq<real>): seq<real> { if |taps| == 8 then taps[1..] else taps }

  lemma KeptEven(taps: seq<real>, interval: real, last: real)
    requires Even(taps, interval, last) && 3 <= |taps| <= 8
    ensures Even(Kept(taps), interval, last) && 3 <= |Kept(taps)| <= 7
    ensures forall x :: PushTap(taps, x) == Kept(taps) + [x]
    ensures taps[|taps| - 1] == last == Kept(taps)[|Kept(taps)| - 1]
  {
    assert interval * 0.0 == 0.0;
  }

  /** More than a quarter of the interval off it. */
  predicate Off(x: real, interval: real) { x < 0.75 * interval || x > 1.25 * interval }

  lemma OffIs(x: real, interval: real)
    requires interval > 0.0
    ensures IsOff(x, interval) <==> Off(x, interval)
  {
    var q := x / interval;
    assert q * interval == x by { DivPos(x, interval); }
    if x < 0.75 * interval && q >= 0.75 { MulAtLeast(interval, q, 0.75); }
    if x > 1.25 * interval && q <= 1.25 { MulAtLeast(interval, 1.25, q); }
    if 0.75 * interval <= x && q < 0.75 { MulLess(q, 0.75, interval); }
    if x <= 1.25 * interval && q > 1.25 { MulLess(1.25, q, interval); }
  }

  /** Behind three taps in time or more, one a quarter out or more is taken with a doubt. */
  lemma FirstOff(s: TapState, interval: real, last: real, gap: real)
    requires InTime(s, interval, last) && |s.taps| >= 3
    requires 0.35 * interval <= gap <= 2.0 * s.sampleRate && Off(gap, interval)
    ensures TapAt(s, Finite(last + gap)).0 == TapState(s.sampleRate, Kept(s.taps) + [last + gap], 1)
  {
    hide Median, Report, IsOff;
    KeptEven(s.taps, interval, last);
    EvenIntervals(s.taps, interval, last);
    OffIs(gap, interval);
  }

  /** A second tap out of line with the tempo: the two gaps are alike, and make the new one; or they are not, and
      the tap between them is dropped. */
  lemma SecondOff(s: TapState, interval: real, last: real, gap: real, gap': real)
    requires Valid(s) && s.outliers == 1 && Playable(s.sampleRate, interval) && gap > 0.0
    requires |s.taps| >= 4 && s.taps[|s.taps| - 1] == last + gap
    requires Even(s.taps[..|s.taps| - 1], interval, last)
    requires 0.35 * interval <= gap' <= 2.0 * s.sampleRate && Off(gap', interval) && gap' > 0.0
    ensures var t, before := last + gap + gap', s.taps[..|s.taps| - 1];
            TapAt(s, Finite(t)).0
            == TapState(s.sampleRate, if Off(gap', gap) then before + [t] else [last, last + gap, t], 0)
  {
    hide Median, Report, IsOff;
    var before, n := s.taps[..|s.taps| - 1], |s.taps|;
    assert s.taps == before + [last + gap];
    IntervalsThen(before, interval, last, last + gap);
    OffIs(gap', interval);
    OffIs(gap', gap);
    assert s.taps[n - 2] == before[n - 2] == last by { assert interval * 0.0 == 0.0; }
    assert [last, last + gap] + [last + gap + gap'] == [last, last + gap, last + gap + gap'];
  }

  /** One tap out of time, the next one in time again: it is as if there had been a tap missing. The tempo stays, and
      the beat reported is the player's. */
  lemma SlipIsDropped(s: TapState, interval: real, last: real, slip: real)
    requires InTime(s, interval, last) && |s.taps| >= 3 && 2.0 * interval <= 2.0 * s.sampleRate
    requires (0.25 * interval < slip <= 0.65 * interval) || (-0.65 * interval <= slip < -0.25 * interval)
    ensures var s1 := TapAt(s, Finite(last + interval + slip)).0;
            && Valid(s1)
            && TapAt(s1, Finite(last + 2.0 * interval))
               == (TapState(s.sampleRate, Kept(s.taps) + [last + 2.0 * interval], 0),
                   Some(ReportAt(s.sampleRate, interval, last + 2.0 * interval)))
  {
    hide Median, Report, IsOff, FittedLastBeat, TapAt;
    var a, t := last + interval + slip, last + 2.0 * interval;
    FirstOff(s, interval, last, interval + slip);
    assert last + (interval + slip) == a;
    TapAtKeeps(s, Finite(a));
    KeptEven(s.taps, interval, last);
    SlipTaken(TapAt(s, Finite(a)).0, Kept(s.taps), interval, last, slip);
  }

  lemma SlipTaken(s: TapState, kept: seq<real>, interval: real, last: real, slip: real)
    requires Valid(s) && Playable(s.sampleRate, interval) && 2.0 * interval <= 2.0 * s.sampleRate
    requires Even(kept, interval, last) && |kept| >= 3
    requires s == TapState(s.sampleRate, kept + [last + interval + slip], 1)
    requires (0.25 * interval < slip <= 0.65 * interval) || (-0.65 * interval <= slip < -0.25 * interval)
    ensures TapAt(s, Finite(last + 2.0 * interval))
            == (TapState(s.sampleRate, kept + [last + 2.0 * interval], 0),
                Some(ReportAt(s.sampleRate, interval, last + 2.0 * interval)))
  {
    var t := last + 2.0 * interval;
    hide Median, IsOff, FittedLastBeat, Report, TapAt;
    assert s.taps[..|s.taps| - 1] == kept;
    assert last + (interval + slip) == last + interval + slip;
    assert last + (interval + slip) + (interval - slip) == t;
    SecondOff(s, interval, last, interval + slip, interval - slip);
    TapAtKeeps(s, Finite(t));
    GapReports(TapState(s.sampleRate, kept + [t], 0), kept, interval, last);
    ReportsIfTaken(s, t);
  }

  lemma ReportsIfTaken(s: TapState, t: real)
    requires Valid(s)
    ensures Valid(TapAt(s, Finite(t)).0)
    ensures TapAt(s, Finite(t)).0 != s ==> TapAt(s, Finite(t)).1 == Report(TapAt(s, Finite(t)).0)
  {
    hide Joined, PushTap, Report;
    TapAtKeeps(s, Finite(t));
  }

  /** Even taps and one two intervals on report the same tempo, and a beat there. */
  lemma GapReports(s: TapState, taps: seq<real>, interval: real, last: real)
    requires Valid(s) && Even(taps, interval, last) && |taps| >= 3 && Playable(s.sampleRate, interval)
    requires s.taps == taps + [last + 2.0 * interval]
    ensures Report(s) == Some(ReportAt(s.sampleRate, interval, last + 2.0 * interval))
  {
    hide Median, GridOffset;
    var t := last + 2.0 * interval;
    IntervalsThen(taps, interval, last, t);
    var v := GridOffsets(s.taps, interval);
    forall i | 0 <= i < |v|
      ensures v[i] == 0.0
    {
      var n := if i < |taps| then |taps| - 1 - i + 2 else 0;
      assert interval * n as real == if i < |taps| then interval * (|taps| - 1 - i) as real + 2.0 * interval else 0.0;
      assert s.taps[i] == t - interval * n as real;
      WholeBeats(t, interval, n);
    }
    AllAre(v, 0.0);
    MajorityIsMedian(v, 0.0);
  }

  /** Two taps at a new interval, more than a quarter off the old: the third on, only they count, and the report has the
      new tempo and a beat on the tap. */
  lemma TempoChanges(s: TapState, interval: real, last: real, new': real)
    requires InTime(s, interval, last) && |s.taps| >= 3
    requires Playable(s.sampleRate, new') && 0.35 * interval <= new' && Off(new', interval)
    ensures var s1 := TapAt(s, Finite(last + new')).0;
            && Valid(s1)
            && var (s2, out) := TapAt(s1, Finite(last + 2.0 * new'));
               && InTime(s2, new', last + 2.0 * new') && |s2.taps| == 3
               && out == Some(ReportAt(s.sampleRate, new', last + 2.0 * new'))
  {
    hide TapAt, Report, Even, Off, Kept, Playable, Increasing;
    IsPlayable(s.sampleRate, new');
    FirstOff(s, interval, last, new');
    ReportsIfTaken(s, last + new');
    KeptEven(s.taps, interval, last);
    var s1, kept := TapAt(s, Finite(last + new')).0, Kept(s.taps);
    assert s1.taps[..|s1.taps| - 1] == kept;
    SecondOff(s1, interval, last, new', new');
    NotOff(new');
    var t := last + 2.0 * new';
    assert last + new' + new' == t;
    ReportsIfTaken(s1, t);
    ThreeEven(new', t);
    assert [last, last + new', t] == [t - 2.0 * new', t - new', t];
    EvenReports(TapAt(s1, Finite(t)).0, new', t);
  }

  lemma NotOff(interval: real)
    requires interval > 0.0
    ensures !Off(interval, interval)
  {
  }

  lemma ThreeEven(interval: real, last: real)
    ensures Even([last - 2.0 * interval, last - interval, last], interval, last)
  {
  }
}
