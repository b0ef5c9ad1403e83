/** A MIDI clock that is not steady: stray stamps, a jump of the tempo, a pause. */
module MidiLaws {
  import opened Numbers
  import opened Clock
  import opened Rings
  import opened LeastSquares
  import opened Observing
  import opened MidiClocks

  /** Twenty-four pulses last a beat of the tempo reported. */
  lemma PulsesPerBeat(sampleRate: real, period: real)
    requires period > 0.0
    ensures BpmOf(sampleRate, period) * (24.0 * period) == 60.0 * sampleRate
  {
    DivPos(60.0 * sampleRate, period * PPQN);
    assert 24.0 * period == period * PPQN;
  }

  // ---- Strays ----

  /** A pulse more than half a period off the line of a fit that covers its run, neither out of order nor behind a
      pause. */
  ghost predicate Stray(s: MidiState, sample: real, period: real)
  {
    && s.lastPulse.Some? && 0.0 < sample - s.lastPulse.value <= MaxGap(s.sampleRate)
    && |s.window| >= 6 && |s.window| > Runs(s.window) && s.window[|s.window| - 1].run == s.run
    && 2.0 * AbsR(sample - Ahead(s.window[|s.window| - 1], period, s.index)) > period
  }

  /** A pulse stamped no later than the one before it. */
  predicate OutOfOrder(s: MidiState, sample: real) { s.lastPulse.Some? && sample <= s.lastPulse.value }

  lemma StrayIsOutlier(s: MidiState, sample: real, period: real, sqrt: real -> real)
    requires SteadyState(s, period) && Stray(s, sample, period) && IsRoot(sqrt)
    ensures IsOutlier(Counted(s), s.index, sample, sqrt)
  {
    hide PeriodOf, PredictOf, SteadyPoints, Increasing, MaxGap, Runs;
    assert Newest(s.window, WINDOW) == s.window;
    FitExists(s.window);
    SteadyPrediction(s.window, period, s.index, s.run);
    SteadyPeriod(s.window, period, sqrt);
  }

  /** Up to three strays in a row are not reported and leave the fit, and so the tempo, alone; the pulse still
      counts for the song. */
  lemma StrayIgnored(s: MidiState, sample: real, period: real, sqrt: real -> real)
    requires SteadyState(s, period) && Stray(s, sample, period) && IsRoot(sqrt) && s.rejected < 3
    ensures Pulsed(s, sample, sqrt)
            == (Counted(s).(rejected := s.rejected + 1, lastPulse := Some(sample)), None)
    ensures SteadyState(Pulsed(s, sample, sqrt).0, period)
  {
    hide IsOutlier, SteadyPoints, Increasing, TempoOf, Unconfirmed, MaxGap, Runs;
    StrayIsOutlier(s, sample, period, sqrt);
  }

  /** A fourth one in a row is believed: the fit starts over from it. */
  lemma FourthStray(s: MidiState, sample: real, period: real, sqrt: real -> real)
    requires SteadyState(s, period) && Stray(s, sample, period) && IsRoot(sqrt) && s.rejected == 3
    ensures Pulsed(s, sample, sqrt)
            == (Counted(s).(window := [Point(s.index, sample, s.run)], rejected := 0, lastPulse := Some(sample)), None)
  {
    hide IsOutlier, SteadyPoints, Increasing, Unconfirmed, MaxGap, Runs;
    StrayIsOutlier(s, sample, period, sqrt);
    assert [] + [Point(s.index, sample, s.run)] == [Point(s.index, sample, s.run)];
  }

  lemma OutOfOrderIgnored(s: MidiState, sample: real, period: real, sqrt: real -> real)
    requires SteadyState(s, period) && OutOfOrder(s, sample)
    ensures Pulsed(s, sample, sqrt) == (Counted(s).(lastPulse := Some(sample)), None)
    ensures SteadyState(Pulsed(s, sample, sqrt).0, period)
  {
    hide IsOutlier, SteadyPoints, Increasing, TempoOf, Unconfirmed;
    GapPositive(s.sampleRate);
  }

  // ---- A clock with strays ----

  /** Every pulse is on the line, or out of order, or one of up to three strays in a row. */
  ghost predicate NoisyStream(s: MidiState, messages: seq<Timed>, period: real, sqrt: real -> real)
    decreases |messages|
  {
    messages == [] ||
    (&& (messages[0].message.TimingClock? && messages[0].sample.Finite? ==>
           var sample := messages[0].sample.value;
           || ((s.window != [] <==> s.lastPulse.Some?) && SteadyPulse(s, sample, period))
           || OutOfOrder(s, sample) || (Stray(s, sample, period) && s.rejected < 3))
     && NoisyStream(Handled(s, messages[0].message, messages[0].sample, sqrt).0, messages[1..], period, sqrt))
  }

  lemma NoisyHandled(s: MidiState, m: Timed, period: real, sqrt: real -> real)
    requires SteadyState(s, period) && IsRoot(sqrt)
    requires m.message.TimingClock? && m.sample.Finite? ==>
               || ((s.window != [] <==> s.lastPulse.Some?) && SteadyPulse(s, m.sample.value, period))
               || OutOfOrder(s, m.sample.value) || (Stray(s, m.sample.value, period) && s.rejected < 3)
    ensures var (s', out) := Handled(s, m.message, m.sample, sqrt);
            && SteadyState(s', period) && s'.sampleRate == s.sampleRate
            && (out.Some? ==> out.value.bpm == Some(Finite(BpmOf(s.sampleRate, period))))
  {
    hide Pulsed, BpmOf, SteadyPulse, SteadyPoints, Increasing, Stray;
    if m.message.TimingClock? && m.sample.Finite? {
      var sample := m.sample.value;
      if OutOfOrder(s, sample) {
        OutOfOrderIgnored(s, sample, period, sqrt);
      } else if (s.window != [] <==> s.lastPulse.Some?) && SteadyPulse(s, sample, period) {
        SteadyPulsed(s, sample, period, sqrt);
      } else {
        StrayIgnored(s, sample, period, sqrt);
      }
    }
  }

  /** Whatever strays and pulses out of order lie between a steady clock's own, as long as not four strays come in a
      row: every tempo reported is the clock's, exactly. */
  lemma {:induction false} StraysDoNotMatter(s: MidiState, messages: seq<Timed>, period: real, sqrt: real -> real)
    requires SteadyState(s, period) && IsRoot(sqrt) && NoisyStream(s, messages, period, sqrt)
    ensures var (s', outs) := HandledAll(s, messages, sqrt);
            && SteadyState(s', period)
            && forall i :: 0 <= i < |outs| && outs[i].Some? ==>
                 outs[i].value.bpm == Some(Finite(BpmOf(s.sampleRate, period)))
    decreases |messages|
  {
    hide Handled, BpmOf, SteadyPulse, SteadyState, Stray, OutOfOrder;
    if messages != [] {
      NoisyHandled(s, messages[0], period, sqrt);
      StraysDoNotMatter(Handled(s, messages[0].message, messages[0].sample, sqrt).0, messages[1..], period, sqrt);
    }
  }

  // ---- A jump of the tempo ----

  /** The clock goes over to another tempo: each of the next four pulses is a stray to the old one. */
  ghost predicate FourStrays(s: MidiState, a: real, b: real, c: real, d: real, period: real, sqrt: real -> real)
  {
    && Stray(s, a, period)
    && var s1 := Pulsed(s, a, sqrt).0;
       && Stray(s1, b, period)
       && var s2 := Pulsed(s1, b, sqrt).0;
          && Stray(s2, c, period)
          && Stray(Pulsed(s2, c, sqrt).0, d, period)
  }

  /** The four are not reported. From the fourth on the fit knows the new tempo only: if the clock stays steady at that,
      it is what is reported, exactly, and nothing else. */
  lemma TempoJumps(s: MidiState, a: real, b: real, c: real, d: real, messages: seq<Timed>, period: real, new': real,
                   sqrt: real -> real)
    requires SteadyState(s, period) && s.rejected == 0 && IsRoot(sqrt) && new' > 0.0
    requires FourStrays(s, a, b, c, d, period, sqrt)
    requires var s4 := Pulsed(Pulsed(Pulsed(Pulsed(s, a, sqrt).0, b, sqrt).0, c, sqrt).0, d, sqrt).0;
             NoisyStream(s4, messages, new', sqrt)
    ensures var jump := [Timed(TimingClock, Finite(a)), Timed(TimingClock, Finite(b)), Timed(TimingClock, Finite(c)),
                         Timed(TimingClock, Finite(d))];
            var outs := HandledAll(s, jump + messages, sqrt).1;
            forall i :: 0 <= i < |outs| && outs[i].Some? ==>
              i >= 4 && outs[i].value.bpm == Some(Finite(BpmOf(s.sampleRate, new')))
  {
    hide Pulsed, SteadyState, Stray, NoisyStream, BpmOf, HandledAll;
    StrayIgnored(s, a, period, sqrt) by { AllowsStray(s, period); }
    var s1 := Pulsed(s, a, sqrt).0;
    StrayIgnored(s1, b, period, sqrt);
    var s2 := Pulsed(s1, b, sqrt).0;
    StrayIgnored(s2, c, period, sqrt);
    var s3 := Pulsed(s2, c, sqrt).0;
    FourthStray(s3, d, period, sqrt);
    var s4 := Pulsed(s3, d, sqrt).0;
    FreshFit(s3, s4, d, period, new');
    StraysDoNotMatter(s4, messages, new', sqrt);
    var ma, mb, mc, md := Timed(TimingClock, Finite(a)), Timed(TimingClock, Finite(b)), Timed(TimingClock, Finite(c)),
                          Timed(TimingClock, Finite(d));
    HandledFirst(s3, md, messages, sqrt);
    HandledFirst(s2, mc, [md] + messages, sqrt);
    HandledFirst(s1, mb, [mc] + ([md] + messages), sqrt);
    HandledFirst(s, ma, [mb] + ([mc] + ([md] + messages)), sqrt);
    assert [ma, mb, mc, md] + messages == [ma] + ([mb] + ([mc] + ([md] + messages)));
  }

  lemma AllowsStray(s: MidiState, period: real)
    requires SteadyState(s, period) && s.rejected == 0
    ensures s.rejected < 3
  {
  }

  lemma FreshFit(s: MidiState, s': MidiState, sample: real, period: real, new': real)
    requires SteadyState(s, period) && new' > 0.0
    requires s' == Counted(s).(window := [Point(s.index, sample, s.run)], rejected := 0, lastPulse := Some(sample))
    ensures SteadyState(s', new')
  {
  }

  lemma HandledFirst(s: MidiState, m: Timed, rest: seq<Timed>, sqrt: real -> real)
    requires m.message.TimingClock? && m.sample.Finite?
    ensures HandledAll(s, [m] + rest, sqrt).1
            == [Pulsed(s, m.sample.value, sqrt).1] + HandledAll(Pulsed(s, m.sample.value, sqrt).0, rest, sqrt).1
  {
    hide Pulsed;
    assert ([m] + rest)[1..] == rest;
  }

  // ---- A pause ----

  /** Behind a pause no tempo in range accounts for, the fit starts over from the next pulse; where the song is does not
      change, and the tempo last reported stays on record. */
  lemma PauseStartsOver(s: MidiState, sample: real, period: real, sqrt: real -> real)
    requires SteadyState(s, period) && s.lastPulse.Some? && IsRoot(sqrt)
    requires sample - s.lastPulse.value > 60.0 * s.sampleRate / (20.0 * 24.0)
    ensures Pulsed(s, sample, sqrt)
            == (Counted(s).(window := [Point(s.index, sample, s.run)], rejected := 0, lastPulse := Some(sample),
                            afterStall := true), None)
  {
    hide SteadyPoints, Increasing, Unconfirmed, Runs;
    assert [] + [Point(s.index, sample, s.run)] == [Point(s.index, sample, s.run)];
  }

  // ---- A prediction ----

  lemma OneMoreCost(points: seq<Point>, next: Point, origin: Point, b: real, a: seq<real>)
    requires points != [] && next.run == points[|points| - 1].run && |a| == Runs(points)
    ensures Runs(points + [next]) == |a|
    ensures Cost(points + [next], origin, b, a)
            == Cost(points, origin, b, a) + Miss(next.X(origin), next.Y(origin), b, a[|a| - 1])
  {
    hide Miss;
    assert (points + [next])[..|points|] == points;
  }

  /** Where the next pulse is predicted is on the best line through the pulses there are: a pulse just there would
      cost that line nothing. */
  lemma PredictionOnLine(window: seq<Point>, index: nat, run: nat)
    requires 6 <= |window| <= WINDOW && PredictOf(window, index, run).Some?
    ensures run == window[|window| - 1].run && FitOf(window).Some?
    ensures var fit, next := FitOf(window).value, Point(index, PredictOf(window, index, run).value, run);
            exists best: seq<real> ::
              |best| == Runs(window + [next]) && Cost(window + [next], window[|window| - 1], fit.b, best) == fit.rss
  {
    hide Runs, Cost, Miss, FitOf;
    assert Newest(window, WINDOW) == window;
    var fit, newest := FitOf(window).value, window[|window| - 1];
    FitNewest(window);
    var next := Point(index, PredictOf(window, index, run).value, run);
    var best := FitReached(window);
    OneMoreCost(window, next, newest, fit.b, best);
    MissNothing(next.X(newest), next.Y(newest), fit.b, fit.a);
  }

  lemma FitNewest(points: seq<Point>)
    requires points != [] && FitOf(points).Some?
    ensures var fit, newest := FitOf(points).value, points[|points| - 1];
            fit.newest == newest.index && fit.origin == newest.sample && fit.run == newest.run
  {
    hide Sums;
  }

  lemma MissNothing(x: real, y: real, b: real, a: real)
    requires y == a + b * x
    ensures Miss(x, y, b, a) == 0.0
  {
  }

  // ---- Going on ----

  /** A start or a continue begins a run no pulse of the fit belongs to: the first pulse behind it may come at any
      time. */
  lemma AnyTimeBehindContinue(s: MidiState, message: MidiMessage, index: nat, sample: real, sqrt: real -> real)
    requires message == Start || message == Continue
    requires s.window != [] ==> s.window[|s.window| - 1].run == s.run
    ensures !IsOutlier(Handled(s, message, NotFinite, sqrt).0, index, sample, sqrt)
  {
    hide PeriodOf, FitOf;
    if 6 <= |s.window| && LineOf(s.window, WINDOW).Some? {
      var points := Newest(s.window, WINDOW);
      FitNewest(points);
      assert points[|points| - 1] == s.window[|s.window| - 1];
    }
  }
}
