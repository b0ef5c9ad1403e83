/** When the follower jumps: exactly on the last of a run of outliers that agree with each other,
    held long enough. The history of phase reports is kept apart from the follower's own counters. */
module FollowerJumps {
  import opened Numbers
  import opened Clock
  import opened Observing
  import opened Following
  import opened FollowerRuns

  /** What a phase report was, to a follower that was tracking: in line with the estimate, or
      `residual` beats off it; and `Break` for anything that ends tracking or starts it afresh, a jump
      among it. */
  datatype Report = Inlier | Outlier(sample: real, residual: real, threshold: real, modulus: real) | Break

  /** A phase report taken in state `s`, with the estimate carried to it. */
  function ReportOf(s: State, sample: real, phase: real, modulus: real): Report
    requires s.sampleRate > 0.0 && modulus > 0.0
  {
    var residual := Wrap(phase - s.estBeat, modulus);
    if s.resyncRequested || s.lock != Track then Break
    else if AbsR(residual) <= Threshold(s, modulus) then Inlier
    else Outlier(sample, residual, Threshold(s, modulus), modulus)
  }

  /** The state an observation's phase is judged in. */
  function Judged(s: State, obs: Observation, now: real): State
    requires Valid(s) && obs.sample.Finite? && Taken(s, obs.sample.value, now).Some?
  {
    TakenValid(s, obs.sample.value, now);
    Carried(Taken(s, obs.sample.value, now).value, obs.sample.value, Target(obs.phase), ReportedTempo(obs.bpm))
  }

  /** The operation is a phase report the follower takes. */
  predicate TakesPhase(s: State, op: Op)
  {
    && op.Observe? && op.obs.sample.Finite? && op.now.Finite?
    && Taken(s, op.obs.sample.value, op.now.value).Some? && Target(op.obs.phase).Some?
  }

  /** What an operation adds to the history: a report, and a break if the follower jumped on it. */
  function Logged(s: State, op: Op, sqrt: real -> real): seq<Report>
    requires Valid(s)
  {
    match op
    case Observe(obs, now) =>
      if TakesPhase(s, op) then
        Entry(NewReport(s, op), After(s, op, sqrt).jump)
      else []
    case Advance(now) => if now.Finite? && IsLost(s, now.value) then [Break] else []
    case Reset(sample, beat) => if sample.Finite? && beat.Finite? then [Break] else []
    case SetPrecision(p) => if p != s.precision then [Break] else []
    case RequestResync => []
    case TakeDiscontinuity => []
  }

  function Entry(r: Report, jump: Option<Jump>): seq<Report>
  {
    if r.Outlier? && jump == None then [r, Break] else [r]
  }

  /** The report in a phase report. */
  function NewReport(s: State, op: Op): Report
    requires Valid(s) && TakesPhase(s, op)
  {
    var target := Target(op.obs.phase).value;
    JudgedValid(s, op.obs, op.now.value);
    ReportOf(Judged(s, op.obs, op.now.value), op.obs.sample.value, target.0, target.1)
  }

  lemma JudgedValid(s: State, obs: Observation, now: real)
    requires Valid(s) && obs.sample.Finite? && Taken(s, obs.sample.value, now).Some?
    ensures var s1 := Judged(s, obs, now);
            && Valid(s1) && s1.lastObservation == Some(obs.sample.value)
            && (s1.lastPhaseObservation.Some? ==> s1.lastPhaseObservation.value < obs.sample.value)
            && s1.discontinuity == s.discontinuity && (s1.lock == s.lock || s1.lock == Acquire) && s1.jump == s.jump
            && s1.precision == s.precision && s1.sampleRate > 0.0
  {
    PositiveRate(s);
    CarriedRate(s, obs, now);
    hide Valid, Carried, Target, ReportedTempo;
    var sample, target := obs.sample.value, Target(obs.phase);
    TakenValid(s, sample, now);
    var s0 := Taken(s, sample, now).value;
    CarriedValid(s0, sample, target, ReportedTempo(obs.bpm));
    CarriedTime(s0, sample, target, ReportedTempo(obs.bpm));
  }

  lemma CarriedRate(s: State, obs: Observation, now: real)
    requires Valid(s) && obs.sample.Finite? && Taken(s, obs.sample.value, now).Some?
    ensures Judged(s, obs, now).sampleRate == s.sampleRate
  {
    hide Valid, TempoFromPhase, State.EstRate;
  }

  // ---- Runs of outliers ----

  ghost predicate Outliers(run: seq<Report>)
  {
    forall i :: 0 <= i < |run| ==>
      run[i].Outlier? && run[i].modulus > 0.0 && AbsR(run[i].residual) > run[i].threshold
  }

  /** The running mean of the run's residuals, each taken on the side of the mean so far. */
  function MeanOf(run: seq<Report>): real
    requires run != [] && forall i :: 0 <= i < |run| ==> run[i].Outlier? && run[i].modulus > 0.0
  {
    var last := run[|run| - 1];
    if |run| == 1 then last.residual
    else
      var mean := MeanOf(run[..|run| - 1]);
      mean + Wrap(last.residual - mean, last.modulus) / |run| as real
  }

  /** The report agrees with the mean of those before it. */
  ghost predicate Agrees(run: seq<Report>, k: nat)
    requires Outliers(run) && 1 <= k < |run|
  {
    AbsR(Wrap(run[k].residual - MeanOf(run[..k]), run[k].modulus)) <= run[k].threshold
  }

  /** A run of outliers, each within the threshold of the mean of the run before it. */
  ghost predicate Consistent(run: seq<Report>)
  {
    run != [] && Outliers(run) && forall k :: 1 <= k < |run| ==> Agrees(run, k)
  }

  lemma OneOutlier(r: Report)
    requires r.Outlier? && r.modulus > 0.0 && AbsR(r.residual) > r.threshold
    ensures Consistent([r]) && MeanOf([r]) == r.residual
  {
  }

  lemma OneMore(run: seq<Report>, r: Report)
    requires Consistent(run) && r.Outlier? && r.modulus > 0.0 && AbsR(r.residual) > r.threshold
    requires AbsR(Wrap(r.residual - MeanOf(run), r.modulus)) <= r.threshold
    ensures Consistent(run + [r])
    ensures MeanOf(run + [r]) == MeanOf(run) + Wrap(r.residual - MeanOf(run), r.modulus) / (|run| + 1) as real
  {
    hide Wrap, Agrees, MeanOf;
    var longer := run + [r];
    forall k | 1 <= k < |longer|
      ensures Agrees(longer, k)
    {
      if k < |run| {
        AgreesLonger(run, r, k);
      } else {
        LastAgrees(run, r);
      }
    }
    MeanLonger(run, r);
  }

  lemma AgreesLonger(run: seq<Report>, r: Report, k: nat)
    requires Outliers(run) && Outliers(run + [r]) && 1 <= k < |run|
    ensures Agrees(run + [r], k) <==> Agrees(run, k)
  {
    hide Wrap, MeanOf;
    assert (run + [r])[..k] == run[..k];
  }

  lemma LastAgrees(run: seq<Report>, r: Report)
    requires run != [] && Outliers(run) && Outliers(run + [r]) && r.Outlier? && r.modulus > 0.0
    requires AbsR(Wrap(r.residual - MeanOf(run), r.modulus)) <= r.threshold
    ensures Agrees(run + [r], |run|)
  {
    hide Wrap, MeanOf, Outliers, AbsR;
    assert (run + [r])[..|run|] == run;
  }

  lemma MeanLonger(run: seq<Report>, r: Report)
    requires run != [] && r.Outlier? && r.modulus > 0.0
    requires forall i :: 0 <= i < |run| ==> run[i].Outlier? && run[i].modulus > 0.0
    ensures MeanOf(run + [r]) == MeanOf(run) + Wrap(r.residual - MeanOf(run), r.modulus) / (|run| + 1) as real
  {
    hide Wrap, MeanOf, AbsR;
    assert (run + [r])[..|run|] == run;
    MeanNext(run + [r]);
  }

  lemma MeanNext(run: seq<Report>)
    requires |run| >= 2 && forall i :: 0 <= i < |run| ==> run[i].Outlier? && run[i].modulus > 0.0
    ensures var last, mean := run[|run| - 1], MeanOf(run[..|run| - 1]);
            MeanOf(run) == mean + Wrap(last.residual - mean, last.modulus) / |run| as real
  {
    hide Wrap;
  }

  /** The newest outliers of a history, each within the threshold of the mean of those before it: one
      that is not starts a run of its own, anything but an outlier ends it. */
  function NewestRun(log: seq<Report>): (run: seq<Report>)
    ensures forall i :: 0 <= i < |run| ==> run[i].Outlier? && run[i].modulus > 0.0
    ensures |run| <= |log| && run == log[|log| - |run|..]
  {
    if log == [] then []
    else
      var r := log[|log| - 1];
      if !r.Outlier? || r.modulus <= 0.0 then []
      else
        var run := NewestRun(log[..|log| - 1]);
        if run != [] && Joins(run, r) then run + [r] else [r]
  }

  predicate Joins(run: seq<Report>, r: Report)
    requires run != [] && r.Outlier? && r.modulus > 0.0
    requires forall i :: 0 <= i < |run| ==> run[i].Outlier? && run[i].modulus > 0.0
  {
    AbsR(Wrap(r.residual - MeanOf(run), r.modulus)) <= r.threshold
  }

  lemma NewestAfter(log: seq<Report>, r: Report)
    ensures NewestRun(log + [r])
            == if !r.Outlier? || r.modulus <= 0.0 then []
               else if NewestRun(log) != [] && Joins(NewestRun(log), r) then NewestRun(log) + [r]
               else [r]
  {
    hide Joins;
    assert (log + [r])[..|log|] == log;
  }

  /** Of a history whose outliers lie beyond their threshold the newest run is one of outliers that
      agree with each other. */
  lemma {:induction false} NewestIsConsistent(log: seq<Report>)
    requires Beyond(log)
    ensures NewestRun(log) != [] ==> Consistent(NewestRun(log))
    decreases |log|
  {
    hide Joins, Consistent, NewestRun;
    if log != [] {
      var rest, r := log[..|log| - 1], log[|log| - 1];
      NewestIsConsistent(rest);
      assert log == rest + [r];
      NewestAfter(rest, r);
      if r.Outlier? {
        OneOutlier(r);
        if NewestRun(rest) != [] && Joins(NewestRun(rest), r) { JoinsMore(NewestRun(rest), r); }
      }
    } else {
      NewestOfNone();
    }
  }

  lemma NewestOfNone()
    ensures NewestRun([]) == []
  {
  }

  lemma JoinsMore(run: seq<Report>, r: Report)
    requires Consistent(run) && r.Outlier? && r.modulus > 0.0 && AbsR(r.residual) > r.threshold
    requires forall i :: 0 <= i < |run| ==> run[i].Outlier? && run[i].modulus > 0.0
    requires run != [] && Joins(run, r)
    ensures Consistent(run + [r])
  {
    hide Consistent, Wrap, MeanOf;
    OneMore(run, r);
  }

  /** The candidate jump a run of outliers makes. */
  function CandidateOf(run: seq<Report>): Option<Jump>
    requires forall i :: 0 <= i < |run| ==> run[i].Outlier? && run[i].modulus > 0.0
  {
    if run == [] then None else Some(Jump(run[0].sample, |run|, MeanOf(run)))
  }

  /** The follower remembers the newest run of the history while it tracks, and no outliers otherwise;
      and it does not track a source of unknown tempo. */
  ghost predicate Remembered(s: State, log: seq<Report>)
  {
    && (s.lock == Track ==> s.jump == CandidateOf(NewestRun(log)))
    && (s.lock == Reacquire ==> NewestRun(log) == []) && (s.lock == Acquire && s.acquired > 0 ==> s.jump == None)
    && (s.lock == Acquire || s.tempoKnown)
    && Beyond(log)
  }

  /** Every outlier of a history lies beyond its threshold. */
  ghost predicate Beyond(log: seq<Report>)
  {
    forall r <- log :: r.Outlier? ==> r.modulus > 0.0 && AbsR(r.residual) > r.threshold
  }

  lemma BeyondEntry(log: seq<Report>, r: Report, jump: Option<Jump>)
    requires Beyond(log) && (r.Outlier? ==> r.modulus > 0.0 && AbsR(r.residual) > r.threshold)
    ensures Beyond(log + Entry(r, jump))
  {
  }

  /** One more outlier makes of the candidate what it makes of the run. */
  lemma JumpGrows(log: seq<Report>, r: Report)
    requires r.Outlier? && r.modulus > 0.0
    ensures NewestRun(log + [r]) != []
    ensures Some(JumpAfter(CandidateOf(NewestRun(log)), r.sample, r.residual, r.modulus, r.threshold))
            == CandidateOf(NewestRun(log + [r]))
  {
    hide NewestRun, Joins, MeanOf;
    NewestAfter(log, r);
    var run := NewestRun(log);
    OneMean(r);
    if run != [] && Joins(run, r) { JoinedMean(run, r); } else if run != [] { ApartMean(run, r); }
  }

  lemma JoinedMean(run: seq<Report>, r: Report)
    requires run != [] && r.Outlier? && r.modulus > 0.0
    requires forall i :: 0 <= i < |run| ==> run[i].Outlier? && run[i].modulus > 0.0
    requires Joins(run, r)
    ensures Some(JumpAfter(CandidateOf(run), r.sample, r.residual, r.modulus, r.threshold)) == CandidateOf(run + [r])
  {
    hide Wrap, MeanOf, AbsR;
    MeanLonger(run, r);
  }

  lemma ApartMean(run: seq<Report>, r: Report)
    requires run != [] && r.Outlier? && r.modulus > 0.0
    requires forall i :: 0 <= i < |run| ==> run[i].Outlier? && run[i].modulus > 0.0
    requires !Joins(run, r)
    ensures JumpAfter(CandidateOf(run), r.sample, r.residual, r.modulus, r.threshold) == Jump(r.sample, 1, r.residual)
  {
    hide Wrap, MeanOf, AbsR;
  }

  lemma OneMean(r: Report)
    requires r.Outlier? && r.modulus > 0.0
    ensures MeanOf([r]) == r.residual
  {
  }

  lemma BreakEnds(log: seq<Report>)
    ensures NewestRun(log + [Break]) == [] && NewestRun(log + [Inlier]) == []
  {
    hide NewestRun;
    NewestAfter(log, Break);
    NewestAfter(log, Inlier);
  }

  // ---- Each operation ----

  lemma FinishJump(s: State, needed: nat)
    requires s.sampleRate > 0.0
    ensures var s' := FinishAcquire(s, needed);
            && s'.jump == s.jump && s'.tempoKnown == s.tempoKnown
            && (s'.lock == s.lock || (s'.lock == Track && s.tempoKnown))
            && s'.discontinuity == (s.discontinuity || (s.acquired >= needed && s.tempoKnown))
  {
    hide State.EstRate;
  }

  lemma BeginJump(s: State, sample: real, beat: real, needed: nat)
    requires s.sampleRate > 0.0
    ensures var s' := BeginAcquire(s, sample, beat, needed);
            && s'.jump == None && s'.tempoKnown == s.tempoKnown && (s'.lock == Acquire || s'.tempoKnown)
            && s'.lock != Reacquire && s'.discontinuity == (s.discontinuity || (needed <= 1 && s.tempoKnown))
  {
    hide FinishAcquire;
    FinishJump(RestartEstimate(s, sample, beat).(lock := Acquire, acquired := 1), needed);
  }

  /** An outlier while tracking becomes part of the candidate, or the output snaps to it. */
  lemma OutlyingJump(s: State, sample: real, err: real, modulus: real, threshold: real)
    requires s.sampleRate > 0.0 && modulus > 0.0 && s.lock == Track
    ensures var s', j := Outlying(s, sample, err, modulus, threshold),
            JumpAfter(s.jump, sample, err, modulus, threshold);
            if (sample - j.since) * s.EstRate() >= s.Tuned().jumpHoldBeats && j.count >= s.Tuned().jumpHoldObs
            then s'.jump == None && s'.discontinuity && s'.lock == Track && s'.tempoKnown == s.tempoKnown
            else s' == s.(jump := Some(j))
  {
    hide State.EstRate, JumpAfter, TuningOf;
  }

  lemma UpdateKeepsLock(s: State, err: real, spacing: Spacing, sqrt: real -> real)
    requires spacing.Span? ==> spacing.beats >= 0.0
    ensures var s' := Update(s, err, spacing, sqrt);
            && s'.lock == s.lock && s'.jump == s.jump && s'.acquired == s.acquired
            && s'.discontinuity == s.discontinuity && s'.sampleRate == s.sampleRate && s'.tempoKnown == s.tempoKnown
  {
    hide Fade;
  }

  /** What a phase report does to the lock and the candidate jump. */
  lemma PhaseRemembered(s: State, sample: real, phase: real, modulus: real, sqrt: real -> real, log: seq<Report>)
    requires Valid(s) && modulus > 0.0
    requires s.lastPhaseObservation.Some? ==> s.lastPhaseObservation.value < sample
    requires Remembered(s, log)
    ensures var s' := ObservePhase(s, sample, phase, modulus, sqrt);
            Remembered(s', log + Entry(ReportOf(s, sample, phase, modulus), s'.jump))
  {
    hide RatesOk, GainSpacing, NoteSpacing, BeginAcquire, FinishAcquire, Update, Outlying, Threshold, JumpAfter, Wrap,
         TuningOf, State.EstRate, Timeline.BeatAtSample, NewestRun, CandidateOf, MeanOf, Beyond, AbsR;
    SpacingPositive(s, sample);
    NoteKeeps(s, sample);
    BreakEnds(log);
    NoCandidate();
    var ours := s.Output().BeatAtSample(sample);
    var outErr, estErr := Wrap(phase - ours, modulus), Wrap(phase - s.estBeat, modulus);
    var threshold, spacing := Threshold(s, modulus), GainSpacing(s, sample);
    var s1 := NoteSpacing(s, sample).(lastPhaseObservation := Some(sample), phaseError := outErr);
    BeyondEntry(log, ReportOf(s, sample, phase, modulus), ObservePhase(s, sample, phase, modulus, sqrt).jump);
    var needed := s.Tuned().acquireObs;
    if s.resyncRequested {
      BeginJump(s1.(resyncRequested := false), sample, ours + outErr, needed);
    } else {
      match s.lock
      case Acquire =>
        if s.acquired == 0 {
          BeginJump(s1, sample, ours + outErr, needed);
        } else {
          UpdateKeepsLock(s1, estErr, spacing, sqrt);
          var s2 := Update(s1, estErr, spacing, sqrt);
          FinishJump(s2.(acquired := s2.acquired + 1), needed);
        }
      case Reacquire =>
        if AbsR(outErr) > threshold {
          BeginJump(s1.(locked := false), sample, ours + outErr, needed);
        } else {
          UpdateKeepsLock(s1.(locked := true, lock := Track), estErr, spacing, sqrt);
        }
      case Track =>
        if AbsR(estErr) <= threshold {
          UpdateKeepsLock(s1.(locked := true, jump := None), estErr, spacing, sqrt);
        } else {
          OutlierRemembered(s1.(locked := true), sample, ReportOf(s, sample, phase, modulus), log);
        }
    }
  }

  /** An outlier makes the candidate grow, or ends the run in a jump. */
  lemma OutlierRemembered(s: State, sample: real, r: Report, log: seq<Report>)
    requires s.sampleRate > 0.0 && s.lock == Track && s.jump == CandidateOf(NewestRun(log)) && s.tempoKnown
    requires r.Outlier? && r.modulus > 0.0 && r.sample == sample
    ensures var s' := Outlying(s, sample, r.residual, r.modulus, r.threshold);
            && s'.lock == Track && s'.tempoKnown && s'.jump == CandidateOf(NewestRun(log + Entry(r, s'.jump)))
  {
    hide Outlying, JumpAfter, TuningOf, State.EstRate, NewestRun, CandidateOf;
    JumpGrows(log, r);
    BreakEnds(log + [r]);
    NoCandidate();
    assert log + [r, Break] == log + [r] + [Break];
    OutlyingJump(s, sample, r.residual, r.modulus, r.threshold);
  }

  lemma NoCandidate()
    ensures CandidateOf([]) == None
  {
  }

  lemma NoteKeeps(s: State, sample: real)
    requires Valid(s)
    ensures NoteSpacing(s, sample) == s.(meanSpacing := NoteSpacing(s, sample).meanSpacing)
  {
    hide RawSpacing, MeanAfter;
  }

  lemma SteeredJump(s: State, t: real)
    requires Valid(s)
    ensures var s' := Steered(s, t);
            && s'.lock == s.lock && s'.jump == s.jump && s'.acquired == s.acquired && s'.tempoKnown == s.tempoKnown
            && s'.discontinuity == s.discontinuity
  {
  }

  lemma ObservedRemembered(s: State, obs: Observation, now: Float, sqrt: real -> real, log: seq<Report>)
    requires Valid(s) && Remembered(s, log)
    ensures Remembered(Observed(s, obs, now, sqrt), log + Logged(s, Observe(obs, now), sqrt))
  {
    hide Valid, Taken, Carried, ObservePhase, Steered, Target, ReportedTempo, ReportOf, NewestRun, CandidateOf;
    assert log + [] == log;
    if obs.sample.Finite? && now.Finite? && Taken(s, obs.sample.value, now.value).Some? {
      var sample, target, t := obs.sample.value, Target(obs.phase), now.value;
      JudgedValid(s, obs, t);
      JudgedKeeps(s, obs, t);
      var s1 := Judged(s, obs, t);
      if target.Some? {
        PhaseRemembered(s1, sample, target.value.0, target.value.1, sqrt, log);
        ObservePhaseValid(s1, sample, target.value.0, target.value.1, sqrt);
        SteeredJump(ObservePhase(s1, sample, target.value.0, target.value.1, sqrt), t);
      } else {
        TakenValid(s, sample, t);
        CarriedValid(Taken(s, sample, t).value, sample, target, ReportedTempo(obs.bpm));
        SteeredJump(Alive(s1), t);
        ReacquireIdle(s1);
        NoCandidate();
      }
    }
  }

  lemma ReacquireIdle(s: State)
    requires Valid(s)
    ensures s.lock == Reacquire ==> s.jump == None
  {
  }

  lemma JudgedKeeps(s: State, obs: Observation, now: real)
    requires Valid(s) && obs.sample.Finite? && Taken(s, obs.sample.value, now).Some?
    ensures var s1 := Judged(s, obs, now);
            && ((s1.lock == s.lock && s1.acquired == s.acquired) || (s1.lock == Acquire && s1.acquired == 0))
            && s1.jump == s.jump && s1.resyncRequested == s.resyncRequested && (s.tempoKnown ==> s1.tempoKnown)
            && (s1.lock == Acquire && s1.acquired == 0
                <==> WentBack(s, obs.sample.value) || (s.lock == Acquire && s.acquired == 0))
            && s1.discontinuity == s.discontinuity && s1.precision == s.precision
  {
    hide Valid, TempoFromPhase, State.EstRate;
  }

  lemma AfterRemembered(s: State, op: Op, sqrt: real -> real, log: seq<Report>)
    requires Valid(s) && Remembered(s, log)
    ensures Remembered(After(s, op, sqrt), log + Logged(s, op, sqrt))
  {
    hide Observed, Steered, NewestRun, CandidateOf, SetOutput, RatesOk;
    assert log + [] == log;
    BreakEnds(log);
    NoCandidate();
    match op
    case Observe(obs, now) => ObservedRemembered(s, obs, now, sqrt, log);
    case Advance(now) =>
      if now.Finite? {
        var s1 := if IsLost(s, now.value) then Lost(s) else s;
        RatesSame(s, s1);
        SteeredJump(s1, now.value);
      }
    case _ =>
  }

  // ---- Over a whole history ----

  /** The history of a run. */
  function History(s: State, ops: seq<Op>, sqrt: real -> real, log: seq<Report>): seq<Report>
    requires Valid(s)
    decreases |ops|
  {
    if ops == [] then log
    else
      AfterValid(s, ops[0], sqrt);
      History(After(s, ops[0], sqrt), ops[1..], sqrt, log + Logged(s, ops[0], sqrt))
  }

  lemma {:induction false} HistoryRemembered(s: State, ops: seq<Op>, sqrt: real -> real, log: seq<Report>)
    requires Valid(s) && Remembered(s, log)
    ensures Remembered(Run(s, ops, sqrt), History(s, ops, sqrt, log))
    decreases |ops|
  {
    hide After, Logged, Valid, Remembered;
    if ops != [] {
      AfterValid(s, ops[0], sqrt);
      AfterRemembered(s, ops[0], sqrt, log);
      HistoryRemembered(After(s, ops[0], sqrt), ops[1..], sqrt, log + Logged(s, ops[0], sqrt));
    }
  }

  /** The runs of a history are of outliers that agree with each other. */
  lemma HistoryRuns(s: State, ops: seq<Op>, sqrt: real -> real, log: seq<Report>)
    requires Valid(s) && Remembered(s, log)
    ensures var run := NewestRun(History(s, ops, sqrt, log)); run != [] ==> Consistent(run)
  {
    hide History, NewestRun, Consistent, CandidateOf, Valid;
    HistoryRemembered(s, ops, sqrt, log);
    NewestIsConsistent(History(s, ops, sqrt, log));
  }

  /** There are enough outliers in the run, over enough beats. */
  predicate Held(s: State, sample: real, run: seq<Report>)
    requires s.sampleRate > 0.0 && forall i :: 0 <= i < |run| ==> run[i].Outlier?
  {
    && |run| >= s.Tuned().jumpHoldObs && run != []
    && (sample - run[0].sample) * s.EstRate() >= s.Tuned().jumpHoldBeats
  }

  /** A phase report while tracking, no re-sync asked for: the output jumps exactly if the newest run of
      outliers, this one the last of it, is held; and an outlier that makes it not jump leaves the
      estimate where it was. */
  lemma PhaseJump(s: State, sample: real, phase: real, modulus: real, sqrt: real -> real, log: seq<Report>)
    requires Valid(s) && modulus > 0.0 && Remembered(s, log) && s.lock == Track && !s.resyncRequested
             && !s.discontinuity
    requires s.lastPhaseObservation.Some? ==> s.lastPhaseObservation.value < sample
    ensures s.sampleRate > 0.0
    ensures var s', r := ObservePhase(s, sample, phase, modulus, sqrt), ReportOf(s, sample, phase, modulus);
            && (s'.discontinuity <==> Held(s, sample, NewestRun(log + [r])))
            && (r.Outlier? && !s'.discontinuity ==>
                  s'.estBeat == s.estBeat && s'.estSample == s.estSample && s'.bpm == s.bpm && s'.drift == s.drift)
  {
    hide RatesOk, GainSpacing, NoteSpacing, Noted, Update, Outlying, Threshold, Wrap, TuningOf, State.EstRate,
         NewestRun, CandidateOf, Beyond, AbsR, Held, ObservePhase, Valid, Fade;
    TrackStep(s, sample, phase, modulus, sqrt);
    NotHeld(s, sample);
    BreakEnds(log);
    var estErr, threshold := Wrap(phase - s.estBeat, modulus), Threshold(s, modulus);
    var s1 := Noted(s, sample, phase, modulus).(locked := true);
    if AbsR(estErr) <= threshold {
      UpdateKeepsLock(s1.(jump := None), estErr, GainSpacing(s, sample), sqrt);
    } else {
      OutlierJumps(s, s1, sample, ReportOf(s, sample, phase, modulus), log);
    }
  }

  /** The state with a report noted, before it is acted on. */
  function Noted(s: State, sample: real, phase: real, modulus: real): (s': State)
    requires s.sampleRate > 0.0 && modulus > 0.0
    ensures s' == s.(meanSpacing := s'.meanSpacing, lastPhaseObservation := s'.lastPhaseObservation,
                     phaseError := s'.phaseError)
  {
    NoteSpacing(s, sample).(lastPhaseObservation := Some(sample),
                            phaseError := Wrap(phase - s.Output().BeatAtSample(sample), modulus))
  }

  lemma TrackStep(s: State, sample: real, phase: real, modulus: real, sqrt: real -> real)
    requires Valid(s) && modulus > 0.0 && s.lock == Track && !s.resyncRequested
    requires s.lastPhaseObservation.Some? ==> s.lastPhaseObservation.value < sample
    ensures s.sampleRate > 0.0 && (GainSpacing(s, sample).Span? ==> GainSpacing(s, sample).beats >= 0.0)
    ensures var estErr, threshold := Wrap(phase - s.estBeat, modulus), Threshold(s, modulus);
            var s1 := Noted(s, sample, phase, modulus).(locked := true);
            ObservePhase(s, sample, phase, modulus, sqrt)
            == if AbsR(estErr) <= threshold then Update(s1.(jump := None), estErr, GainSpacing(s, sample), sqrt)
               else Outlying(s1, sample, estErr, modulus, threshold)
  {
    PositiveRate(s);
    hide RatesOk, GainSpacing, NoteSpacing, Update, Outlying, Threshold, Wrap, TuningOf, State.EstRate, AbsR,
         Timeline.BeatAtSample;
    SpacingPositive(s, sample);
    NoteKeeps(s, sample);
  }

  lemma OutlierJumps(s: State, s1: State, sample: real, r: Report, log: seq<Report>)
    requires s.sampleRate > 0.0 && s1.lock == Track && s1.jump == CandidateOf(NewestRun(log)) && !s1.discontinuity
    requires s1.sampleRate == s.sampleRate && s1.bpm == s.bpm && s1.drift == s.drift && s1.precision == s.precision
    requires r.Outlier? && r.modulus > 0.0 && r.sample == sample
    ensures var s' := Outlying(s1, sample, r.residual, r.modulus, r.threshold);
            && (s'.discontinuity <==> Held(s, sample, NewestRun(log + [r])))
            && (!s'.discontinuity ==> s' == s1.(jump := s'.jump))
  {
    hide Outlying, JumpAfter, TuningOf, State.EstRate, NewestRun, CandidateOf, Held;
    JumpGrows(log, r);
    OutlyingJump(s1, sample, r.residual, r.modulus, r.threshold);
    SameEstRate(s, s1);
    HeldIs(s, sample, NewestRun(log + [r]), JumpAfter(s1.jump, sample, r.residual, r.modulus, r.threshold));
  }

  lemma NotHeld(s: State, sample: real)
    requires s.sampleRate > 0.0
    ensures !Held(s, sample, [])
  {
  }

  lemma HeldIs(s: State, sample: real, run: seq<Report>, j: Jump)
    requires s.sampleRate > 0.0 && run != [] && forall i :: 0 <= i < |run| ==> run[i].Outlier? && run[i].modulus > 0.0
    requires CandidateOf(run) == Some(j)
    ensures Held(s, sample, run)
            <==> (sample - j.since) * s.EstRate() >= s.Tuned().jumpHoldBeats && j.count >= s.Tuned().jumpHoldObs
  {
    hide State.EstRate, MeanOf, TuningOf;
  }

  // ---- Our own clock going back ----

  /** A report stamped more than the timeout before the newest one: our own sample clock went back,
      and the follower starts afresh. */
  predicate WentBack(s: State, sample: real)
  {
    s.lastObservation.Some? && s.lastObservation.value - sample > s.Timeout()
  }

  /** A follower that starts afresh at a known tempo snaps to its first phase report, unless it has to
      average several. */
  lemma FreshJump(s: State, sample: real, phase: real, modulus: real, sqrt: real -> real)
    requires Valid(s) && modulus > 0.0 && s.lock == Acquire && s.acquired == 0 && !s.resyncRequested && !s.discontinuity
    requires s.lastPhaseObservation.Some? ==> s.lastPhaseObservation.value < sample
    requires s.tempoKnown
    ensures ObservePhase(s, sample, phase, modulus, sqrt).discontinuity <==> s.precision != Coarse
  {
    hide RatesOk, GainSpacing, NoteSpacing, BeginAcquire, Update, Outlying, Threshold, JumpAfter, Wrap, State.EstRate,
         Timeline.BeatAtSample;
    SpacingPositive(s, sample);
    NoteKeeps(s, sample);
    var ours := s.Output().BeatAtSample(sample);
    var outErr := Wrap(phase - ours, modulus);
    var s1 := NoteSpacing(s, sample).(lastPhaseObservation := Some(sample), phaseError := outErr);
    BeginJump(s1, sample, ours + outErr, s.Tuned().acquireObs);
    AveragesMany(s.precision);
  }

  lemma AveragesMany(p: Precision)
    ensures TuningOf(p).acquireObs <= 1 <==> p != Coarse
  {
  }

  // ---- Over every history ----

  /** What makes a tracking follower jump on a phase report: the report comes after our own clock went
      back, and this precision does not average; or it is the last of a run of outliers that is held. */
  predicate JumpsOn(s: State, op: Op, log: seq<Report>)
    requires Valid(s) && TakesPhase(s, op)
  {
    JudgedValid(s, op.obs, op.now.value);
    if WentBack(s, op.obs.sample.value) then s.precision != Coarse
    else Held(Judged(s, op.obs, op.now.value), op.obs.sample.value, NewestRun(log + [NewReport(s, op)]))
  }

  /** Over every history: while the follower tracks and no re-sync was asked for, an operation other
      than a reset moves the timeline if and only if it is such a report; an inlier, a lost lock or a
      changed precision ends the run of outliers a jump needs. */
  lemma JumpsAreHeld(sampleRate: real, bpm: Float, p: Precision, ops: seq<Op>, op: Op, sqrt: real -> real)
    requires sampleRate > 0.0
    ensures Valid(New(sampleRate, bpm, p))
    ensures var s := Run(New(sampleRate, bpm, p), ops, sqrt);
            var log := History(New(sampleRate, bpm, p), ops, sqrt, []);
            && (!s.discontinuity && !s.resyncRequested && s.lock == Track && !op.Reset? ==>
                  (After(s, op, sqrt).discontinuity <==> TakesPhase(s, op) && JumpsOn(s, op, log)))
            && (NewestRun(log) != [] ==> Consistent(NewestRun(log)))
  {
    hide After, History, JumpsOn, Remembered, Valid, NewestRun, Consistent;
    NewValid(sampleRate, bpm, p);
    var s0 := New(sampleRate, bpm, p);
    NewRemembered(sampleRate, bpm, p);
    HistoryRemembered(s0, ops, sqrt, []);
    HistoryRuns(s0, ops, sqrt, []);
    var s := Run(s0, ops, sqrt);
    if !s.discontinuity && !s.resyncRequested && s.lock == Track && !op.Reset? {
      StepJump(s, op, sqrt, History(s0, ops, sqrt, []));
    }
  }

  lemma NewRemembered(sampleRate: real, bpm: Float, p: Precision)
    requires sampleRate > 0.0
    ensures Remembered(New(sampleRate, bpm, p), [])
  {
  }

  lemma StepJump(s: State, op: Op, sqrt: real -> real, log: seq<Report>)
    requires Valid(s) && Remembered(s, log)
    requires !s.discontinuity && !s.resyncRequested && s.lock == Track && !op.Reset?
    ensures After(s, op, sqrt).discontinuity <==> TakesPhase(s, op) && JumpsOn(s, op, log)
  {
    hide Valid, Carried, ObservePhase, Steered, Target, ReportedTempo, ReportOf, Held, Taken, WithPrecision, NewestRun,
         CandidateOf, WentBack;
    match op
    case Observe(obs, now) =>
      if obs.sample.Finite? && now.Finite? && Taken(s, obs.sample.value, now.value).Some? {
        var sample, target, t := obs.sample.value, Target(obs.phase), now.value;
        JudgedValid(s, obs, t);
        JudgedKeeps(s, obs, t);
        var s1 := Judged(s, obs, t);
        TakenValid(s, sample, t);
        CarriedValid(Taken(s, sample, t).value, sample, target, ReportedTempo(obs.bpm));
        if target.Some? {
          ObservePhaseValid(s1, sample, target.value.0, target.value.1, sqrt);
          SteeredJump(ObservePhase(s1, sample, target.value.0, target.value.1, sqrt), t);
          if WentBack(s, sample) {
            FreshJump(s1, sample, target.value.0, target.value.1, sqrt);
          } else {
            PhaseJump(s1, sample, target.value.0, target.value.1, sqrt, log);
          }
        } else {
          SteeredJump(Alive(s1), t);
        }
      }
    case Advance(now) => AdvancedValid(s, now);
    case SetPrecision(p) => PrecisionFlag(s, p);
    case RequestResync =>
    case TakeDiscontinuity =>
  }

  lemma PrecisionFlag(s: State, p: Precision)
    ensures WithPrecision(s, p).discontinuity == s.discontinuity
  {
  }
}
