/** The tap sequence in front of the engine: a tap it ignores makes no call, any other calls with its
    report. */
module TappedRuns {
  import opened Numbers
  import opened Clock
  import opened Observing
  import opened Engines
  import TapTempos

  /** A tap at a sample position, with the follower's answer should the engine follow, or a call. */
  datatype Move = Press(sample: Float, next: Timeline, snapped: bool) | Made(op: Op)

  predicate MoveValid(m: Move)
  {
    match m
    case Press(_, next, _) => next.Valid()
    case Made(op) => OpValid(op) && !op.Tap?
  }

  predicate MovesValid(moves: seq<Move>) { forall i :: 0 <= i < |moves| ==> MoveValid(moves[i]) }

  /** The call a report of the tap sequence makes. */
  function TapOf(obs: Observation, next: Timeline, snapped: bool): Op
    requires obs.sample.Finite?
  {
    var bpm := if obs.bpm.Some? && obs.bpm.value.Finite? then Some(obs.bpm.value.value) else None;
    Tap(obs.sample.value, bpm, next, snapped)
  }

  /** What a move leaves of the tap sequence, and the calls it makes. */
  function Moved(s: TapTempos.TapState, m: Move): (r: (TapTempos.TapState, seq<Op>))
    requires TapTempos.Valid(s) && MoveValid(m)
    ensures TapTempos.Valid(r.0) && OpsValid(r.1)
  {
    match m
    case Made(op) => (s, [op])
    case Press(sample, next, snapped) =>
      TapTempos.TapAtKeeps(s, sample);
      TapTempos.TapReports(s, sample);
      var (s', out) := TapTempos.TapAt(s, sample);
      (s', if out.Some? then [TapOf(out.value, next, snapped)] else [])
  }

  /** The engine's calls over a run of moves. */
  function Ops(s: TapTempos.TapState, moves: seq<Move>): (ops: seq<Op>)
    requires TapTempos.Valid(s) && MovesValid(moves)
    ensures OpsValid(ops)
    decreases |moves|
  {
    if moves == [] then [] else Moved(s, moves[0]).1 + Ops(Moved(s, moves[0]).0, moves[1..])
  }

  /** Every tap that reaches the engine carries a tempo in range: an internal clock is never moved
      without one. */
  lemma {:induction false} TapsCarryTempo(s: TapTempos.TapState, moves: seq<Move>)
    requires TapTempos.Valid(s) && MovesValid(moves)
    ensures forall op <- Ops(s, moves) :: op.Tap? ==> op.bpm.Some? && MIN_BPM <= op.bpm.value <= MAX_BPM
    decreases |moves|
  {
    hide TapTempos.TapAt, TapTempos.Valid;
    if moves != [] {
      TapsCarryTempo(Moved(s, moves[0]).0, moves[1..]);
      if moves[0].Press? { TapCarriesTempo(s, moves[0].sample, moves[0].next, moves[0].snapped); }
    }
  }

  lemma TapCarriesTempo(s: TapTempos.TapState, sample: Float, next: Timeline, snapped: bool)
    requires TapTempos.Valid(s)
    ensures var out := TapTempos.TapAt(s, sample).1;
            out.Some? ==>
              && out.value.sample.Finite?
              && var op := TapOf(out.value, next, snapped); op.bpm.Some? && MIN_BPM <= op.bpm.value <= MAX_BPM
  {
    hide TapTempos.Joined, TapTempos.PushTap, TapTempos.Median, TapTempos.Intervals, TapTempos.AtMost,
         TapTempos.AtLeast, TapTempos.FittedLastBeat;
    TapTempos.TapReports(s, sample);
  }

  // ---- Moves one at a time ----

  lemma OpsDone(s: TapTempos.TapState)
    requires TapTempos.Valid(s)
    ensures Ops(s, []) == []
  {
  }

  lemma OpsMade(s: TapTempos.TapState, op: Op, rest: seq<Move>)
    requires TapTempos.Valid(s) && MovesValid(rest) && OpValid(op) && !op.Tap?
    ensures MovesValid([Made(op)] + rest) && Ops(s, [Made(op)] + rest) == [op] + Ops(s, rest)
  {
    assert ([Made(op)] + rest)[1..] == rest;
  }

  /** A first tap makes no call. */
  lemma OpsFirst(sampleRate: real, a: real, next: Timeline, rest: seq<Move>)
    requires sampleRate > 0.0 && next.Valid() && MovesValid(rest)
    ensures TapTempos.Valid(TapTempos.TapState(sampleRate, [], 0))
    ensures TapTempos.Valid(TapTempos.TapState(sampleRate, [a], 0))
    ensures var press := Press(Finite(a), next, false);
            && MovesValid([press] + rest)
            && Ops(TapTempos.TapState(sampleRate, [], 0), [press] + rest)
               == Ops(TapTempos.TapState(sampleRate, [a], 0), rest)
  {
    var press := Press(Finite(a), next, false);
    assert ([press] + rest)[1..] == rest;
    assert TapTempos.PushTap([], a) == [a];
  }

  /** A second one a beat behind it calls with the tempo. */
  lemma OpsSecond(sampleRate: real, a: real, b: real, next: Timeline, rest: seq<Move>)
    requires sampleRate > 0.0 && a < b <= a + 2.0 * sampleRate && MIN_BPM <= 60.0 * sampleRate / (b - a) <= MAX_BPM
    requires next.Valid() && MovesValid(rest)
    ensures TapTempos.Valid(TapTempos.TapState(sampleRate, [a], 0))
    ensures TapTempos.Valid(TapTempos.TapState(sampleRate, [a, b], 0))
    ensures var press, bpm := Press(Finite(b), next, false), 60.0 * sampleRate / (b - a);
            && MovesValid([press] + rest)
            && Ops(TapTempos.TapState(sampleRate, [a], 0), [press] + rest)
               == [Tap(b, Some(bpm), next, false)] + Ops(TapTempos.TapState(sampleRate, [a, b], 0), rest)
  {
    hide TapTempos.TapAt, TapTempos.Valid;
    TapTempos.TwoTaps(sampleRate, a, b);
    TapTempos.TapAtKeeps(TapTempos.TapState(sampleRate, [a], 0), Finite(b));
    var press := Press(Finite(b), next, false);
    assert ([press] + rest)[1..] == rest;
  }
}
