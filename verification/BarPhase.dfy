/** Where in the bar a MIDI clock says it is, counted on the messages themselves. */
module BarPhases {
  import opened Numbers
  import opened Clock
  import opened Observing
  import opened MidiClocks

  // ---- Counting on the messages ----

  /** Whether the messages leave the song running: the newest of Start, Continue and Stop decides. */
  function IsRunning(messages: seq<Timed>): bool
  {
    if messages == [] then false
    else
      match messages[|messages| - 1].message
      case Start => true
      case Continue => true
      case Stop => false
      case TimingClock => IsRunning(messages[..|messages| - 1])
  }

  /** The pulses of the song so far: those that came while it ran, counted from the newest Start. */
  function SongPulses(messages: seq<Timed>): nat
  {
    if messages == [] then 0
    else
      var before, newest := messages[..|messages| - 1], messages[|messages| - 1];
      match newest.message
      case Start => 0
      case TimingClock => SongPulses(before) + if newest.sample.Finite? && IsRunning(before) then 1 else 0
      case _ => SongPulses(before)
  }

  // ---- The follower counts the same ----

  ghost predicate CountsTo(s: MidiState, messages: seq<Timed>)
  {
    s.running == IsRunning(messages) && s.pulses == SongPulses(messages)
  }

  /** A report's bar position: `pulses` pulses into the song, at 24 a beat and four beats a bar. */
  predicate InBar(obs: Observation, pulses: nat)
  {
    && obs.phase.Bar? && obs.phase.position.Finite?
    && 0.0 <= obs.phase.position.value < 4.0 && 24.0 * obs.phase.position.value == (pulses % 96) as real
  }

  /** What a report may say, given the messages before the one that makes it. */
  predicate Tells(obs: Observation, m: Timed, before: seq<Timed>)
  {
    && m.message.TimingClock? && m.sample.Finite? && obs.sample == m.sample
    && (if IsRunning(before) then InBar(obs, SongPulses(before)) else obs.phase.TempoOnly?)
    && obs.bpm.Some? && obs.bpm.value.Finite? && MIN_BPM <= obs.bpm.value.value <= MAX_BPM
  }

  lemma BarOf(pulses: nat)
    ensures var b := RemEuclid(pulses as real / PPQN, 4.0); 0.0 <= b < 4.0 && 24.0 * b == (pulses % 96) as real
  {
    var bars := pulses / 96;
    var rest := pulses % 96;
    assert pulses as real == 96.0 * bars as real + rest as real;
    assert pulses as real / PPQN / 4.0 == bars as real + rest as real / 96.0;
    assert (pulses as real / PPQN / 4.0).Floor == bars;
  }

  lemma AcceptedCounts(s: MidiState, index: nat, sample: real, sqrt: real -> real)
    ensures var s' := Accepted(s, index, sample, sqrt).0;
            s'.running == s.running && s'.pulses == s.pulses && s'.sampleRate == s.sampleRate
  {
    hide PeriodOf, PredictOf, MaxGap;
  }

  lemma PulseTells(s: MidiState, sample: real, sqrt: real -> real, before: seq<Timed>)
    requires CountsTo(s, before)
    ensures var (s', out) := Pulsed(s, sample, sqrt);
            && CountsTo(s', before + [Timed(TimingClock, Finite(sample))])
            && (out.Some? ==> Tells(out.value, Timed(TimingClock, Finite(sample)), before))
  {
    hide Accepted, TempoOf, Unconfirmed, RemEuclid;
    AcceptedCounts(Counted(s), s.index, sample, sqrt);
    BarOf(s.pulses);
    var after := before + [Timed(TimingClock, Finite(sample))];
    assert after[..|after| - 1] == before;
  }

  lemma MessageTells(s: MidiState, m: Timed, sqrt: real -> real, before: seq<Timed>)
    requires CountsTo(s, before)
    ensures var (s', out) := Handled(s, m.message, m.sample, sqrt);
            CountsTo(s', before + [m]) && (out.Some? ==> Tells(out.value, m, before))
  {
    hide Pulsed, Tells;
    assert (before + [m])[..|before + [m]| - 1] == before;
    if m.message.TimingClock? && m.sample.Finite? { PulseTells(s, m.sample.value, sqrt, before); }
  }

  /** Whatever messages come: each report is made by a timing clock, stamped as that was, and says, while
      the song runs, how far into its bar the song is by the pulses since Start, which Stop and
      Continue leave standing; while it does not run, only the tempo. */
  lemma {:induction false} ReportsTell(s: MidiState, messages: seq<Timed>, sqrt: real -> real, before: seq<Timed>)
    requires CountsTo(s, before)
    ensures var (s', outs) := HandledAll(s, messages, sqrt);
            && CountsTo(s', before + messages)
            && forall i :: 0 <= i < |messages| && outs[i].Some? ==>
                 Tells(outs[i].value, messages[i], before + messages[..i])
    decreases |messages|
  {
    hide Handled, Tells, CountsTo;
    if messages == [] {
      assert before + messages == before;
    } else {
      var m, rest := messages[0], messages[1..];
      MessageTells(s, m, sqrt, before);
      ReportsTell(Handled(s, m.message, m.sample, sqrt).0, rest, sqrt, before + [m]);
      assert before + [m] + rest == before + messages;
      assert before + messages[..0] == before;
      var outs := HandledAll(s, messages, sqrt).1;
      forall i | 1 <= i < |messages| && outs[i].Some?
        ensures Tells(outs[i].value, messages[i], before + messages[..i])
      {
        assert before + [m] + rest[..i - 1] == before + messages[..i];
        assert rest[i - 1] == messages[i];
      }
    }
  }

  /** So for a new follower, of all its messages. */
  lemma SongPosition(sampleRate: real, messages: seq<Timed>, sqrt: real -> real)
    ensures var outs := HandledAll(NewState(sampleRate), messages, sqrt).1;
            forall i :: 0 <= i < |messages| && outs[i].Some? ==> Tells(outs[i].value, messages[i], messages[..i])
  {
    hide Tells, HandledAll;
    ReportsTell(NewState(sampleRate), messages, sqrt, []);
    assert [] + messages == messages;
    forall i | 0 <= i < |messages|
      ensures [] + messages[..i] == messages[..i]
    {
    }
  }
}
