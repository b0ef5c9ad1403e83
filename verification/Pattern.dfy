/** Queue events and the one-bar pattern they are scheduled from. */
module Pattern {
  import opened Numbers

  const STEP_COUNT := 16
  const VOICE_COUNT := 10
  const BEATS_PER_STEP := 0.25
  const MAX_SHUFFLE_BEATS := BEATS_PER_STEP / 3.0
  const UNACCENTED_VELOCITY := 0.7
  const FLAM_MIN_S := 0.008
  const FLAM_MAX_S := 0.040
  const FLAM_GRACE_RATIO := 0.6

  /** A voice is its track index. */
  type VoiceId = v: nat | v < VOICE_COUNT

  datatype VoiceParam = Tune | Decay | Level | Snappy | Tone

  datatype MasterParam = OutputGain | Limiter

  datatype ParamTarget = Voice(voice: VoiceId, param: VoiceParam) | Master(master: MasterParam)

  datatype EventKind =
    | Trigger(voice: VoiceId, velocity: real)
    | Param(target: ParamTarget, value: real)
    | Flush

  datatype Event = Event(sample: nat, kind: EventKind)

  datatype Step = Step(on: bool, accent: bool, flam: bool)

  datatype Track = Track(steps: seq<Step>, mute: bool)

  datatype Pattern = Pattern(tracks: seq<Track>, shuffle: real, accent: real, flam: real)
  {
    predicate Valid()
    {
      && |tracks| == VOICE_COUNT
      && forall v :: 0 <= v < VOICE_COUNT ==> |tracks[v].steps| == STEP_COUNT
    }

    function FlamSeconds(): real
    {
      FLAM_MIN_S + (FLAM_MAX_S - FLAM_MIN_S) * Clamp(flam, 0.0, 1.0)
    }

    /** Beats from beat 0 to an absolute step, with the shuffle delay of off-beat sixteenths. */
    function StepBeat(step: nat): real
    {
      var base := step as real * BEATS_PER_STEP;
      if step % 2 == 1 then base + Clamp(shuffle, 0.0, 1.0) * MAX_SHUFFLE_BEATS else base
    }

    function Velocity(step: Step): real
    {
      if step.accent then UNACCENTED_VELOCITY + (1.0 - UNACCENTED_VELOCITY) * Clamp(accent, 0.0, 1.0)
      else UNACCENTED_VELOCITY
    }

    /** What `voice` plays on absolute step `step`. */
    function At(voice: VoiceId, step: nat): Step
      requires Valid()
    {
      tracks[voice].steps[step % STEP_COUNT]
    }

    /** Some unmuted voice plays a flam on this step. */
    predicate HasFlam(step: nat)
      requires Valid()
    {
      exists v :: 0 <= v < VOICE_COUNT && !tracks[v].mute && At(v, step).on && At(v, step).flam
    }
  }

  /** Shuffle never lets a step overtake, or come nearer than a sixth of a beat to, the next one,
      and twelve steps are always exactly three beats. */
  lemma StepBeatSpacing(p: Pattern, step: nat)
    ensures p.StepBeat(step + 1) - p.StepBeat(step) >= 1.0 / 6.0
    ensures p.StepBeat(step + 12) == p.StepBeat(step) + 3.0
    ensures step as real * BEATS_PER_STEP <= p.StepBeat(step) <= (step + 1) as real * BEATS_PER_STEP
  {
    assert (step + 12) % 2 == step % 2;
  }

  lemma {:induction false} StepBeatIncreasing(p: Pattern, a: nat, b: nat)
    requires a < b
    ensures p.StepBeat(b) - p.StepBeat(a) >= 1.0 / 6.0
    decreases b
  {
    StepBeatSpacing(p, b - 1);
    if a < b - 1 { StepBeatIncreasing(p, a, b - 1); }
  }

  /** A flam spacing between 8 and 40 ms, whatever the pattern says. */
  lemma FlamSecondsInRange(p: Pattern)
    ensures FLAM_MIN_S <= p.FlamSeconds() <= FLAM_MAX_S
  {
    var f := Clamp(p.flam, 0.0, 1.0);
    assert (FLAM_MAX_S - FLAM_MIN_S) * f <= FLAM_MAX_S - FLAM_MIN_S;
  }
}
