/** What a listener hears of a pattern: which voice sounds on a step, when, and how loud, read off the
    pattern's own tracks. */
module Sounding {
  import opened Numbers
  import opened Clock
  import opened Pattern
  import opened Scheduling

  // ---- The sound of one voice ----

  /** A trigger of this voice. */
  predicate Sounds(e: Event, voice: VoiceId) { e.kind.Trigger? && e.kind.voice == voice }

  /** What a sequence of events has for one voice. */
  function OfVoice(events: seq<Event>, voice: VoiceId): (own: seq<Event>)
    ensures forall e <- own :: Sounds(e, voice)
  {
    if events == [] then []
    else
      var last := events[|events| - 1];
      OfVoice(events[..|events| - 1], voice) + if Sounds(last, voice) then [last] else []
  }

  lemma {:induction false} OfVoiceConcat(a: seq<Event>, b: seq<Event>, voice: VoiceId)
    ensures OfVoice(a + b, voice) == OfVoice(a, voice) + OfVoice(b, voice)
    decreases |b|
  {
    if b == [] {
      assert a + b == a;
    } else {
      var n := |b| - 1;
      assert (a + b)[..|a + b| - 1] == a + b[..n];
      OfVoiceConcat(a, b[..n], voice);
    }
  }

  lemma {:induction false} OfVoiceNone(events: seq<Event>, voice: VoiceId)
    requires forall e <- events :: !Sounds(e, voice)
    ensures OfVoice(events, voice) == []
  {
    if events != [] { OfVoiceNone(events[..|events| - 1], voice); }
  }

  lemma {:induction false} OfVoiceAll(events: seq<Event>, voice: VoiceId)
    requires forall e <- events :: Sounds(e, voice)
    ensures OfVoice(events, voice) == events
  {
    if events != [] {
      OfVoiceAll(events[..|events| - 1], voice);
      assert events == events[..|events| - 1] + [events[|events| - 1]];
    }
  }

  lemma OtherVoices(p: Pattern, c: AdjustedClock, step: nat, other: VoiceId, voice: VoiceId)
    requires p.Valid() && c.Valid()
    ensures other != voice ==> OfVoice(VoiceEvents(p, c, step, other), voice) == []
    ensures OfVoice(VoiceEvents(p, c, step, voice), voice) == VoiceEvents(p, c, step, voice)
  {
    hide StepSample, FlamSamples, Pattern.Velocity, OfVoice;
    if other != voice { OfVoiceNone(VoiceEvents(p, c, step, other), voice); }
    OfVoiceAll(VoiceEvents(p, c, step, voice), voice);
  }

  /** What a step has for a voice is what that voice plays, whatever the others do. */
  lemma {:induction false} VoiceStands(p: Pattern, c: AdjustedClock, step: nat, voices: nat, voice: VoiceId)
    requires p.Valid() && c.Valid() && voices <= VOICE_COUNT
    ensures OfVoice(EventsOfFirst(p, c, step, voices), voice)
            == if voice < voices then VoiceEvents(p, c, step, voice) else []
  {
    hide VoiceEvents, OfVoice;
    assert OfVoice([], voice) == [] by { OfVoiceNone([], voice); }
    if voices > 0 {
      VoiceStands(p, c, step, voices - 1, voice);
      OfVoiceConcat(EventsOfFirst(p, c, step, voices - 1), VoiceEvents(p, c, step, voices - 1), voice);
      OtherVoices(p, c, step, voices - 1, voice);
    }
  }

  // ---- One step ----

  /** A hit of `voice` at `sample`. */
  predicate IsHit(e: Event, voice: VoiceId, sample: nat)
  {
    e.sample == sample && Sounds(e, voice)
  }

  /** On every step and for every voice: nothing if its track is muted or the step is off; otherwise
      exactly one hit, on the step's own sample; and ahead of it, if the step is a flam, exactly one
      grace note, at 0.6 of its velocity, earlier by the flam but not before sample 0. */
  lemma StepSounds(p: Pattern, c: AdjustedClock, step: nat, voice: VoiceId)
    requires p.Valid() && c.Valid()
    ensures var own, s := OfVoice(StepEvents(p, c, step), voice), p.tracks[voice].steps[step % 16];
            var at := StepSample(p, c, step);
            && (p.tracks[voice].mute || !s.on ==> own == [])
            && (!p.tracks[voice].mute && s.on ==>
                  && |own| == (if s.flam then 2 else 1)
                  && IsHit(own[|own| - 1], voice, at) && own[|own| - 1].kind.velocity == p.Velocity(s)
                  && (s.flam ==>
                        && IsHit(own[0], voice, if at >= FlamSamples(p, c) then at - FlamSamples(p, c) else 0)
                        && own[0].kind.velocity == 0.6 * own[1].kind.velocity))
  {
    hide StepSample, FlamSamples, Pattern.Velocity;
    VoiceStands(p, c, step, VOICE_COUNT, voice);
    assert p.At(voice, step) == p.tracks[voice].steps[step % 16];
  }

  /** A plain hit has velocity 0.7. An accented one is never quieter, the louder the more accent, and
      reaches velocity 1 at full accent. */
  lemma AccentIsLouder(p: Pattern, q: Pattern, plain: Step, accented: Step)
    requires !plain.accent && accented.accent
    ensures p.Velocity(plain) == 0.7 <= p.Velocity(accented) <= 1.0
    ensures p.accent <= 0.0 ==> p.Velocity(accented) == 0.7
    ensures p.accent >= 1.0 ==> p.Velocity(accented) == 1.0
    ensures 0.0 <= p.accent < q.accent <= 1.0 ==> p.Velocity(accented) < q.Velocity(accented)
    ensures 0.0 <= p.accent < q.accent <= 1.0 ==>
              q.Velocity(accented) - p.Velocity(accented) <= 0.3 * (q.accent - p.accent)
  {
  }

  /** A flam spans 8 ms at its tightest, 40 ms at its widest, and what lies between in proportion. */
  lemma FlamWidens(p: Pattern, q: Pattern)
    ensures p.flam <= 0.0 ==> p.FlamSeconds() == 0.008
    ensures p.flam >= 1.0 ==> p.FlamSeconds() == 0.040
    ensures 0.0 <= p.flam < q.flam <= 1.0 ==> p.FlamSeconds() < q.FlamSeconds()
    ensures 0.0 <= p.flam <= 1.0 && q.flam == 1.0 - p.flam ==> p.FlamSeconds() + q.FlamSeconds() == 0.048
  {
  }

  /** A grace note comes that long before its hit, to the nearest sample: 8 to 40 ms. */
  lemma FlamInSamples(p: Pattern, c: AdjustedClock)
    requires c.Valid()
    ensures var samples := FlamSamples(p, c) as real;
            && -0.5 <= samples - p.FlamSeconds() * c.SampleRate() <= 0.5
            && 0.008 * c.SampleRate() - 0.5 <= samples <= 0.040 * c.SampleRate() + 0.5
  {
    hide FlamSamples, Pattern.FlamSeconds, AdjustedClock.SampleRate;
    FlamSecondsInRange(p);
    RatePositive(c);
    var seconds, rate := p.FlamSeconds(), c.SampleRate();
    FlamRange(seconds, rate);
    FlamIsNear(p, c, seconds * rate, rate);
  }

  lemma FlamIsNear(p: Pattern, c: AdjustedClock, x: real, rate: real)
    requires c.Valid() && x == p.FlamSeconds() * c.SampleRate() && 0.0 <= 0.008 * rate <= x <= 0.040 * rate
    ensures -0.5 <= FlamSamples(p, c) as real - x <= 0.5
    ensures 0.008 * rate - 0.5 <= FlamSamples(p, c) as real <= 0.040 * rate + 0.5
  {
    RoundNear(x);
  }

  lemma RatePositive(c: AdjustedClock)
    requires c.Valid()
    ensures c.SampleRate() > 0.0
  {
  }

  lemma FlamRange(seconds: real, rate: real)
    requires 0.008 <= seconds <= 0.040 && rate > 0.0
    ensures 0.0 <= 0.008 * rate <= seconds * rate <= 0.040 * rate
  {
    var over, under := seconds - 0.008, 0.040 - seconds;
    assert over * rate >= 0.0 && under * rate >= 0.0;
    assert seconds * rate == 0.008 * rate + over * rate;
    assert under * rate == 0.040 * rate - seconds * rate;
  }

  /** Shuffle leaves the even sixteenths on the grid and delays the odd ones, to the last third of the
      eighth note at its fullest. */
  lemma ShuffleSwings(p: Pattern, q: Pattern, step: nat)
    ensures step % 2 == 0 ==> p.StepBeat(step) * 4.0 == step as real
    ensures step % 2 == 1 && p.shuffle <= 0.0 ==> p.StepBeat(step) * 4.0 == step as real
    ensures step % 2 == 1 && p.shuffle >= 1.0 ==>
              p.StepBeat(step) - p.StepBeat(step - 1) == 2.0 * (p.StepBeat(step + 1) - p.StepBeat(step))
    ensures step % 2 == 1 && 0.0 <= p.shuffle < q.shuffle <= 1.0 ==> p.StepBeat(step) < q.StepBeat(step)
    ensures step % 2 == 1 && 0.0 <= p.shuffle <= 1.0 && q.shuffle == 1.0 - p.shuffle ==>
              p.StepBeat(step) + q.StepBeat(step) == 0.5 * step as real + 1.0 / 12.0
  {
  }

  // ---- A whole bar ----

  /** How many triggers a voice has on steps `first` to `end - 1` of its track. */
  function Written(t: Track, first: nat, end: nat): nat
    requires |t.steps| == STEP_COUNT && first <= end
    decreases end
  {
    if first == end || t.mute then 0
    else
      var s := t.steps[(end - 1) % 16];
      Written(t, first, end - 1) + if !s.on then 0 else if s.flam then 2 else 1
  }

  /** However far the stream goes, each voice sounds as often as its track is written. */
  lemma {:induction false} StreamSounds(p: Pattern, c: AdjustedClock, first: nat, end: nat, voice: VoiceId)
    requires p.Valid() && c.Valid() && first <= end
    ensures |OfVoice(Stream(p, c, first, end), voice)| == Written(p.tracks[voice], first, end)
    decreases end
  {
    hide StepEvents, OfVoice;
    assert OfVoice([], voice) == [] by { OfVoiceNone([], voice); }
    if first < end {
      StreamSounds(p, c, first, end - 1, voice);
      OfVoiceConcat(Stream(p, c, first, end - 1), StepEvents(p, c, end - 1), voice);
      StepIsWritten(p, c, end - 1, voice);
      MutedIsSilent(p, c, first, end - 1, voice);
    }
  }

  lemma StepIsWritten(p: Pattern, c: AdjustedClock, step: nat, voice: VoiceId)
    requires p.Valid() && c.Valid()
    ensures var t, s := p.tracks[voice], p.tracks[voice].steps[step % 16];
            |OfVoice(StepEvents(p, c, step), voice)| == if t.mute || !s.on then 0 else if s.flam then 2 else 1
  {
    hide StepEvents, OfVoice, StepSample, FlamSamples, Pattern.Velocity;
    StepSounds(p, c, step, voice);
  }

  lemma MutedIsSilent(p: Pattern, c: AdjustedClock, first: nat, end: nat, voice: VoiceId)
    requires p.Valid() && c.Valid() && first <= end
    ensures p.tracks[voice].mute ==> Written(p.tracks[voice], first, end) == 0
  {
  }

  lemma {:induction false} WrittenShifts(t: Track, first: nat, end: nat)
    requires |t.steps| == STEP_COUNT && first <= end
    ensures Written(t, first + 16, end + 16) == Written(t, first, end)
    decreases end
  {
    if first < end {
      WrittenShifts(t, first, end - 1);
      assert (end - 1 + 16) % 16 == (end - 1) % 16;
    }
  }

  lemma {:induction false} WrittenSplits(t: Track, first: nat, mid: nat, end: nat)
    requires |t.steps| == STEP_COUNT && first <= mid <= end
    ensures Written(t, first, end) == Written(t, first, mid) + Written(t, mid, end)
    decreases end
  {
    if mid < end { WrittenSplits(t, first, mid, end - 1); }
  }

  /** Sixteen steps from any step on sound each voice as often as its bar is written. */
  lemma BarSounds(p: Pattern, c: AdjustedClock, first: nat, voice: VoiceId)
    requires p.Valid() && c.Valid()
    ensures |OfVoice(Stream(p, c, first, first + 16), voice)| == Written(p.tracks[voice], 0, 16)
  {
    hide Stream;
    StreamSounds(p, c, first, first + 16, voice);
    BarShifts(p.tracks[voice], first);
  }

  lemma {:induction false} BarShifts(t: Track, first: nat)
    requires |t.steps| == STEP_COUNT
    ensures Written(t, first, first + 16) == Written(t, 0, 16)
  {
    if first > 0 {
      BarShifts(t, first - 1);
      WrittenSplits(t, first - 1, first, first + 16);
      WrittenSplits(t, first - 1, first + 15, first + 16);
      WrittenSplits(t, first - 1, first, first + 15);
      WrittenShifts(t, first - 1, first);
      assert first - 1 + 16 == first + 15;
    }
  }
}
