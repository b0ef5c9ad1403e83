/** Whole calls on the event ring, with steps of the other side in between. */
module RingCalls {
  import opened Numbers
  import opened Bits
  import opened EventRings

  // ---- A push ----

  function ConsumerSteps<T>(s: Shared<T>, n: nat): (s': Shared<T>)
    requires s.capacity >= 1
    ensures s'.capacity == s.capacity
    decreases n
  {
    if n == 0 then s else ConsumerSteps(Stepped(s, ConsumerGo), n - 1)
  }

  /** Whatever the consumer does, it leaves the producer's side alone. */
  lemma {:induction false} ConsumerLeaves<T>(s: Shared<T>, n: nat)
    requires Inv(s) && s.capacity >= 1
    ensures var s' := ConsumerSteps(s, n);
            Inv(s') && s'.producer == s.producer && s'.pushed == s.pushed && s'.room == s.room
    decreases n
  {
    hide Shape, Stored, ProducerOk, ConsumerOk;
    if n > 0 {
      StepKeeps(s, ConsumerGo);
      ConsumerLeaves(Stepped(s, ConsumerGo), n - 1);
    }
  }

  /** A call of `push` in its four steps, the consumer taking `a` steps before the load of its counter, and then `b`,
      `c` and `d`. The second of the results is the state that load saw. */
  function PushCall<T>(s: Shared<T>, event: T, a: nat, b: nat, c: nat, d: nat): (Shared<T>, Shared<T>)
    requires s.capacity >= 1
  {
    var loaded := ConsumerSteps(Stepped(s, CallPush(event)), a);
    var s1 := ConsumerSteps(Stepped(loaded, ProducerGo), b);
    var s2 := ConsumerSteps(Stepped(s1, ProducerGo), c);
    var s3 := ConsumerSteps(Stepped(s2, ProducerGo), d);
    (Stepped(s3, ProducerGo), loaded)
  }

  /** Whatever the consumer does meanwhile: the event is published once the call is over, unless the ring was full
      when the consumer's counter was loaded; then it never is. */
  lemma PushAnswers<T>(s: Shared<T>, event: T, a: nat, b: nat, c: nat, d: nat)
    requires Inv(s) && s.capacity >= 1 && s.producer == ProducerIdle
    ensures var (s', loaded) := PushCall(s, event, a, b, c, d);
            && Inv(s') && s'.producer == ProducerIdle
            && s'.pushed == if Waiting(loaded) == s.capacity then s.pushed else s.pushed + [event]
  {
    hide Shape, Stored, ProducerOk, ConsumerOk, ConsumerStep, Refuses;
    StepKeeps(s, CallPush(event));
    ConsumerLeaves(Stepped(s, CallPush(event)), a);
    var loaded := ConsumerSteps(Stepped(s, CallPush(event)), a);
    StepKeeps(loaded, ProducerGo);
    ConsumerLeaves(Stepped(loaded, ProducerGo), b);
    var s1 := ConsumerSteps(Stepped(loaded, ProducerGo), b);
    PushRefusedWhenFull(s1);
    StepKeeps(s1, ProducerGo);
    ConsumerLeaves(Stepped(s1, ProducerGo), c);
    var s2 := ConsumerSteps(Stepped(s1, ProducerGo), c);
    StepKeeps(s2, ProducerGo);
    ConsumerLeaves(Stepped(s2, ProducerGo), d);
    var s3 := ConsumerSteps(Stepped(s2, ProducerGo), d);
    StepKeeps(s3, ProducerGo);
  }

  /** What `vacant` answers is the room when it loads the consumer's counter. */
  lemma VacantAnswers<T>(s: Shared<T>)
    requires Inv(s) && s.producer.VacantTail? && s.capacity >= 1
    ensures Stepped(s, ProducerGo) == s.(producer := ProducerIdle, room := s.capacity - Waiting(s))
  {
    CapacityFits(s.capacity);
    WrappedDifference(|s.pushed|, |s.popped|);
  }

  // ---- A pop ----

  predicate Producers<T>(steps: seq<Step<T>>) { forall i :: 0 <= i < |steps| ==> !steps[i].ConsumerGo? }

  /** Whatever the producer does, it leaves the consumer's side alone, and what was published stays. */
  lemma {:induction false} ProducerLeaves<T>(s: Shared<T>, steps: seq<Step<T>>)
    requires Inv(s) && s.capacity >= 1 && Producers(steps)
    ensures var s' := SteppedAll(s, steps);
            Inv(s') && s'.capacity == s.capacity && s'.consumer == s.consumer && s'.popped == s.popped
            && s.pushed <= s'.pushed
    decreases |steps|
  {
    hide Shape, Stored, ProducerOk, ConsumerOk, Refuses;
    if steps != [] {
      StepKeeps(s, steps[0]);
      ProducerLeaves(Stepped(s, steps[0]), steps[1..]);
    }
  }

  /** A call of `pop` in its steps, the producer taking those of `p`, `q` and `r` in between. The second of the results
      is the state its load of the producer's counter saw; if it finds nothing the call is over with that. */
  function PopCall<T>(s: Shared<T>, p: seq<Step<T>>, q: seq<Step<T>>, r: seq<Step<T>>): (Shared<T>, Shared<T>)
    requires s.capacity >= 1 && Inv(s) && Producers(p) && Producers(q) && Producers(r)
  {
    StepKeeps(s, ConsumerGo);
    ProducerLeaves(Stepped(s, ConsumerGo), p);
    var loaded := SteppedAll(Stepped(s, ConsumerGo), p);
    var s1 := Stepped(loaded, ConsumerGo);
    StepKeeps(loaded, ConsumerGo);
    if s1.consumer.ConsumerIdle? then (s1, loaded)
    else
      ProducerLeaves(s1, q);
      var s2 := SteppedAll(s1, q);
      StepKeeps(s2, ConsumerGo);
      ProducerLeaves(Stepped(s2, ConsumerGo), r);
      var s3 := SteppedAll(Stepped(s2, ConsumerGo), r);
      (Stepped(s3, ConsumerGo), loaded)
  }

  /** Whatever the producer does meanwhile: the call takes the oldest event published, unless there was none when the
      producer's counter was loaded. */
  lemma PopAnswers<T>(s: Shared<T>, p: seq<Step<T>>, q: seq<Step<T>>, r: seq<Step<T>>)
    requires Inv(s) && s.capacity >= 1 && s.consumer == ConsumerIdle
    requires Producers(p) && Producers(q) && Producers(r)
    ensures var (s', loaded) := PopCall(s, p, q, r);
            && s'.consumer == ConsumerIdle
            && (if Waiting(loaded) == 0 then s'.popped == s.popped
                else |s.popped| < |s'.pushed| && s'.popped == s.popped + [Some(s'.pushed[|s.popped|])])
  {
    hide Shape, Stored, ProducerOk, ProducerStep, Refuses;
    StepKeeps(s, ConsumerGo);
    ProducerLeaves(Stepped(s, ConsumerGo), p);
    var loaded := SteppedAll(Stepped(s, ConsumerGo), p);
    EmptyReadsEqual(loaded);
    var s1 := Stepped(loaded, ConsumerGo);
    StepKeeps(loaded, ConsumerGo);
    if Waiting(loaded) > 0 {
      ProducerLeaves(s1, q);
      var s2 := SteppedAll(s1, q);
      StepKeeps(s2, ConsumerGo);
      ProducerLeaves(Stepped(s2, ConsumerGo), r);
    }
  }
}
