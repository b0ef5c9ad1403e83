/** The event ring between one pushing and one popping thread, an atomic load or store a step. */
module EventRings {
  import opened Numbers
  import opened Bits

  /** The least power of two that is no less than `n`, looked for from `Pow2(k)` on. */
  function NextPowerOfTwo(n: nat, k: nat): nat
    requires k <= WORD_BITS && n <= Pow2(WORD_BITS)
    decreases WORD_BITS - k
  {
    if Pow2(k) >= n then Pow2(k) else NextPowerOfTwo(n, k + 1)
  }

  function RingCapacity(requested: nat): nat
    requires requested <= Pow2(WORD_BITS - 1)
  {
    assert Pow2(WORD_BITS) == 2 * Pow2(WORD_BITS - 1);
    PowersGrow(1, WORD_BITS);
    NextPowerOfTwo(Max(requested, 2), 0)
  }

  ghost predicate IsCapacity(n: nat) { n >= 1 && exists k :: 1 <= k < WORD_BITS && n == Pow2(k) }

  // ---- Powers of two and wrapping counters ----

  lemma {:induction false} NextPowerIsLeast(n: nat, k: nat)
    requires 2 <= n <= Pow2(WORD_BITS - 1) && n <= Pow2(WORD_BITS) && k < WORD_BITS && (k > 0 ==> Pow2(k - 1) < n)
    ensures var r := NextPowerOfTwo(n, k); IsCapacity(r) && n <= r < 2 * n
    decreases WORD_BITS - k
  {
    hide Pow2, IsCapacity;
    DoubleAt(k);
    if Pow2(k) >= n {
      PowerIsCapacity(k, n);
    } else {
      if k == WORD_BITS - 1 { assert false; }
      NextPowerIsLeast(n, k + 1);
    }
  }

  lemma DoubleAt(k: nat)
    ensures if k == 0 then Pow2(k) == 1 else Pow2(k) == 2 * Pow2(k - 1)
  {
  }

  lemma PowerIsCapacity(k: nat, n: nat)
    requires 2 <= n <= Pow2(k) && k < WORD_BITS
    ensures IsCapacity(Pow2(k))
  {
  }

  /** The ring holds at least what was asked for, and less than twice that (or 2). */
  lemma CapacityIsLeast(requested: nat)
    requires requested <= Pow2(WORD_BITS - 1)
    ensures var r := RingCapacity(requested);
            IsCapacity(r) && r >= 1 && requested <= r && r < 2 * Max(requested, 2)
  {
    hide Pow2, IsCapacity;
    PowersGrow(1, WORD_BITS - 1);
    PowersGrow(WORD_BITS - 1, WORD_BITS);
    DoubleAt(1);
    DoubleAt(0);
    NextPowerIsLeast(Max(requested, 2), 0);
  }

  /** The slot a wrapped counter selects is that of the counter itself. */
  lemma SlotOfCounter(n: nat, capacity: nat)
    requires capacity >= 1 && IsCapacity(capacity)
    ensures And(n % WORD, capacity - 1) == n % capacity
  {
    hide And, IsCapacity, Pow2;
    var k :| 1 <= k < WORD_BITS && capacity == Pow2(k) by { CapacityPower(capacity); }
    MaskIsRemainder(n % WORD, k);
    WordIsPower();
    Pow2Add(k, WORD_BITS - k);
    RemainderOfRemainder(n, capacity, Pow2(WORD_BITS - k));
  }

  lemma CapacityPower(n: nat)
    requires IsCapacity(n)
    ensures exists k :: 1 <= k < WORD_BITS && n == Pow2(k)
  {
  }

  lemma CapacityFits(n: nat)
    requires IsCapacity(n)
    ensures 2 <= n && 2 * n <= WORD
  {
    var k :| 1 <= k < WORD_BITS && n == Pow2(k);
    WordIsPower();
    PowersGrow(k + 1, WORD_BITS);
    PowersGrow(1, k);
  }

  /** Wrapping subtraction of wrapped counters is subtraction, however often both wrapped. */
  lemma WrappedDifference(a: nat, b: nat)
    requires b <= a < b + WORD
    ensures WrappingSub(a % WORD, b % WORD) == a - b
  {
    var d := a % WORD - b % WORD;
    assert a - b - d == WORD * (a / WORD - b / WORD);
    var q := a / WORD - b / WORD;
    if d >= 0 { assert q == 0; } else { assert q == 1; }
  }

  lemma CountersNext(n: nat)
    ensures WrappingAdd(n % WORD, 1) == (n + 1) % WORD
  {
  }

  lemma SlotsDistinct(i: nat, j: nat, capacity: nat)
    requires capacity >= 1 && i < j < i + capacity
    ensures i % capacity != j % capacity
  {
    var p, q := i / capacity, j / capacity;
    if i % capacity == j % capacity {
      assert j - i == q * capacity - p * capacity;
      if q > p { QuotientsApart(p, q, capacity); } else if q < p { QuotientsApart(q, p, capacity); }
    }
  }

  // ---- The ring ----

  /** Where the producer is: between calls, or after one of the steps of `push` or `vacant`.
      `seen` (for the statement only) is how many pops the loaded head stood for. */
  datatype Producer<T> =
    | ProducerIdle
    | PushTail(event: T, tail: nat)
    | PushHead(event: T, tail: nat, head: nat, seen: nat)
    | Writing(event: T, tail: nat)
    | Wrote(event: T, tail: nat)
    | VacantTail(tail: nat)

  /** Where the consumer is inside `pop`. */
  datatype Consumer<T> =
    | ConsumerIdle
    | PopHead(head: nat)
    | Reading(head: nat)
    | Took(taken: Option<T>, head: nat)

  /** The shared words and slots, where both sides are, and the history: what was published,
      what was popped, and the room the last `vacant` reading still promises. */
  datatype Shared<T> = Shared(
    capacity: nat, slots: seq<Option<T>>, head: nat, tail: nat,
    producer: Producer<T>, consumer: Consumer<T>,
    pushed: seq<T>, popped: seq<Option<T>>, room: int)

  /** A producer call begins, or one of the sides takes its next step. */
  datatype Step<T> = CallPush(event: T) | CallVacant | ProducerGo | ConsumerGo

  function Created<T>(requested: nat): Shared<T>
    requires requested <= Pow2(WORD_BITS - 1)
  {
    var capacity := RingCapacity(requested);
    Shared(capacity, seq(capacity, _ => None), 0, 0, ProducerIdle, ConsumerIdle, [], [], 0)
  }

  /** The slot a wrapped counter selects; a side touches it only while writing or reading. */
  function SlotOf<T>(s: Shared<T>, index: nat): nat
    requires s.capacity >= 1
  {
    And(index, s.capacity - 1)
  }

  function WithSlot<T>(s: Shared<T>, slot: nat, value: Option<T>): Shared<T>
  {
    if slot < |s.slots| then s.(slots := s.slots[slot := value]) else s
  }

  predicate Refuses<T>(s: Shared<T>)
  {
    s.producer.PushHead? && WrappingSub(s.producer.tail, s.producer.head) > s.capacity - 1
  }

  /** The next step of the producer inside a call. While a write is under way its slot holds
      nothing anyone may read. */
  function ProducerStep<T>(s: Shared<T>): Shared<T>
    requires s.capacity >= 1
  {
    match s.producer
    case ProducerIdle => s
    case PushTail(e, tail) => s.(producer := PushHead(e, tail, s.head, |s.popped|))
    case PushHead(e, tail, head, _) =>
      if Refuses(s) then s.(producer := ProducerIdle)
      else WithSlot(s, SlotOf(s, tail), None).(producer := Writing(e, tail))
    case Writing(e, tail) => WithSlot(s, SlotOf(s, tail), Some(e)).(producer := Wrote(e, tail))
    case Wrote(e, tail) =>
      s.(producer := ProducerIdle, tail := WrappingAdd(tail, 1), pushed := s.pushed + [e], room := Max(s.room - 1, 0))
    case VacantTail(tail) => s.(producer := ProducerIdle, room := s.capacity - WrappingSub(tail, s.head))
  }

  /** The next step of the consumer: a `pop` begins as soon as the last one has ended. */
  function ConsumerStep<T>(s: Shared<T>): Shared<T>
    requires s.capacity >= 1
  {
    match s.consumer
    case ConsumerIdle => s.(consumer := PopHead(s.head))
    case PopHead(head) => s.(consumer := if head == s.tail then ConsumerIdle else Reading(head))
    case Reading(head) =>
      var slot := SlotOf(s, head);
      s.(consumer := Took(if slot < |s.slots| then s.slots[slot] else None, head))
    case Took(event, head) =>
      s.(consumer := ConsumerIdle, head := WrappingAdd(head, 1), popped := s.popped + [event])
  }

  function Stepped<T>(s: Shared<T>, step: Step<T>): (s': Shared<T>)
    requires s.capacity >= 1
    ensures s'.capacity == s.capacity
  {
    match step
    case CallPush(e) => if s.producer.ProducerIdle? then s.(producer := PushTail(e, s.tail)) else s
    case CallVacant => if s.producer.ProducerIdle? then s.(producer := VacantTail(s.tail)) else s
    case ProducerGo => ProducerStep(s)
    case ConsumerGo => ConsumerStep(s)
  }

  function SteppedAll<T>(s: Shared<T>, steps: seq<Step<T>>): Shared<T>
    requires s.capacity >= 1
    decreases |steps|
  {
    if steps == [] then s else SteppedAll(Stepped(s, steps[0]), steps[1..])
  }

  // ---- What every step keeps ----

  function Waiting<T>(s: Shared<T>): int { |s.pushed| - |s.popped| }

  ghost predicate Shape<T>(s: Shared<T>)
  {
    && s.capacity >= 1 && IsCapacity(s.capacity) && |s.slots| == s.capacity
    && 0 <= Waiting(s) <= s.capacity && 0 <= s.room <= s.capacity - Waiting(s)
    && s.head == |s.popped| % WORD && s.tail == |s.pushed| % WORD
    && forall i :: 0 <= i < |s.popped| ==> s.popped[i] == Some(s.pushed[i])
  }

  /** Published events lie in their slots until they are popped. */
  ghost predicate Stored<T>(s: Shared<T>)
    requires s.capacity >= 1 && |s.slots| == s.capacity
  {
    forall i :: |s.popped| <= i < |s.pushed| ==> s.slots[i % s.capacity] == Some(s.pushed[i])
  }

  ghost predicate ProducerOk<T>(s: Shared<T>)
    requires s.capacity >= 1 && |s.slots| == s.capacity
  {
    match s.producer
    case ProducerIdle => true
    case PushTail(_, tail) => tail == s.tail
    case PushHead(_, tail, head, seen) =>
      && tail == s.tail && head == seen % WORD && seen <= |s.popped|
      && |s.pushed| - seen <= s.capacity - s.room
    case Writing(_, tail) => tail == s.tail && Waiting(s) < s.capacity
    case Wrote(e, tail) =>
      tail == s.tail && Waiting(s) < s.capacity && s.slots[|s.pushed| % s.capacity] == Some(e)
    case VacantTail(tail) => tail == s.tail
  }

  ghost predicate ConsumerOk<T>(s: Shared<T>)
  {
    match s.consumer
    case ConsumerIdle => true
    case PopHead(head) => head == s.head
    case Reading(head) => head == s.head && Waiting(s) > 0
    case Took(event, head) => head == s.head && Waiting(s) > 0 && event == Some(s.pushed[|s.popped|])
  }

  ghost predicate Inv<T>(s: Shared<T>) { Shape(s) && Stored(s) && ProducerOk(s) && ConsumerOk(s) }

  lemma PushRefusedWhenFull<T>(s: Shared<T>)
    requires Inv(s) && s.producer.PushHead?
    ensures Refuses(s) <==> |s.pushed| - s.producer.seen == s.capacity
  {
    CapacityFits(s.capacity);
    WrappedDifference(|s.pushed|, s.producer.seen);
  }

  lemma BeginWriteKeeps<T>(s: Shared<T>)
    requires Inv(s) && s.producer.PushHead? && !Refuses(s)
    ensures Inv(ProducerStep(s))
  {
    hide And, IsCapacity;
    PushRefusedWhenFull(s);
    SlotOfCounter(|s.pushed|, s.capacity);
    forall i | |s.popped| <= i < |s.pushed|
      ensures i % s.capacity != |s.pushed| % s.capacity
    {
      SlotsDistinct(i, |s.pushed|, s.capacity);
    }
  }

  lemma EndWriteKeeps<T>(s: Shared<T>)
    requires Inv(s) && s.producer.Writing?
    ensures Inv(ProducerStep(s))
  {
    hide And, IsCapacity;
    SlotOfCounter(|s.pushed|, s.capacity);
    forall i | |s.popped| <= i < |s.pushed|
      ensures i % s.capacity != |s.pushed| % s.capacity
    {
      SlotsDistinct(i, |s.pushed|, s.capacity);
    }
  }

  lemma ProducerKeeps<T>(s: Shared<T>)
    requires Inv(s)
    ensures Inv(ProducerStep(s))
  {
    hide And, IsCapacity, SlotOf;
    match s.producer
    case PushHead(_, _, _, _) => if !Refuses(s) { BeginWriteKeeps(s); }
    case Writing(_, _) => EndWriteKeeps(s);
    case Wrote(_, _) => CountersNext(|s.pushed|);
    case VacantTail(tail) =>
      CapacityFits(s.capacity);
      WrappedDifference(|s.pushed|, |s.popped|);
    case _ =>
  }

  lemma EmptyReadsEqual<T>(s: Shared<T>)
    requires Inv(s)
    ensures s.head == s.tail <==> Waiting(s) == 0
  {
    CapacityFits(s.capacity);
    WrappedDifference(|s.pushed|, |s.popped|);
  }

  lemma ConsumerKeeps<T>(s: Shared<T>)
    requires Inv(s)
    ensures Inv(ConsumerStep(s))
  {
    hide And, IsCapacity;
    match s.consumer
    case PopHead(head) => EmptyReadsEqual(s);
    case Reading(head) => SlotOfCounter(|s.popped|, s.capacity);
    case Took(event, head) => CountersNext(|s.popped|);
    case ConsumerIdle =>
  }

  lemma StepKeeps<T>(s: Shared<T>, step: Step<T>)
    requires Inv(s)
    ensures Inv(Stepped(s, step))
  {
    hide ProducerStep, ConsumerStep, IsCapacity;
    ProducerKeeps(s);
    ConsumerKeeps(s);
  }

  lemma {:induction false} RunKeeps<T>(s: Shared<T>, steps: seq<Step<T>>)
    requires Inv(s)
    ensures Inv(SteppedAll(s, steps))
    decreases |steps|
  {
    hide Shape, Stored, ProducerOk, ConsumerOk, Stepped;
    if steps != [] {
      StepKeeps(s, steps[0]);
      assert s.capacity >= 1 && Stepped(s, steps[0]).capacity == s.capacity by { InvCapacity(s); }
      RunKeeps(Stepped(s, steps[0]), steps[1..]);
    } else {
      InvCapacity(s);
    }
  }

  lemma InvCapacity<T>(s: Shared<T>)
    requires Inv(s)
    ensures s.capacity >= 1
  {
  }

  lemma CreatedInv<T>(requested: nat)
    requires requested <= Pow2(WORD_BITS - 1)
    ensures Inv(Created<T>(requested)) && Created<T>(requested).capacity >= requested
  {
    hide RingCapacity, IsCapacity, Pow2;
    CapacityIsLeast(requested);
  }

  /** The slot each side is in the middle of touching. */
  predicate ProducerTouches<T>(s: Shared<T>, slot: nat)
    requires s.capacity >= 1
  {
    s.producer.Writing? && slot == SlotOf(s, s.producer.tail)
  }

  predicate ConsumerTouches<T>(s: Shared<T>, slot: nat)
    requires s.capacity >= 1
  {
    s.consumer.Reading? && slot == SlotOf(s, s.consumer.head)
  }

  lemma NeverBoth<T>(s: Shared<T>, slot: nat)
    requires Inv(s) && s.capacity >= 1
    ensures !(ProducerTouches(s, slot) && ConsumerTouches(s, slot))
  {
    hide And, IsCapacity;
    SlotOfCounter(|s.pushed|, s.capacity);
    SlotOfCounter(|s.popped|, s.capacity);
    if Waiting(s) > 0 && Waiting(s) < s.capacity { SlotsDistinct(|s.popped|, |s.pushed|, s.capacity); }
  }

  /** Over every interleaving of the two sides' loads and stores, with counters wrapping: what
      was popped is a prefix of what was pushed, whole and in order; the ring holds no more
      than its capacity; no slot is ever written while it is read; a `vacant` reading stays a
      lower bound, less one for every push since, so that many pushes are accepted; and a push
      is refused, or a pop comes back empty, only if the ring was full or empty when the other
      side's counter was loaded. */
  lemma RingIsFifo<T>(requested: nat, steps: seq<Step<T>>, slot: nat)
    requires requested <= Pow2(WORD_BITS - 1)
    ensures Created<T>(requested).capacity >= 1
    ensures var s := SteppedAll(Created<T>(requested), steps);
            && |s.popped| <= |s.pushed| <= |s.popped| + s.capacity
            && (forall i :: 0 <= i < |s.popped| ==> s.popped[i] == Some(s.pushed[i]))
            && s.capacity >= 1 && !(ProducerTouches(s, slot) && ConsumerTouches(s, slot))
            && s.room <= s.capacity - Waiting(s)
            && (s.producer.PushHead? ==> (Refuses(s) <==> |s.pushed| - s.producer.seen == s.capacity))
            && (s.producer.PushHead? && s.room > 0 ==> !Refuses(s))
            && (s.consumer.PopHead? ==> (s.consumer.head == s.tail <==> |s.popped| == |s.pushed|))
  {
    hide Created, SteppedAll, Stored, IsCapacity, ProducerTouches, ConsumerTouches, Refuses;
    CreatedInv<T>(requested);
    RunKeeps(Created<T>(requested), steps);
    var s := SteppedAll(Created<T>(requested), steps);
    NeverBoth(s, slot);
    if s.producer.PushHead? { PushRefusedWhenFull(s); }
    EmptyReadsEqual(s);
  }

  // ---- The ring in place ----

  /** Both halves of the ring between steps: slots and wrapping counters, updated in place. */
  class EventRing<T> {
    const slots: array<Option<T>>
    const mask: nat
    var head: nat
    var tail: nat
    ghost var pushed: seq<T>
    ghost var popped: nat

    ghost predicate Valid()
      reads this, slots
    {
      && slots.Length == mask + 1 && IsCapacity(mask + 1)
      && popped <= |pushed| <= popped + mask + 1
      && head == popped % WORD && tail == |pushed| % WORD
      && forall i :: popped <= i < |pushed| ==> slots[i % (mask + 1)] == Some(pushed[i])
    }

    constructor (requested: nat)
      requires requested <= Pow2(WORD_BITS - 1)
      ensures Valid() && fresh(slots) && pushed == [] && popped == 0
      ensures requested <= mask + 1 && mask + 1 < 2 * Max(requested, 2)
    {
      CapacityIsLeast(requested);
      var capacity := RingCapacity(requested);
      slots := new Option<T>[capacity](_ => None);
      mask := capacity - 1;
      head, tail := 0, 0;
      pushed, popped := [], 0;
    }

    /** Fails, changing nothing, if and only if the ring is full. */
    method Push(event: T) returns (ok: bool)
      requires Valid()
      modifies this`tail, this`pushed, slots
      ensures Valid() && ok == (old(|pushed|) - popped < mask + 1)
      ensures pushed == if ok then old(pushed) + [event] else old(pushed)
    {
      hide And, IsCapacity;
      CapacityFits(mask + 1);
      WrappedDifference(|pushed|, popped);
      if WrappingSub(tail, head) > mask { return false; }
      ghost var capacity := mask + 1;
      SlotOfCounter(|pushed|, capacity);
      forall i | popped <= i < |pushed|
        ensures i % capacity != |pushed| % capacity
      {
        SlotsDistinct(i, |pushed|, capacity);
      }
      slots[And(tail, mask)] := Some(event);
      CountersNext(|pushed|);
      tail := WrappingAdd(tail, 1);
      pushed := pushed + [event];
      ok := true;
    }

    method Vacant() returns (n: nat)
      requires Valid()
      ensures n == mask + 1 - (|pushed| - popped)
    {
      CapacityFits(mask + 1);
      WrappedDifference(|pushed|, popped);
      n := mask + 1 - WrappingSub(tail, head);
    }

    /** Hands out the event that has waited longest. */
    method Pop() returns (event: Option<T>)
      requires Valid()
      modifies this`head, this`popped
      ensures Valid() && popped == if old(popped) < |pushed| then old(popped) + 1 else old(popped)
      ensures event == if old(popped) < |pushed| then Some(pushed[old(popped)]) else None
    {
      hide And, IsCapacity;
      CapacityFits(mask + 1);
      WrappedDifference(|pushed|, popped);
      if head == tail { return None; }
      SlotOfCounter(popped, mask + 1);
      event := slots[And(head, mask)];
      CountersNext(popped);
      head := WrappingAdd(head, 1);
      popped := popped + 1;
    }

    /** How many events wait. */
    method Len() returns (n: nat)
      requires Valid()
      ensures n == |pushed| - popped
    {
      CapacityFits(mask + 1);
      WrappedDifference(|pushed|, popped);
      n := WrappingSub(tail, head);
    }
  }
}
