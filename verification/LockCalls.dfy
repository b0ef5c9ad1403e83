/** A whole read through the sequence lock, with steps of the writer in between. */
module LockCalls {
  import opened Numbers
  import opened Bits
  import opened SequenceLocks

  predicate Writers(steps: seq<LockStep>) { forall i :: 0 <= i < |steps| ==> !steps[i].ReaderGo? }

  /** Whatever the writer does, it leaves the reader's side alone. */
  lemma {:induction false} WriterLeaves(l: Lock, steps: seq<LockStep>)
    requires LockInv(l) && Writers(steps) && l.history != []
    ensures AllPrompt(l, steps)
    ensures var l' := LockRun(l, steps);
            LockInv(l') && l'.reader == l.reader && l'.returned == l.returned && l.history <= l'.history
            && l'.history != []
    decreases |steps|
  {
    hide Words, Loads, Honest;
    if steps != [] {
      BeginOrGo(l, steps[0]);
      WriterLeaves(LockStepped(l, steps[0]), steps[1..]);
    }
  }

  lemma BeginOrGo(l: Lock, step: LockStep)
    requires LockInv(l) && !step.ReaderGo? && l.history != []
    ensures LockInv(LockStepped(l, step))
  {
    if step.WriterGo? { WriterKeeps(l); }
  }

  /** No load of the reader changes anything but the reader's side. */
  lemma ReaderLeaves(l: Lock)
    requires LockInv(l) && !l.reader.GotTicks? && l.history != []
    ensures var l' := LockStepped(l, ReaderGo);
            LockInv(l') && l'.history == l.history && l'.returned == l.returned && l'.history != []
            && l'.writer == l.writer
  {
    ReaderKeeps(l);
  }

  /** A read in its four loads, the writer taking the steps of `a`, `b` and `c` in between. The second of the results
      is the state the last load saw. */
  function ReadCall(l: Lock, a: seq<LockStep>, b: seq<LockStep>, c: seq<LockStep>): (r: (Lock, Lock))
    requires l.history != []
    ensures r.1.history != []
  {
    var l1 := LockRun(LockStepped(l, ReaderGo), a);
    LockRunConcat(LockStepped(l, ReaderGo), a, []);
    var l2 := LockRun(LockStepped(l1, ReaderGo), b);
    LockRunConcat(LockStepped(l1, ReaderGo), b, []);
    var l3 := LockRun(LockStepped(l2, ReaderGo), c);
    LockRunConcat(LockStepped(l2, ReaderGo), c, []);
    (LockStepped(l3, ReaderGo), l3)
  }

  /** A read returns exactly if no publish began or ended meanwhile, and then the newest pair published; begun while a
      publish is under way it loads nothing but the sequence number. */
  lemma ReadAnswers(l: Lock, a: seq<LockStep>, b: seq<LockStep>, c: seq<LockStep>)
    requires LockInv(l) && l.reader == ReaderIdle && Writers(a) && Writers(b) && Writers(c) && l.history != []
    ensures Mid(l) ==> LockStepped(l, ReaderGo) == l
    ensures var (l', last) := ReadCall(l, a, b, c);
            !Mid(l) && last.Completed() < l.Completed() + WORD / 2 ==>
              && l'.reader == ReaderIdle
              && l'.returned
                 == if !Mid(last) && last.Completed() == l.Completed()
                    then l.returned + [Returned(l.history[|l.history| - 1], l.Completed())] else l.returned
  {
    hide Words, Loads, Honest, LockRun, Mid, Accepts;
    BeginsRead(l);
    if !Mid(l) {
      ReaderLeaves(l);
      var l0 := LockStepped(l, ReaderGo);
      WriterLeaves(l0, a);
      var l1 := LockRun(l0, a);
      ReaderLeaves(l1);
      WriterLeaves(LockStepped(l1, ReaderGo), b);
      var l2 := LockRun(LockStepped(l1, ReaderGo), b);
      ReaderLeaves(l2);
      WriterLeaves(LockStepped(l2, ReaderGo), c);
      var l3 := LockRun(LockStepped(l2, ReaderGo), c);
      if l3.Completed() < l.Completed() + WORD / 2 { EndsRead(l3); }
    }
  }

  lemma BeginsRead(l: Lock)
    requires LockInv(l) && l.reader == ReaderIdle && l.history != []
    ensures LockStepped(l, ReaderGo) == if Mid(l) then l else l.(reader := GotSeq(l.sequence, l.Completed()))
  {
    EvenWord(l.Completed());
  }

  lemma EndsRead(l: Lock)
    requires LockInv(l) && l.reader.GotTicks? && l.history != [] && l.Completed() < l.reader.seen + WORD / 2
    ensures LockStepped(l, ReaderGo)
            == l.(reader := ReaderIdle,
                  returned := if !Mid(l) && l.Completed() == l.reader.seen
                              then l.returned + [Returned(l.history[l.reader.seen], l.reader.seen)] else l.returned)
  {
    AcceptsExactly(l);
    SmallMultiple(l.Completed() - l.reader.seen);
  }
}
