/** A fixed ring of slots that remembers the newest entries. */
module Rings {
  import opened Bits

  /** An index below twice the ring's size, wrapped once. */
  function Slot(i: nat, size: nat): (s: nat)
    requires i < 2 * size
    ensures s < size && s == i % size
  {
    OneWrap(i, size);
    if i < size then i else i - size
  }

  lemma OneWrap(i: nat, size: nat)
    requires i < 2 * size
    ensures i % size == if i < size then i else i - size
  {
    RemainderIs(i, size, if i < size then 0 else 1, if i < size then i else i - size);
  }

  /** The `len` entries before slot `head`, oldest first. */
  function Window<T>(entries: seq<T>, head: nat, len: nat): (s: seq<T>)
    requires head < |entries| && len <= |entries|
    ensures |s| == len
    ensures forall i :: 0 <= i < len ==> s[i] == entries[Slot(head + |entries| - len + i, |entries|)]
  {
    seq(len, i requires 0 <= i < len => entries[Slot(head + |entries| - len + i, |entries|)])
  }

  /** Adds an entry, forgetting the oldest if there is no room. */
  function Pushed<T>(s: seq<T>, e: T, size: nat): seq<T>
    requires size >= 1
  {
    if |s| < size then s + [e] else s[1..] + [e]
  }

  lemma WindowPush<T>(entries: seq<T>, head: nat, len: nat, e: T)
    requires head < |entries| && len <= |entries|
    ensures Window(entries[head := e], Slot(head + 1, |entries|), if len < |entries| then len + 1 else len)
            == Pushed(Window(entries, head, len), e, |entries|)
  {
    var n := |entries|;
    var len' := if len < n then len + 1 else len;
    var w, w' := Window(entries, head, len), Window(entries[head := e], Slot(head + 1, n), len');
    forall i | 0 <= i < len'
      ensures w'[i] == Pushed(w, e, n)[i]
    {
      var slot := Slot(Slot(head + 1, n) + n - len' + i, n);
      if i == len' - 1 {
        assert slot == head;
      } else {
        assert slot != head;
        assert slot == Slot(head + n - len + (if len < n then i else i + 1), n);
      }
    }
  }

  lemma WindowPop<T>(entries: seq<T>, head: nat, len: nat)
    requires head < |entries| && 1 <= len <= |entries|
    ensures Window(entries, Slot(head + |entries| - 1, |entries|), len - 1) == Window(entries, head, len)[..len - 1]
  {
    var n := |entries|;
    var w, w' := Window(entries, head, len), Window(entries, Slot(head + n - 1, n), len - 1);
    forall i | 0 <= i < len - 1
      ensures w'[i] == w[i]
    {
      assert Slot(Slot(head + n - 1, n) + n - (len - 1) + i, n) == Slot(head + n - len + i, n);
    }
  }
}
