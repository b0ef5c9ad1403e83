/** How a connection ends: which frame ends it, with which code, behind whatever was sent before and
    however the bytes are cut. */
module StreamEnds {
  import opened Numbers
  import opened Bits
  import opened WebSockets

  // ---- A message left open ----

  /** The fragments of a message that is not finished. */
  function OpenFrames(started: bool, parts: seq<Part>): seq<Sent>
    decreases |parts|
  {
    if parts == [] then []
    else
      var p := parts[0].piece;
      [Sent(Frame(false, if started then Continuation else Text, p.payload), p.mask)]
      + (NoteFrames(parts[0].notes) + OpenFrames(true, parts[1..]))
  }

  /** The bytes of it so far. */
  function OpenBytes(parts: seq<Part>): seq<Byte>
  {
    if parts == [] then [] else parts[0].piece.payload + OpenBytes(parts[1..])
  }

  /** The message in progress behind those fragments. */
  function InProgress(started: bool, sofar: seq<Byte>, parts: seq<Part>): Option<seq<Byte>>
  {
    if started || parts != [] then Some(sofar + OpenBytes(parts)) else None
  }

  lemma {:induction false} OpenSendable(started: bool, parts: seq<Part>)
    requires PartsLegal(parts)
    ensures AllSendable(OpenFrames(started, parts))
    decreases |parts|
  {
    hide AllSendable, NoteFrames;
    if parts == [] {
      NothingOnWire();
    } else {
      var p := parts[0].piece;
      var first := Sent(Frame(false, if started then Continuation else Text, p.payload), p.mask);
      SendableOne(first);
      NotesSendable(parts[0].notes);
      OpenSendable(true, parts[1..]);
      SendableConcat(NoteFrames(parts[0].notes), OpenFrames(true, parts[1..]));
      SendableConcat([first], NoteFrames(parts[0].notes) + OpenFrames(true, parts[1..]));
    }
  }

  lemma OpenFirst(started: bool, parts: seq<Part>, rest: seq<Sent>, sofar: seq<Byte>, before: seq<Event>)
    requires parts != []
    ensures var p, notes, later := parts[0].piece, parts[0].notes, parts[1..];
            && OpenFrames(started, parts) + rest
               == [Sent(Frame(false, if started then Continuation else Text, p.payload), p.mask)]
                  + (NoteFrames(notes) + (OpenFrames(true, later) + rest))
            && InProgress(started, sofar, parts) == InProgress(true, sofar + p.payload, later)
            && before + PartEvents(parts) == (before + NoteEvents(notes)) + PartEvents(later)
            && |sofar + OpenBytes(parts)| == |sofar + p.payload + OpenBytes(later)|
  {
    hide NoteFrames, NoteEvents;
    var p, later := parts[0].piece, parts[1..];
    var a := [Sent(Frame(false, if started then Continuation else Text, p.payload), p.mask)];
    var b, d := NoteFrames(parts[0].notes), OpenFrames(true, later);
    assert a + (b + d) + rest == a + (b + (d + rest));
    assert sofar + (p.payload + OpenBytes(later)) == sofar + p.payload + OpenBytes(later);
  }

  lemma OpenNone(rest: seq<Sent>, sofar: seq<Byte>, started: bool, before: seq<Event>)
    ensures OpenFrames(started, []) + rest == rest && before + PartEvents([]) == before
    ensures InProgress(started, sofar, []) == if started then Some(sofar) else None
  {
    assert sofar + [] == sofar;
  }

  /** Fragments without an end leave a message in progress, and deliver the pings between them. */
  lemma {:induction false} DeliverOpen(c: Connection, started: bool, sofar: seq<Byte>, parts: seq<Part>,
                                       rest: seq<Sent>, isUtf8: seq<Byte> -> bool)
    requires c.partial == (if started then Some(sofar) else None) && (!started ==> sofar == [])
    requires |sofar + OpenBytes(parts)| <= MAX_MESSAGE
    ensures Delivered(c, OpenFrames(started, parts) + rest, isUtf8)
            == Delivered(c.(partial := InProgress(started, sofar, parts), events := c.events + PartEvents(parts)), rest,
                         isUtf8)
    decreases |parts|
  {
    hide Delivered, OpenFrames, NoteFrames, NoteEvents, PartEvents, OpenBytes, InProgress;
    if parts == [] {
      OpenNone(rest, sofar, started, c.events);
    } else {
      OpenFirst(started, parts, rest, sofar, c.events);
      var p, notes, later := parts[0].piece, parts[0].notes, parts[1..];
      var after := OpenFrames(true, later) + rest;
      DeliverFragment(c, started, sofar, false, p, NoteFrames(notes) + after, isUtf8);
      var c1 := c.(partial := Some(sofar + p.payload));
      DeliverNotes(c1, notes, after, isUtf8);
      DeliverOpen(c1.(events := c.events + NoteEvents(notes)), true, sofar + p.payload, later, rest, isUtf8);
    }
  }

  // ---- What ends a connection ----

  /** A status code a peer may close with (section 7.4 of RFC 6455, and the registered ranges). */
  predicate MaySay(code: nat)
  {
    code in {1000, 1001, 1002, 1003, 1007, 1008, 1009, 1010, 1011} || 3000 <= code <= 4999
  }

  /** What a close frame asks for: 1000 if it is empty, else the code in its first two bytes. */
  function CloseVerdict(payload: seq<Byte>, isUtf8: seq<Byte> -> bool): End
  {
    if payload == [] then Closed(1000)
    else if |payload| == 1 then Protocol(1002)
    else
      var code: nat := 256 * payload[0] as int + payload[1] as int;
      if !isUtf8(payload[2..]) then Protocol(1007) else if MaySay(code) then Closed(code) else Protocol(1002)
  }

  lemma TwoBytes(payload: seq<Byte>)
    requires |payload| >= 2
    ensures FromBigEndian(payload[..2]) == 256 * payload[0] as int + payload[1] as int
  {
    var two, one := payload[..2], payload[..1];
    assert two[..|two| - 1] == one && one[..|one| - 1] == [];
    assert FromBigEndian(one) == one[0];
    assert FromBigEndian(two) == 256 * FromBigEndian(one) + two[1];
  }

  /** The frame `f` with `open` in progress ends the connection so, or is not one that does. */
  ghost predicate EndsAs(c: Connection, open: Option<seq<Byte>>, f: Frame, before: seq<Event>,
                         isUtf8: seq<Byte> -> bool)
  {
    && (f.opcode.Close? ==>
          var end := CloseVerdict(f.payload, isUtf8);
          c.ended == Some(end) && c.events == if end.Closed? then before + [CloseReceived(end.code)] else before)
    && (f.opcode.Binary? ==> c.ended == Some(Protocol(1003)) && c.events == before)
    && (f.opcode.Text? && open.Some? ==> c.ended == Some(Protocol(1002)) && c.events == before)
    && (f.opcode.Text? && open.None? && f.fin && !isUtf8(f.payload) ==>
          c.ended == Some(Protocol(1007)) && c.events == before)
    && (f.opcode.Continuation? && open.None? ==> c.ended == Some(Protocol(1002)) && c.events == before)
    && (f.opcode.Continuation? && open.Some? && |open.value + f.payload| > 65536 ==>
          c.ended == Some(Protocol(1009)) && c.events == before)
    && (f.opcode.Continuation? && open.Some? && |open.value + f.payload| <= 65536 ==>
          (f.fin && !isUtf8(open.value + f.payload) ==> c.ended == Some(Protocol(1007)) && c.events == before))
  }

  /** A frame behind which nothing more is read. */
  predicate Ends(open: Option<seq<Byte>>, f: Frame, isUtf8: seq<Byte> -> bool)
  {
    match f.opcode
    case Close => true
    case Binary => true
    case Text => open.Some? || (f.fin && !isUtf8(f.payload))
    case Continuation =>
      open.None? || |open.value + f.payload| > 65536 || (f.fin && !isUtf8(open.value + f.payload))
    case _ => false
  }

  lemma LastFrame(c: Connection, f: Frame, mask: seq<Byte>, isUtf8: seq<Byte> -> bool)
    requires c.ended == None
    ensures var d := Delivered(c, [Sent(f, mask)], isUtf8);
            && EndsAs(d, c.partial, f, c.events, isUtf8) && (d.ended.Some? <==> Ends(c.partial, f, isUtf8))
  {
    hide FromBigEndian;
    assert [Sent(f, mask)][1..] == [];
    if f.opcode.Close? && |f.payload| >= 2 { TwoBytes(f.payload); }
  }

  // ---- Behind whatever was sent ----

  /** What is sent before the last frame: whole items, and perhaps the beginning of a message. */
  function SentBefore(items: seq<Item>, parts: seq<Part>): seq<Sent> { FramesOf(items) + OpenFrames(false, parts) }

  predicate LegalBefore(items: seq<Item>, parts: seq<Part>, isUtf8: seq<Byte> -> bool)
  {
    ItemsLegal(items, isUtf8) && PartsLegal(parts) && |OpenBytes(parts)| <= MAX_MESSAGE
  }

  /** The bytes of all that and one more frame. */
  function BytesUpTo(items: seq<Item>, parts: seq<Part>, last: Sent, isUtf8: seq<Byte> -> bool): seq<Byte>
    requires LegalBefore(items, parts, isUtf8) && Sendable(last)
  {
    UpToSendable(items, parts, last, isUtf8);
    Wire(SentBefore(items, parts) + [last])
  }

  lemma UpToSendable(items: seq<Item>, parts: seq<Part>, last: Sent, isUtf8: seq<Byte> -> bool)
    requires LegalBefore(items, parts, isUtf8) && Sendable(last)
    ensures AllSendable(SentBefore(items, parts) + [last])
  {
    hide FramesOf, OpenFrames, AllSendable, ItemsLegal, PartsLegal;
    ItemsSendable(items, isUtf8);
    OpenSendable(false, parts);
    SendableOne(last);
    SendableConcat(FramesOf(items), OpenFrames(false, parts));
    SendableConcat(SentBefore(items, parts), [last]);
  }

  lemma DeliverBefore(items: seq<Item>, parts: seq<Part>, last: Sent, isUtf8: seq<Byte> -> bool)
    requires LegalBefore(items, parts, isUtf8)
    ensures Delivered(FRESH, SentBefore(items, parts) + [last], isUtf8)
            == Delivered(FRESH.(partial := InProgress(false, [], parts), events := Expected(items) + PartEvents(parts)),
                         [last], isUtf8)
  {
    hide FramesOf, OpenFrames, Delivered, ItemsLegal, PartsLegal, Expected, PartEvents, OpenBytes, InProgress;
    assert SentBefore(items, parts) + [last] == FramesOf(items) + (OpenFrames(false, parts) + [last]);
    DeliverAll(FRESH, items, OpenFrames(false, parts) + [last], isUtf8);
    assert [] + Expected(items) == Expected(items);
    assert [] + OpenBytes(parts) == OpenBytes(parts);
    DeliverOpen(FRESH.(events := Expected(items)), false, [], parts, [last], isUtf8);
  }

  /** Whole items are delivered, whatever comes behind them. */
  lemma {:induction false} DeliverAll(c: Connection, items: seq<Item>, rest: seq<Sent>, isUtf8: seq<Byte> -> bool)
    requires c.partial == None && ItemsLegal(items, isUtf8)
    ensures Delivered(c, FramesOf(items) + rest, isUtf8)
            == Delivered(c.(events := c.events + Expected(items)), rest, isUtf8)
    decreases |items|
  {
    hide Delivered, ItemFrames, ItemEvents, ItemLegal;
    if items == [] {
      assert [] + rest == rest && c.events + [] == c.events;
    } else {
      var first, later := ItemFrames(items[0]), FramesOf(items[1..]);
      assert first + later + rest == first + (later + rest);
      DeliverItem(c, items[0], later + rest, isUtf8);
      DeliverAll(c.(events := c.events + ItemEvents(items[0])), items[1..], rest, isUtf8);
      assert c.events + ItemEvents(items[0]) + Expected(items[1..]) == c.events + Expected(items);
    }
  }

  /** End to end: behind any items, in the middle of a message or not, whatever follows and however the
      bytes are cut. A frame that ends the connection ends it with exactly this code; what was sent
      before it has been delivered, and what comes behind it is not read. */
  lemma StreamEnds(items: seq<Item>, parts: seq<Part>, last: Sent, rest: seq<Byte>, chunks: seq<seq<Byte>>,
                   isUtf8: seq<Byte> -> bool)
    requires LegalBefore(items, parts, isUtf8) && Sendable(last)
    requires Joined(chunks) == BytesUpTo(items, parts, last, isUtf8) + rest
    requires Ends(InProgress(false, [], parts), last.frame, isUtf8)
    ensures EndsAs(FedAll(FRESH, chunks, isUtf8), InProgress(false, [], parts), last.frame,
                   Expected(items) + PartEvents(parts), isUtf8)
  {
    hide Drained, Delivered, ParseFrame, Wire, SentBefore, AllSendable, LegalBefore, Expected, EndsAs, Ends, InProgress,
         PartEvents;
    UpToSendable(items, parts, last, isUtf8);
    DeliverBefore(items, parts, last, isUtf8);
    var sents, open := SentBefore(items, parts) + [last], InProgress(false, [], parts);
    var c0 := FRESH.(partial := open, events := Expected(items) + PartEvents(parts));
    LastFrame(c0, last.frame, last.mask, isUtf8);
    assert Sent(last.frame, last.mask) == last;
    NothingOnWire();
    ChunkingDoesNotMatter(FRESH, chunks, isUtf8);
    assert [] + Joined(chunks) == Joined(chunks);
    var c := FRESH.(buf := Wire(sents));
    DrainDelivers(c, sents, isUtf8);
    DrainSplits(c, rest, isUtf8);
    SameEnd(FedAll(FRESH, chunks, isUtf8), Delivered(c0, [last], isUtf8), open, last.frame, c0.events, isUtf8);
  }

  lemma SameEnd(c: Connection, d: Connection, open: Option<seq<Byte>>, f: Frame, before: seq<Event>,
                isUtf8: seq<Byte> -> bool)
    requires Observed(c) == Observed(d) && d.ended.Some? && EndsAs(d, open, f, before, isUtf8)
    ensures EndsAs(c, open, f, before, isUtf8)
  {
  }

  /** Any frame that is none of those leaves the connection open. */
  lemma OnlyThoseEnd(c: Connection, f: Frame, mask: seq<Byte>, isUtf8: seq<Byte> -> bool)
    requires c.ended == None
    ensures Delivered(c, [Sent(f, mask)], isUtf8).ended == None <==> !Ends(c.partial, f, isUtf8)
  {
    hide Delivered, Ends, EndsAs;
    LastFrame(c, f, mask, isUtf8);
  }

  // ---- Frames that are illegal by themselves ----

  /** An opcode in use. */
  predicate Known(bits: nat) { bits in {0, 1, 2, 8, 9, 10} }

  /** The length field as a number, once all of it is there. */
  function LengthAt(buf: seq<Byte>): Option<nat>
    requires |buf| >= 2
  {
    var low := buf[1] % 128;
    if low < 126 then Some(low)
    else if low == 126 then if |buf| < 4 then None else Some(FromBigEndian(buf[2..4]))
    else if |buf| < 10 then None else Some(FromBigEndian(buf[2..10]))
  }

  /** A length that should have been written shorter, or is none (section 5.2 of RFC 6455). */
  predicate BadLength(low: nat, len: nat)
  {
    (low == 126 && len < 126) || (low == 127 && (len < 65536 || len >= Pow2(63)))
  }

  /** The rules of section 5.2 and 5.5 of RFC 6455 the first bytes of a frame break: reserved bits, an
      opcode not in use, no mask, a bad length, a control frame fragmented or over 125 bytes. */
  predicate BreaksRules(buf: seq<Byte>)
  {
    |buf| >= 2 &&
    (|| (buf[0] / 16) % 8 != 0 || !Known(buf[0] % 16) || buf[1] < 128
     || var len := LengthAt(buf);
        && len.Some?
        && (|| BadLength(buf[1] % 128, len.value)
            || (buf[0] % 16 >= 8 && (buf[0] < 128 || len.value > 125))))
  }

  /** A message longer than the bridge takes. */
  predicate TooBig(buf: seq<Byte>)
  {
    |buf| >= 2 && LengthAt(buf).Some? && LengthAt(buf).value > 65536
  }

  /** A frame is refused, as soon as its header shows it, exactly if it breaks a rule, with 1002, or is
      too big, with 1009. */
  lemma RefusedExactly(buf: seq<Byte>)
    ensures ParseFrame(buf).Bad? <==> BreaksRules(buf) || TooBig(buf)
    ensures ParseFrame(buf).Bad? ==> ParseFrame(buf).error.code == if BreaksRules(buf) then 1002 else 1009
  {
    hide FromBigEndian, Pow2, ReservedSet, TopSet, LowFour, LowSeven, Unmask;
    if |buf| >= 2 {
      ByteParts(buf[0]);
      ByteParts(buf[1]);
      OpcodeOnto(buf[0] % 16);
    }
    if |buf| >= 10 { BigEndianBounded(buf[2..10]); }
  }

  lemma BeforeSendable(items: seq<Item>, parts: seq<Part>, isUtf8: seq<Byte> -> bool)
    requires LegalBefore(items, parts, isUtf8)
    ensures AllSendable(SentBefore(items, parts))
  {
    hide FramesOf, OpenFrames, AllSendable, ItemsLegal, PartsLegal;
    ItemsSendable(items, isUtf8);
    OpenSendable(false, parts);
    SendableConcat(FramesOf(items), OpenFrames(false, parts));
  }

  /** The bytes of what is sent before. */
  function BytesBefore(items: seq<Item>, parts: seq<Part>, isUtf8: seq<Byte> -> bool): seq<Byte>
    requires LegalBefore(items, parts, isUtf8)
  {
    BeforeSendable(items, parts, isUtf8);
    Wire(SentBefore(items, parts))
  }

  lemma DeliverUpTo(items: seq<Item>, parts: seq<Part>, isUtf8: seq<Byte> -> bool)
    requires LegalBefore(items, parts, isUtf8)
    ensures Delivered(FRESH, SentBefore(items, parts), isUtf8)
            == FRESH.(partial := InProgress(false, [], parts), events := Expected(items) + PartEvents(parts))
  {
    hide FramesOf, OpenFrames, ItemsLegal, PartsLegal, Expected, PartEvents, OpenBytes, InProgress;
    var open := OpenFrames(false, parts);
    DeliverAll(FRESH, items, open, isUtf8);
    assert [] + Expected(items) == Expected(items);
    assert [] + OpenBytes(parts) == OpenBytes(parts);
    DeliverOpen(FRESH.(events := Expected(items)), false, [], parts, [], isUtf8);
    assert open + [] == open;
  }

  /** The same of bytes that are no frame: what was sent before them has been delivered, and they end the connection
      with 1002 if they break a rule, else, being too big, with 1009. */
  lemma IllegalBytesEnd(items: seq<Item>, parts: seq<Part>, bad: seq<Byte>, chunks: seq<seq<Byte>>,
                        isUtf8: seq<Byte> -> bool)
    requires LegalBefore(items, parts, isUtf8) && (BreaksRules(bad) || TooBig(bad))
    requires Joined(chunks) == BytesBefore(items, parts, isUtf8) + bad
    ensures var c := FedAll(FRESH, chunks, isUtf8);
            c.ended == Some(Protocol(if BreaksRules(bad) then 1002 else 1009))
            && c.events == Expected(items) + PartEvents(parts)
  {
    hide Delivered, ParseFrame, Wire, SentBefore, AllSendable, LegalBefore, Expected, InProgress, PartEvents,
         BreaksRules, TooBig;
    var sents := SentBefore(items, parts);
    BeforeSendable(items, parts, isUtf8);
    DeliverUpTo(items, parts, isUtf8);
    NothingOnWire();
    ChunkingDoesNotMatter(FRESH, chunks, isUtf8) by { hide Drained; }
    assert [] + Joined(chunks) == Joined(chunks);
    var c := FRESH.(buf := Wire(sents));
    DrainDelivers(c, sents, isUtf8) by { hide Drained; }
    DrainSplits(c, bad, isUtf8) by { hide Drained; }
    RefusedExactly(bad);
    var d := Delivered(FRESH, sents, isUtf8);
    assert [] + bad == bad;
    BadEnds(d.(buf := bad), isUtf8);
  }

  lemma BadEnds(c: Connection, isUtf8: seq<Byte> -> bool)
    requires ParseFrame(c.buf).Bad?
    ensures Drained(c, isUtf8) == c.(ended := Some(Protocol(ParseFrame(c.buf).error.code)))
  {
    hide ParseFrame;
  }
}
