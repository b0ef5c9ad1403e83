/** WebSocket framing (sections 5.2 to 5.5 of RFC 6455): an incremental frame parser, encoders,
    and message reassembly. */
module WebSockets {
  import opened Numbers
  import opened Bits

  const MAX_MESSAGE := 65536
  const MAX_CONTROL := 125

  type Byte = b: nat | b < 256

  datatype Opcode = Continuation | Text | Binary | Close | Ping | Pong
  {
    function ToBits(): (b: nat)
      ensures b < 16
    {
      match this
      case Continuation => 0x0
      case Text => 0x1
      case Binary => 0x2
      case Close => 0x8
      case Ping => 0x9
      case Pong => 0xA
    }

    predicate IsControl() { Close? || Ping? || Pong? }
  }

  function OpcodeOf(bits: nat): Option<Opcode>
  {
    match bits
    case 0x0 => Some(Continuation)
    case 0x1 => Some(Text)
    case 0x2 => Some(Binary)
    case 0x8 => Some(Close)
    case 0x9 => Some(Ping)
    case 0xA => Some(Pong)
    case _ => None
  }

  datatype Frame = Frame(fin: bool, opcode: Opcode, payload: seq<Byte>)

  datatype ProtocolError = ProtocolError(code: nat, reason: string)

  // ---- Bytes ----

  /** The `n` low bytes of a number, most significant first. */
  function ToBigEndian(x: nat, n: nat): (bytes: seq<Byte>)
    ensures |bytes| == n
  {
    if n == 0 then [] else ToBigEndian(x / 256, n - 1) + [x % 256]
  }

  function FromBigEndian(bytes: seq<Byte>): nat
  {
    if bytes == [] then 0 else 256 * FromBigEndian(bytes[..|bytes| - 1]) + bytes[|bytes| - 1]
  }

  lemma {:induction false} BigEndianBack(x: nat, n: nat)
    requires x < Pow2(8 * n)
    ensures FromBigEndian(ToBigEndian(x, n)) == x
  {
    if n == 0 {
      assert Pow2(0) == 1;
    } else {
      EightBits(n);
      BigEndianBack(x / 256, n - 1);
      assert (ToBigEndian(x / 256, n - 1) + [x % 256])[..n - 1] == ToBigEndian(x / 256, n - 1);
    }
  }

  lemma EightBits(n: nat)
    requires n >= 1
    ensures Pow2(8 * n) == 256 * Pow2(8 * (n - 1))
  {
    hide Pow2;
    Pow2Add(8, 8 * (n - 1));
    SmallPower();
    assert 8 + 8 * (n - 1) == 8 * n;
  }

  lemma {:induction false} BigEndianBounded(bytes: seq<Byte>)
    ensures FromBigEndian(bytes) < Pow2(8 * |bytes|)
    ensures ToBigEndian(FromBigEndian(bytes), |bytes|) == bytes
  {
    if bytes == [] {
      assert Pow2(0) == 1;
    } else {
      EightBits(|bytes|);
      BigEndianBounded(bytes[..|bytes| - 1]);
      assert bytes == bytes[..|bytes| - 1] + [bytes[|bytes| - 1]];
    }
  }

  lemma {:induction false} XorByte(a: nat, b: nat, k: nat)
    requires a < Pow2(k) && b < Pow2(k)
    ensures Xor(a, b) < Pow2(k) && Xor(Xor(a, b), b) == a
    decreases k
  {
    if k == 0 {
      assert Pow2(0) == 1;
    } else {
      XorByte(a / 2, b / 2, k - 1);
      XorZero(a);
      XorZero(b);
      XorHalves(a, b);
      XorHalves(Xor(a, b), b);
    }
  }

  lemma XorZero(a: nat)
    ensures Xor(a, 0) == a && Xor(0, a) == a
  {
  }

  /** `Xor` acts bit by bit, also where one side is zero. */
  lemma XorHalves(a: nat, b: nat)
    ensures Xor(a, b) % 2 == (if a % 2 != b % 2 then 1 else 0) && Xor(a, b) / 2 == Xor(a / 2, b / 2)
  {
    XorZero(a);
    XorZero(b);
    XorZero(a / 2);
    XorZero(b / 2);
    if a > 0 && b > 0 {
      hide Xor;
      XorUnfolds(a, b);
      HalfOfSum(if a % 2 != b % 2 then 1 else 0, Xor(a / 2, b / 2));
    }
  }

  lemma XorUnfolds(a: nat, b: nat)
    requires a > 0 && b > 0
    ensures Xor(a, b) == (if a % 2 != b % 2 then 1 else 0) + 2 * Xor(a / 2, b / 2)
  {
  }

  lemma HalfOfSum(bit: nat, rest: nat)
    requires bit <= 1
    ensures (bit + 2 * rest) % 2 == bit && (bit + 2 * rest) / 2 == rest
  {
  }

  function Masked(b: Byte, m: Byte): Byte
  {
    XorIsByte(b, m);
    Xor(b, m)
  }

  lemma XorIsByte(b: Byte, m: Byte)
    ensures Xor(b, m) < 256 && Xor(Xor(b, m), m) == b
  {
    SmallPower();
    XorByte(b, m, 8);
  }

  /** The payload with each byte combined with the mask's bytes in turn. */
  function Unmask(payload: seq<Byte>, mask: seq<Byte>): (r: seq<Byte>)
    requires |mask| == 4
    ensures |r| == |payload|
  {
    seq(|payload|, i requires 0 <= i < |payload| => Masked(payload[i], mask[i % 4]))
  }

  /** Masking twice gives the payload back. */
  lemma UnmaskBack(payload: seq<Byte>, mask: seq<Byte>)
    requires |mask| == 4
    ensures Unmask(Unmask(payload, mask), mask) == payload
  {
    hide Xor;
    forall i | 0 <= i < |payload|
      ensures Unmask(Unmask(payload, mask), mask)[i] == payload[i]
    {
      XorIsByte(payload[i], mask[i % 4]);
    }
  }

  // ---- The header's two bytes ----

  function FirstByte(fin: bool, opcode: Opcode): (b: Byte)
    ensures b == (if fin then 128 else 0) + opcode.ToBits()
  {
    FinBit(opcode.ToBits());
    Or(opcode.ToBits(), if fin then 0x80 else 0)
  }

  lemma FinBit(bits: nat)
    requires bits < 128
    ensures Or(bits, 0x80) == bits + 128 && Or(bits, 0) == bits
  {
    assert Pow2(7) == 128;
    TopBit(bits, 7);
    AndZero(bits);
  }

  predicate ReservedSet(b: Byte) { And(b, 0x70) != 0 }

  predicate TopSet(b: Byte) { And(b, 0x80) != 0 }

  function LowFour(b: Byte): nat { And(b, 0x0F) }

  function LowSeven(b: Byte): nat { And(b, 0x7F) }

  lemma ByteParts(b: Byte)
    ensures LowFour(b) == b % 16 && LowSeven(b) == b % 128
    ensures TopSet(b) <==> b >= 128
    ensures ReservedSet(b) <==> (b / 16) % 8 != 0
  {
    hide And, Pow2;
    SmallPowers();
    MaskIsRemainder(b, 4);
    MaskIsRemainder(b, 7);
    TopBit(b, 7);
    MiddleBits(b);
  }

  lemma SmallPowers()
    ensures Pow2(3) == 8 && Pow2(4) == 16 && Pow2(7) == 128
  {
  }

  lemma MiddleBits(b: nat)
    ensures And(b, 0x70) == 16 * ((b / 16) % 8)
  {
    hide And, Pow2;
    AndShifts(b, 56);
    AndShifts(b / 2, 28);
    AndShifts(b / 4, 14);
    AndShifts(b / 8, 7);
    SmallPowers();
    MaskIsRemainder(b / 16, 3);
  }

  lemma AndShifts(a: nat, b: nat)
    ensures And(a, 2 * b) == 2 * And(a / 2, b)
  {
  }

  // ---- Parsing ----

  /** What a buffer holds at its front: too little, something illegal, or `taken` bytes of frame. */
  datatype Parsed = NeedMore | Bad(error: ProtocolError) | Got(frame: Frame, taken: nat)

  /** The two fixed bytes and the length; `at` is where the mask begins. */
  datatype Header = HeaderNeedsMore | HeaderBad(error: ProtocolError) | Header(fin: bool, opcode: Opcode, len: nat,
      at: nat)

  function ParseHeader(buf: seq<Byte>): (h: Header)
    ensures h.Header? ==> h.at <= |buf| && h.len <= MAX_MESSAGE
  {
    if |buf| < 2 then HeaderNeedsMore
    else if ReservedSet(buf[0]) then HeaderBad(ProtocolError(1002, "reserved bits set"))
    else
      var fin, opcode := TopSet(buf[0]), OpcodeOf(LowFour(buf[0]));
      if opcode.None? then HeaderBad(ProtocolError(1002, "unknown opcode"))
      else if !TopSet(buf[1]) then HeaderBad(ProtocolError(1002, "client frames must be masked"))
      else
        var len7 := LowSeven(buf[1]);
        if len7 == 126 then
          if |buf| < 4 then HeaderNeedsMore
          else
            var len := FromBigEndian(buf[2..4]);
            if len < 126 then HeaderBad(ProtocolError(1002, "non-minimal length"))
            else CheckedHeader(fin, opcode.value, len, 4)
        else if len7 == 127 then
          if |buf| < 10 then HeaderNeedsMore
          else
            var len := FromBigEndian(buf[2..10]);
            if len >= Pow2(63) then HeaderBad(ProtocolError(1002, "length has the high bit set"))
            else if len <= 0xFFFF then HeaderBad(ProtocolError(1002, "non-minimal length"))
            else CheckedHeader(fin, opcode.value, len, 10)
        else CheckedHeader(fin, opcode.value, len7, 2)
  }

  function CheckedHeader(fin: bool, opcode: Opcode, len: nat, at: nat): (h: Header)
    ensures h.Header? ==> h == Header(fin, opcode, len, at) && len <= MAX_MESSAGE
  {
    if opcode.IsControl() && !fin then HeaderBad(ProtocolError(1002, "fragmented control frame"))
    else if opcode.IsControl() && len > MAX_CONTROL then HeaderBad(ProtocolError(1002, "control frame too long"))
    else if len > MAX_MESSAGE then HeaderBad(ProtocolError(1009, "message too big"))
    else Header(fin, opcode, len, at)
  }

  function ParseFrame(buf: seq<Byte>): (p: Parsed)
    ensures p.Got? ==> 1 <= p.taken <= |buf|
  {
    var h := ParseHeader(buf);
    match h
    case HeaderNeedsMore => NeedMore
    case HeaderBad(e) => Bad(e)
    case Header(fin, opcode, len, at) =>
      if |buf| < at + 4 + len then NeedMore
      else
        Got(Frame(fin, opcode, Unmask(buf[at + 4..at + 4 + len], buf[at..at + 4])), at + 4 + len)
  }

  // ---- More bytes never change what has been decided ----

  lemma HeaderStable(a: seq<Byte>, b: seq<Byte>)
    ensures !ParseHeader(a).HeaderNeedsMore? ==> ParseHeader(a + b) == ParseHeader(a)
  {
    hide And, FromBigEndian, Pow2, CheckedHeader;
    if |a| >= 4 { assert (a + b)[2..4] == a[2..4]; }
    if |a| >= 10 { assert (a + b)[2..10] == a[2..10]; }
  }

  /** A frame found, or a violation, stays found however the stream goes on. */
  lemma ParseStable(a: seq<Byte>, b: seq<Byte>)
    ensures !ParseFrame(a).NeedMore? ==> ParseFrame(a + b) == ParseFrame(a)
  {
    hide ParseHeader, Unmask;
    HeaderStable(a, b);
    var h := ParseHeader(a);
    if h.Header? && |a| >= h.at + 4 + h.len {
      assert (a + b)[h.at + 4..h.at + 4 + h.len] == a[h.at + 4..h.at + 4 + h.len];
      assert (a + b)[h.at..h.at + 4] == a[h.at..h.at + 4];
    }
  }

  // ---- Encoding ----

  /** The length field, in its shortest form, with the mask bit on top of its first byte. */
  function LengthBytes(len: nat, top: bool): (bytes: seq<Byte>)
    requires len < Pow2(63)
  {
    SmallPowers();
    if len < 126 then [LengthByte(len, top)]
    else if len <= 0xFFFF then [LengthByte(126, top)] + ToBigEndian(len, 2)
    else [LengthByte(127, top)] + ToBigEndian(len, 8)
  }

  function LengthByte(low: nat, top: bool): (b: Byte)
    requires low < 128
    ensures b == low + if top then 128 else 0
  {
    FinBit(low);
    Or(low, if top then 0x80 else 0)
  }

  /** A masked client frame. */
  function ClientFrame(opcode: Opcode, fin: bool, payload: seq<Byte>, mask: seq<Byte>): seq<Byte>
    requires |mask| == 4 && |payload| < Pow2(63)
  {
    [FirstByte(fin, opcode)] + LengthBytes(|payload|, true) + mask + Unmask(payload, mask)
  }

  /** An unmasked server frame. */
  function ServerFrame(opcode: Opcode, payload: seq<Byte>): seq<Byte>
    requires |payload| < Pow2(63)
  {
    [FirstByte(true, opcode)] + LengthBytes(|payload|, false) + payload
  }

  /** What section 5.5 asks of control frames, and the size limit. */
  predicate Legal(f: Frame)
  {
    |f.payload| <= MAX_MESSAGE && (f.opcode.IsControl() ==> f.fin && |f.payload| <= MAX_CONTROL)
  }

  lemma OpcodeBack(opcode: Opcode)
    ensures OpcodeOf(opcode.ToBits()) == Some(opcode)
  {
  }

  lemma OpcodeOnto(bits: nat)
    ensures OpcodeOf(bits).Some? ==> OpcodeOf(bits).value.ToBits() == bits
  {
  }

  lemma FirstByteBack(fin: bool, opcode: Opcode)
    ensures var b := FirstByte(fin, opcode);
            !ReservedSet(b) && TopSet(b) == fin && OpcodeOf(LowFour(b)) == Some(opcode)
  {
    hide And, Or;
    ByteParts(FirstByte(fin, opcode));
    OpcodeBack(opcode);
  }

  lemma LengthByteBack(low: nat, top: bool)
    requires low < 128
    ensures TopSet(LengthByte(low, top)) == top && LowSeven(LengthByte(low, top)) == low
  {
    hide And, Or;
    ByteParts(LengthByte(low, top));
  }

  lemma MaxFits()
    ensures MAX_MESSAGE < Pow2(63) && Pow2(16) == 65536 && Pow2(64) == 2 * Pow2(63)
  {
    hide Pow2;
    SmallPower();
    Pow2Add(8, 8);
    PowersGrow(17, 63);
    DoublePower(16);
    DoublePower(63);
  }

  lemma DoublePower(k: nat)
    ensures Pow2(k + 1) == 2 * Pow2(k)
  {
  }

  /** The header of an encoded frame parses back. */
  lemma HeaderBack(f: Frame, buf: seq<Byte>)
    requires Legal(f) && |f.payload| < Pow2(63)
    requires ([FirstByte(f.fin, f.opcode)] + LengthBytes(|f.payload|, true)) <= buf
    ensures ParseHeader(buf)
            == Header(f.fin, f.opcode, |f.payload|, 1 + |LengthBytes(|f.payload|, true)|)
  {
    hide And, Or, Pow2, FromBigEndian, ToBigEndian, FirstByte, LengthByte, ReservedSet, TopSet, LowFour, LowSeven,
         OpcodeOf;
    var len := |f.payload|;
    var head := [FirstByte(f.fin, f.opcode)] + LengthBytes(len, true);
    assert buf[..|head|] == head;
    assert buf[0] == head[0] && buf[1] == head[1];
    FirstByteBack(f.fin, f.opcode);
    MaxFits();
    LengthByteBack(if len < 126 then len else if len <= 0xFFFF then 126 else 127, true);
    if 126 <= len <= 0xFFFF {
      BigEndianBack(len, 2);
      assert buf[2..4] == head[2..4] == ToBigEndian(len, 2);
    } else if len > 0xFFFF {
      PowersGrow(63, 64);
      BigEndianBack(len, 8);
      assert buf[2..10] == head[2..10] == ToBigEndian(len, 8);
    }
  }

  /** A legal frame parses back, whatever follows it, and is consumed exactly. */
  lemma ClientFrameBack(f: Frame, mask: seq<Byte>, rest: seq<Byte>)
    requires Legal(f) && |mask| == 4
    ensures |f.payload| < Pow2(63)
    ensures var bytes := ClientFrame(f.opcode, f.fin, f.payload, mask);
            ParseFrame(bytes + rest) == Got(f, |bytes|)
  {
    hide ParseHeader, LengthBytes, FirstByte, Pow2, Unmask;
    MaxFits();
    var head := [FirstByte(f.fin, f.opcode)] + LengthBytes(|f.payload|, true);
    var masked := Unmask(f.payload, mask);
    var bytes := ClientFrame(f.opcode, f.fin, f.payload, mask);
    var buf, at, len := bytes + rest, |head|, |f.payload|;
    assert bytes == head + mask + masked;
    HeaderBack(f, buf);
    assert buf[at..at + 4] == mask && buf[at + 4..at + 4 + len] == masked;
    UnmaskBack(f.payload, mask);
  }

  /** Nothing is consumed, and nothing refused, before the whole of a legal frame is there. */
  lemma PartialFrameWaits(f: Frame, mask: seq<Byte>, n: nat)
    requires Legal(f) && |mask| == 4 && |f.payload| < Pow2(63)
    requires n < |ClientFrame(f.opcode, f.fin, f.payload, mask)|
    ensures ParseFrame(ClientFrame(f.opcode, f.fin, f.payload, mask)[..n]) == NeedMore
  {
    hide ParseFrame, ClientFrame, Pow2;
    var bytes := ClientFrame(f.opcode, f.fin, f.payload, mask);
    ClientFrameBack(f, mask, []);
    assert bytes + [] == bytes && bytes[..n] + bytes[n..] == bytes;
    ParseStable(bytes[..n], bytes[n..]);
  }

  lemma HeaderShape(b0: Byte, b1: Byte)
    ensures !ReservedSet(b0) ==> b0 == LowFour(b0) + if TopSet(b0) then 128 else 0
    ensures b1 == LowSeven(b1) + if TopSet(b1) then 128 else 0
  {
    hide And;
    ByteParts(b0);
    ByteParts(b1);
  }

  /** The bytes of an accepted header are those the encoder writes. */
  lemma HeaderIsCanonical(buf: seq<Byte>)
    requires ParseHeader(buf).Header?
    ensures var h := ParseHeader(buf);
            && h.len < Pow2(63) && h.at <= |buf|
            && buf[..h.at] == [FirstByte(h.fin, h.opcode)] + LengthBytes(h.len, true)
            && (h.opcode.IsControl() ==> h.fin && h.len <= MAX_CONTROL)
  {
    hide And, Or, Pow2, FromBigEndian, ToBigEndian, ReservedSet, TopSet, LowFour, LowSeven, OpcodeOf;
    MaxFits();
    HeaderShape(buf[0], buf[1]);
    OpcodeOnto(LowFour(buf[0]));
    var h := ParseHeader(buf);
    assert buf[0] == FirstByte(h.fin, h.opcode);
    if h.at == 4 {
      BigEndianBounded(buf[2..4]);
      assert buf[..4] == [buf[0]] + ([buf[1]] + buf[2..4]);
    } else if h.at == 10 {
      BigEndianBounded(buf[2..10]);
      assert buf[..10] == [buf[0]] + ([buf[1]] + buf[2..10]);
    } else {
      ByteParts(buf[1]);
      assert buf[..2] == [buf[0]] + [buf[1]];
    }
  }

  /** The parser accepts exactly what the encoder writes: every frame it returns is legal, and
      the bytes taken are its encoding under the mask they carry. */
  lemma ParsedIsCanonical(buf: seq<Byte>)
    requires ParseFrame(buf).Got?
    ensures var (f, n) := (ParseFrame(buf).frame, ParseFrame(buf).taken);
            && Legal(f) && |f.payload| < Pow2(63)
            && exists mask: seq<Byte> :: |mask| == 4 && buf[..n] == ClientFrame(f.opcode, f.fin, f.payload, mask)
  {
    hide ParseHeader, LengthBytes, FirstByte, Pow2, Unmask;
    var h := ParseHeader(buf);
    HeaderIsCanonical(buf);
    var mask, masked := buf[h.at..h.at + 4], buf[h.at + 4..h.at + 4 + h.len];
    UnmaskBack(masked, mask);
    var f := ParseFrame(buf).frame;
    assert buf[..ParseFrame(buf).taken] == buf[..h.at] + mask + masked;
    assert buf[..ParseFrame(buf).taken] == ClientFrame(f.opcode, f.fin, f.payload, mask);
  }

  // ---- Server frames ----

  function ParseServerFrame(buf: seq<Byte>): (p: Option<(Frame, nat)>)
    ensures p.Some? ==> p.value.1 <= |buf|
  {
    if |buf| < 2 || OpcodeOf(LowFour(buf[0])).None? then None
    else
      var len7 := LowSeven(buf[1]);
      var at := if len7 == 126 then 4 else if len7 == 127 then 10 else 2;
      if |buf| < at then None
      else
        var len := if at == 2 then len7 else FromBigEndian(buf[2..at]);
        if |buf| < at + len then None
        else Some((Frame(TopSet(buf[0]), OpcodeOf(LowFour(buf[0])).value, buf[at..at + len]), at + len))
  }

  /** What the server writes, the client reads, whatever follows. */
  lemma ServerFrameBack(opcode: Opcode, payload: seq<Byte>, rest: seq<Byte>)
    requires |payload| < Pow2(63)
    ensures var bytes := ServerFrame(opcode, payload);
            ParseServerFrame(bytes + rest) == Some((Frame(true, opcode, payload), |bytes|))
  {
    hide And, Or, Pow2, FromBigEndian, ToBigEndian, FirstByte, LengthByte, ReservedSet, TopSet, LowFour, LowSeven,
         OpcodeOf;
    var len := |payload|;
    var head := [FirstByte(true, opcode)] + LengthBytes(len, false);
    var bytes, at := ServerFrame(opcode, payload), |head|;
    var buf := bytes + rest;
    assert bytes == head + payload;
    assert buf[..at] == head && buf[at..at + len] == payload;
    assert buf[0] == head[0] && buf[1] == head[1];
    FirstByteBack(true, opcode);
    MaxFits();
    PowersGrow(63, 64);
    LengthByteBack(if len < 126 then len else if len <= 0xFFFF then 126 else 127, false);
    if 126 <= len <= 0xFFFF {
      BigEndianBack(len, 2);
      assert buf[2..4] == head[2..4] == ToBigEndian(len, 2);
    } else if len > 0xFFFF {
      BigEndianBack(len, 8);
      assert buf[2..10] == head[2..10] == ToBigEndian(len, 8);
    }
  }

  // ---- Reassembly ----

  datatype Event = TextMessage(bytes: seq<Byte>) | PingReceived(payload: seq<Byte>) | CloseReceived(code: nat) | Nothing

  datatype Pushed = Refused(error: ProtocolError) | Accepted(event: Event)

  predicate CloseCodeValid(code: nat)
  {
    1000 <= code <= 1003 || 1007 <= code <= 1011 || 3000 <= code <= 4999
  }

  function Finished(bytes: seq<Byte>, isUtf8: seq<Byte> -> bool): Pushed
  {
    if isUtf8(bytes) then Accepted(TextMessage(bytes)) else Refused(ProtocolError(1007, "text is not UTF-8"))
  }

  /** Feeds one frame to an assembler holding `partial`. */
  function Assembled(partial: Option<seq<Byte>>, f: Frame, isUtf8: seq<Byte> -> bool): (Option<seq<Byte>>, Pushed)
  {
    match f.opcode
    case Ping => (partial, Accepted(PingReceived(f.payload)))
    case Pong => (partial, Accepted(Nothing))
    case Close =>
      (partial,
       if |f.payload| == 0 then Accepted(CloseReceived(1000))
       else if |f.payload| == 1 then Refused(ProtocolError(1002, "bad close payload"))
       else
         var code := FromBigEndian(f.payload[..2]);
         if !isUtf8(f.payload[2..]) then Refused(ProtocolError(1007, "close reason is not UTF-8"))
         else if !CloseCodeValid(code) then Refused(ProtocolError(1002, "invalid close code"))
         else Accepted(CloseReceived(code)))
    case Binary => (partial, Refused(ProtocolError(1003, "binary messages are not supported")))
    case Text =>
      if partial.Some? then (partial, Refused(ProtocolError(1002, "new message before the previous ended")))
      else if f.fin then (partial, Finished(f.payload, isUtf8))
      else (Some(f.payload), Accepted(Nothing))
    case Continuation =>
      if partial.None? then (None, Refused(ProtocolError(1002, "continuation without a message")))
      else if |partial.value| + |f.payload| > MAX_MESSAGE then (None, Refused(ProtocolError(1009, "message too big")))
      else if f.fin then (None, Finished(partial.value + f.payload, isUtf8))
      else (Some(partial.value + f.payload), Accepted(Nothing))
  }

  /** What a close frame carries: its code, and as much of the reason as fits. */
  function ClosePayload(code: nat, reason: seq<Byte>): (payload: seq<Byte>)
    ensures |payload| <= MAX_CONTROL
  {
    ToBigEndian(code, 2) + if |reason| <= 123 then reason else reason[..123]
  }

  /** The close frame the server sends reads as a legal close with its code, if the code is one
      an endpoint may send and the reason is still UTF-8 where it was cut. */
  lemma CloseFrameBack(code: nat, reason: seq<Byte>, rest: seq<Byte>, isUtf8: seq<Byte> -> bool)
    requires CloseCodeValid(code)
    ensures |ClosePayload(code, reason)| < Pow2(63)
    ensures var bytes, f := ServerFrame(Close, ClosePayload(code, reason)),
            Frame(true, Close, ClosePayload(code, reason));
            && ParseServerFrame(bytes + rest) == Some((f, |bytes|)) && Legal(f)
            && Assembled(None, f, isUtf8).1
               == if isUtf8(if |reason| <= 123 then reason else reason[..123]) then Accepted(CloseReceived(code))
                  else Refused(ProtocolError(1007, "close reason is not UTF-8"))
  {
    hide Pow2, ServerFrame, ParseServerFrame, FromBigEndian, ToBigEndian;
    MaxFits();
    var payload := ClosePayload(code, reason);
    ServerFrameBack(Close, payload, rest);
    BigEndianBack(code, 2);
    assert payload[..2] == ToBigEndian(code, 2);
    assert payload[2..] == if |reason| <= 123 then reason else reason[..123];
  }

  // ---- A connection ----

  datatype End = Closed(code: nat) | Protocol(code: nat)

  /** A connection's receive side: unread bytes, the message in progress, what was delivered,
      and how it ended. */
  datatype Connection = Connection(buf: seq<Byte>, partial: Option<seq<Byte>>, events: seq<Event>, ended: Option<End>)

  const FRESH := Connection([], None, [], None)

  /** Takes whole frames off the buffer until there is none, or the connection ends. */
  function Drained(c: Connection, isUtf8: seq<Byte> -> bool): Connection
    decreases |c.buf|
  {
    match ParseFrame(c.buf)
    case NeedMore => c
    case Bad(e) => c.(ended := Some(Protocol(e.code)))
    case Got(f, n) =>
      var (partial, out) := Assembled(c.partial, f, isUtf8);
      var c' := c.(buf := c.buf[n..], partial := partial);
      match out
      case Refused(e) => c'.(ended := Some(Protocol(e.code)))
      case Accepted(CloseReceived(code)) => c'.(events := c.events + [CloseReceived(code)], ended := Some(Closed(code)))
      case Accepted(Nothing) => Drained(c', isUtf8)
      case Accepted(event) => Drained(c'.(events := c.events + [event]), isUtf8)
  }

  /** One read from the socket. */
  function Fed(c: Connection, chunk: seq<Byte>, isUtf8: seq<Byte> -> bool): Connection
  {
    if c.ended.Some? then c else Drained(c.(buf := c.buf + chunk), isUtf8)
  }

  function FedAll(c: Connection, chunks: seq<seq<Byte>>, isUtf8: seq<Byte> -> bool): Connection
    decreases |chunks|
  {
    if chunks == [] then c else FedAll(Fed(c, chunks[0], isUtf8), chunks[1..], isUtf8)
  }

  function Joined(chunks: seq<seq<Byte>>): seq<Byte>
  {
    if chunks == [] then [] else chunks[0] + Joined(chunks[1..])
  }

  /** What a peer can tell of a connection: bytes after its end do not matter. */
  function Observed(c: Connection): Connection
  {
    if c.ended.Some? then c.(buf := []) else c
  }

  lemma {:induction false} DrainSplits(c: Connection, more: seq<Byte>, isUtf8: seq<Byte> -> bool)
    requires c.ended == None
    ensures var d := Drained(c, isUtf8);
            Observed(Drained(c.(buf := c.buf + more), isUtf8))
            == Observed(if d.ended.Some? then d else Drained(d.(buf := d.buf + more), isUtf8))
    decreases |c.buf|
  {
    hide ParseFrame, Assembled;
    ParseStable(c.buf, more);
    if ParseFrame(c.buf).Got? {
      var f, n := ParseFrame(c.buf).frame, ParseFrame(c.buf).taken;
      assert (c.buf + more)[n..] == c.buf[n..] + more;
      var (partial, out) := Assembled(c.partial, f, isUtf8);
      var c' := c.(buf := c.buf[n..], partial := partial);
      if out.Accepted? && !out.event.CloseReceived? {
        DrainSplits(if out.event.Nothing? then c' else c'.(events := c.events + [out.event]), more, isUtf8);
      }
    }
  }

  lemma DrainedAlready(c: Connection, isUtf8: seq<Byte> -> bool)
    requires ParseFrame(c.buf).NeedMore?
    ensures Drained(c, isUtf8) == c
  {
  }

  /** What a drained connection still holds is no whole frame. */
  lemma {:induction false} DrainedIsDry(c: Connection, isUtf8: seq<Byte> -> bool)
    requires c.ended == None
    ensures var d := Drained(c, isUtf8); d.ended.Some? || ParseFrame(d.buf).NeedMore?
    decreases |c.buf|
  {
    hide ParseFrame, Assembled;
    if ParseFrame(c.buf).Got? {
      var f, n := ParseFrame(c.buf).frame, ParseFrame(c.buf).taken;
      var (partial, out) := Assembled(c.partial, f, isUtf8);
      var c' := c.(buf := c.buf[n..], partial := partial);
      if out.Accepted? && !out.event.CloseReceived? {
        DrainedIsDry(if out.event.Nothing? then c' else c'.(events := c.events + [out.event]), isUtf8);
      }
    }
  }

  lemma {:induction false} EndedStays(c: Connection, chunks: seq<seq<Byte>>, isUtf8: seq<Byte> -> bool)
    requires c.ended.Some?
    ensures FedAll(c, chunks, isUtf8) == c
    decreases |chunks|
  {
    if chunks != [] { EndedStays(c, chunks[1..], isUtf8); }
  }

  /** What is delivered, and how the connection ends, depends only on the bytes received, not on
      how they were cut into reads. */
  lemma {:induction false} ChunkingDoesNotMatter(c: Connection, chunks: seq<seq<Byte>>, isUtf8: seq<Byte> -> bool)
    requires c.ended == None && ParseFrame(c.buf).NeedMore?
    ensures Observed(FedAll(c, chunks, isUtf8)) == Observed(Fed(c, Joined(chunks), isUtf8))
    decreases |chunks|
  {
    hide Drained, ParseFrame;
    if chunks == [] {
      assert c.buf + [] == c.buf;
      DrainedAlready(c, isUtf8);
    } else {
      var first, rest := chunks[0], Joined(chunks[1..]);
      assert c.buf + (first + rest) == (c.buf + first) + rest;
      var whole := c.(buf := c.buf + first);
      DrainSplits(whole, rest, isUtf8);
      var d := Fed(c, first, isUtf8);
      DrainedIsDry(whole, isUtf8);
      if d.ended.Some? {
        EndedStays(d, chunks[1..], isUtf8);
      } else {
        ChunkingDoesNotMatter(d, chunks[1..], isUtf8);
      }
    }
  }

  // ---- From the sender's messages to the receiver's ----

  /** A frame on its way, with the mask the sender picked for it. */
  datatype Sent = Sent(frame: Frame, mask: seq<Byte>)

  predicate Sendable(s: Sent) { Legal(s.frame) && |s.mask| == 4 }

  predicate AllSendable(sents: seq<Sent>) { forall i :: 0 <= i < |sents| ==> Sendable(sents[i]) }

  function Wire(sents: seq<Sent>): seq<Byte>
    requires AllSendable(sents)
  {
    if sents == [] then []
    else
      MaxFits();
      var f := sents[0].frame;
      ClientFrame(f.opcode, f.fin, f.payload, sents[0].mask) + Wire(sents[1..])
  }

  /** What the assembler makes of a list of frames. */
  function Delivered(c: Connection, sents: seq<Sent>, isUtf8: seq<Byte> -> bool): Connection
    decreases |sents|
  {
    if sents == [] then c
    else
      var (partial, out) := Assembled(c.partial, sents[0].frame, isUtf8);
      var c' := c.(partial := partial);
      match out
      case Refused(e) => c'.(ended := Some(Protocol(e.code)))
      case Accepted(CloseReceived(code)) => c'.(events := c.events + [CloseReceived(code)], ended := Some(Closed(code)))
      case Accepted(Nothing) => Delivered(c', sents[1..], isUtf8)
      case Accepted(event) => Delivered(c'.(events := c.events + [event]), sents[1..], isUtf8)
  }

  lemma WireFirst(sents: seq<Sent>)
    requires AllSendable(sents) && sents != []
    ensures AllSendable(sents[1..])
    ensures var f := sents[0].frame;
            exists n: nat :: n <= |Wire(sents)| && ParseFrame(Wire(sents)) == Got(f, n)
                && Wire(sents)[n..] == Wire(sents[1..])
  {
    hide ParseFrame, ClientFrame, Pow2;
    assert Sendable(sents[0]);
    var f, rest := sents[0].frame, Wire(sents[1..]);
    ClientFrameBack(f, sents[0].mask, rest);
    var bytes := ClientFrame(f.opcode, f.fin, f.payload, sents[0].mask);
    assert Wire(sents) == bytes + rest;
    assert (bytes + rest)[|bytes|..] == rest;
  }

  /** Draining the bytes of frames is assembling the frames. */
  lemma {:induction false} DrainDelivers(c: Connection, sents: seq<Sent>, isUtf8: seq<Byte> -> bool)
    requires AllSendable(sents) && c.ended == None && c.buf == Wire(sents)
    ensures var d := Delivered(c.(buf := []), sents, isUtf8);
            Observed(Drained(c, isUtf8)) == Observed(d) && (d.ended == None ==> d.buf == [])
    decreases |sents|
  {
    hide ParseFrame, Assembled, Wire, AllSendable;
    if sents == [] {
      NothingOnWire();
    } else {
      WireFirst(sents);
      var f := sents[0].frame;
      var n: nat :| n <= |Wire(sents)| && ParseFrame(Wire(sents)) == Got(f, n) && Wire(sents)[n..] == Wire(sents[1..]);
      var (partial, out) := Assembled(c.partial, f, isUtf8);
      var c' := c.(buf := c.buf[n..], partial := partial);
      if out.Accepted? && !out.event.CloseReceived? {
        DrainDelivers(if out.event.Nothing? then c' else c'.(events := c.events + [out.event]), sents[1..], isUtf8);
      }
    }
  }

  lemma NothingOnWire()
    ensures AllSendable([]) && Wire([]) == [] && ParseFrame([]).NeedMore?
  {
  }

  /** The bytes of a frame and its mask. */
  datatype Piece = Piece(payload: seq<Byte>, mask: seq<Byte>)

  /** A ping or a pong. */
  datatype Note = Note(pong: bool, piece: Piece)

  /** A fragment that is not the last, and the pings and pongs sent right after it. */
  datatype Part = Part(piece: Piece, notes: seq<Note>)

  /** What a client sends: a text message in any number of fragments, with pings and pongs between
      them, or one of those on its own. */
  datatype Item = Message(parts: seq<Part>, last: Piece) | Lone(note: Note)

  function NoteFrame(note: Note): Sent
  {
    Sent(Frame(true, if note.pong then Pong else Ping, note.piece.payload), note.piece.mask)
  }

  /** A ping is to be answered; a pong says nothing. */
  function NoteEvent(note: Note): seq<Event>
  {
    if note.pong then [] else [PingReceived(note.piece.payload)]
  }

  function NoteFrames(notes: seq<Note>): seq<Sent>
  {
    if notes == [] then [] else [NoteFrame(notes[0])] + NoteFrames(notes[1..])
  }

  /** The rest of a message, of which `started` says whether a fragment is already out. */
  function MessageFrames(started: bool, parts: seq<Part>, last: Piece): seq<Sent>
    decreases |parts|
  {
    var opcode := if started then Continuation else Text;
    if parts == [] then [Sent(Frame(true, opcode, last.payload), last.mask)]
    else
      [Sent(Frame(false, opcode, parts[0].piece.payload), parts[0].piece.mask)]
      + (NoteFrames(parts[0].notes) + MessageFrames(true, parts[1..], last))
  }

  function ItemFrames(item: Item): seq<Sent>
  {
    match item
    case Message(parts, last) => MessageFrames(false, parts, last)
    case Lone(note) => NoteFrames([note])
  }

  function FramesOf(items: seq<Item>): seq<Sent>
  {
    if items == [] then [] else ItemFrames(items[0]) + FramesOf(items[1..])
  }

  function NoteEvents(notes: seq<Note>): seq<Event>
  {
    if notes == [] then [] else NoteEvent(notes[0]) + NoteEvents(notes[1..])
  }

  function PartEvents(parts: seq<Part>): seq<Event>
  {
    if parts == [] then [] else NoteEvents(parts[0].notes) + PartEvents(parts[1..])
  }

  /** The bytes of a message, whole. */
  function Whole(parts: seq<Part>, last: Piece): seq<Byte>
  {
    if parts == [] then last.payload else parts[0].piece.payload + Whole(parts[1..], last)
  }

  /** What the receiver is meant to see: a message when its last fragment is in, a ping at once. */
  function Expected(items: seq<Item>): seq<Event>
  {
    if items == [] then [] else ItemEvents(items[0]) + Expected(items[1..])
  }

  predicate PieceLegal(p: Piece, limit: nat) { |p.mask| == 4 && |p.payload| <= limit }

  predicate PartsLegal(parts: seq<Part>)
  {
    forall i :: 0 <= i < |parts| ==>
      PieceLegal(parts[i].piece, MAX_MESSAGE) && forall n <- parts[i].notes :: PieceLegal(n.piece, MAX_CONTROL)
  }

  predicate ItemLegal(item: Item, isUtf8: seq<Byte> -> bool)
  {
    match item
    case Message(parts, last) =>
      PartsLegal(parts) && PieceLegal(last, MAX_MESSAGE)
      && |Whole(parts, last)| <= MAX_MESSAGE && isUtf8(Whole(parts, last))
    case Lone(note) => PieceLegal(note.piece, MAX_CONTROL)
  }

  predicate ItemsLegal(items: seq<Item>, isUtf8: seq<Byte> -> bool)
  {
    forall i :: 0 <= i < |items| ==> ItemLegal(items[i], isUtf8)
  }

  lemma SendableConcat(a: seq<Sent>, b: seq<Sent>)
    requires AllSendable(a) && AllSendable(b)
    ensures AllSendable(a + b)
  {
  }

  lemma SendableOne(s: Sent)
    requires Sendable(s)
    ensures AllSendable([s])
  {
  }

  lemma {:induction false} NotesSendable(notes: seq<Note>)
    requires forall n <- notes :: PieceLegal(n.piece, MAX_CONTROL)
    ensures AllSendable(NoteFrames(notes))
  {
    hide AllSendable;
    if notes == [] {
      NothingOnWire();
    } else {
      var first := NoteFrame(notes[0]);
      assert PieceLegal(notes[0].piece, MAX_CONTROL);
      SendableOne(first);
      NotesSendable(notes[1..]);
      SendableConcat([first], NoteFrames(notes[1..]));
    }
  }

  lemma {:induction false} MessageSendable(started: bool, parts: seq<Part>, last: Piece)
    requires PartsLegal(parts) && PieceLegal(last, MAX_MESSAGE)
    ensures AllSendable(MessageFrames(started, parts, last))
    decreases |parts|
  {
    hide AllSendable, NoteFrames;
    var opcode := if started then Continuation else Text;
    if parts == [] {
      SendableOne(Sent(Frame(true, opcode, last.payload), last.mask));
    } else {
      var first := Sent(Frame(false, opcode, parts[0].piece.payload), parts[0].piece.mask);
      SendableOne(first);
      NotesSendable(parts[0].notes);
      MessageSendable(true, parts[1..], last);
      SendableConcat(NoteFrames(parts[0].notes), MessageFrames(true, parts[1..], last));
      SendableConcat([first], NoteFrames(parts[0].notes) + MessageFrames(true, parts[1..], last));
    }
  }

  lemma {:induction false} ItemsSendable(items: seq<Item>, isUtf8: seq<Byte> -> bool)
    requires ItemsLegal(items, isUtf8)
    ensures AllSendable(FramesOf(items))
  {
    hide MessageFrames, NoteFrames;
    if items != [] {
      assert ItemLegal(items[0], isUtf8);
      match items[0] {
        case Message(parts, last) => MessageSendable(false, parts, last);
        case Lone(note) => NotesSendable([note]);
      }
      ItemsSendable(items[1..], isUtf8);
      SendableConcat(ItemFrames(items[0]), FramesOf(items[1..]));
    }
  }

  lemma DeliverNote(c: Connection, note: Note, rest: seq<Sent>, isUtf8: seq<Byte> -> bool)
    ensures Delivered(c, [NoteFrame(note)] + rest, isUtf8)
            == Delivered(c.(events := c.events + NoteEvent(note)), rest, isUtf8)
  {
    assert ([NoteFrame(note)] + rest)[1..] == rest;
    assert note.pong ==> c.events + NoteEvent(note) == c.events;
  }

  lemma NotesFirst(notes: seq<Note>, rest: seq<Sent>, before: seq<Event>)
    requires notes != []
    ensures NoteFrames(notes) + rest
            == [NoteFrame(notes[0])] + (NoteFrames(notes[1..]) + rest)
    ensures before + NoteEvents(notes) == (before + NoteEvent(notes[0])) + NoteEvents(notes[1..])
  {
  }

  lemma NoNotes(rest: seq<Sent>, before: seq<Event>)
    ensures NoteFrames([]) + rest == rest && before + NoteEvents([]) == before
  {
  }

  lemma {:induction false} DeliverNotes(c: Connection, notes: seq<Note>, rest: seq<Sent>, isUtf8: seq<Byte> -> bool)
    ensures Delivered(c, NoteFrames(notes) + rest, isUtf8)
            == Delivered(c.(events := c.events + NoteEvents(notes)), rest, isUtf8)
    decreases |notes|
  {
    hide Delivered, NoteFrames, NoteEvents;
    if notes == [] {
      NoNotes(rest, c.events);
    } else {
      NotesFirst(notes, rest, c.events);
      DeliverNote(c, notes[0], NoteFrames(notes[1..]) + rest, isUtf8);
      DeliverNotes(c.(events := c.events + NoteEvent(notes[0])), notes[1..], rest, isUtf8);
    }
  }

  /** One fragment joins the message in progress. */
  lemma DeliverFragment(c: Connection, started: bool, sofar: seq<Byte>, fin: bool, p: Piece, rest: seq<Sent>,
                        isUtf8: seq<Byte> -> bool)
    requires c.partial == (if started then Some(sofar) else None) && (!started ==> sofar == [])
    requires |sofar + p.payload| <= MAX_MESSAGE && (fin ==> isUtf8(sofar + p.payload))
    ensures var sent := Sent(Frame(fin, if started then Continuation else Text, p.payload), p.mask);
            Delivered(c, [sent] + rest, isUtf8)
            == Delivered(if fin then c.(partial := None, events := c.events + [TextMessage(sofar + p.payload)])
                         else c.(partial := Some(sofar + p.payload)), rest, isUtf8)
  {
    var sent := Sent(Frame(fin, if started then Continuation else Text, p.payload), p.mask);
    assert ([sent] + rest)[1..] == rest;
    assert !started ==> sofar + p.payload == p.payload;
  }

  lemma MessageFirst(started: bool, parts: seq<Part>, last: Piece, sofar: seq<Byte>, rest: seq<Sent>,
                     before: seq<Event>)
    requires parts != []
    ensures var p, notes, later := parts[0].piece, parts[0].notes, parts[1..];
            var opcode, sofar' := if started then Continuation else Text, sofar + p.payload;
            var text := [TextMessage(sofar + Whole(parts, last))];
            && MessageFrames(started, parts, last) + rest
               == [Sent(Frame(false, opcode, p.payload), p.mask)]
                  + (NoteFrames(notes) + (MessageFrames(true, later, last) + rest))
            && sofar' + Whole(later, last) == sofar + Whole(parts, last)
            && before + (PartEvents(parts) + text) == (before + NoteEvents(notes)) + (PartEvents(later) + text)
  {
    hide NoteFrames, NoteEvents;
    WholeFirst(parts, last, sofar);
    var p, notes, later := parts[0].piece, parts[0].notes, parts[1..];
    var opcode := if started then Continuation else Text;
    var a, b, d := [Sent(Frame(false, opcode, p.payload), p.mask)], NoteFrames(notes), MessageFrames(true, later, last);
    assert a + (b + d) + rest == a + (b + (d + rest));
    var text := [TextMessage(sofar + Whole(parts, last))];
    assert before + ((NoteEvents(notes) + PartEvents(later)) + text)
           == (before + NoteEvents(notes)) + (PartEvents(later) + text);
  }

  lemma WholeFirst(parts: seq<Part>, last: Piece, sofar: seq<Byte>)
    requires parts != []
    ensures (sofar + parts[0].piece.payload) + Whole(parts[1..], last) == sofar + Whole(parts, last)
  {
  }

  lemma MessageLast(started: bool, last: Piece)
    ensures MessageFrames(started, [], last)
            == [Sent(Frame(true, if started then Continuation else Text, last.payload), last.mask)]
    ensures Whole([], last) == last.payload
    ensures forall text: seq<Event> :: PartEvents([]) + text == text
  {
  }

  lemma {:induction false} DeliverMessage(c: Connection, started: bool, sofar: seq<Byte>, parts: seq<Part>, last: Piece,
                                          rest: seq<Sent>, isUtf8: seq<Byte> -> bool)
    requires c.partial == (if started then Some(sofar) else None) && (!started ==> sofar == [])
    requires |sofar + Whole(parts, last)| <= MAX_MESSAGE && isUtf8(sofar + Whole(parts, last))
    ensures Delivered(c, MessageFrames(started, parts, last) + rest, isUtf8)
            == Delivered(c.(partial := None,
                            events := c.events + (PartEvents(parts) + [TextMessage(sofar + Whole(parts, last))])),
                         rest, isUtf8)
    decreases |parts|
  {
    hide Delivered, MessageFrames, NoteFrames, NoteEvents, PartEvents, Whole;
    if parts == [] {
      MessageLast(started, last);
      DeliverFragment(c, started, sofar, true, last, rest, isUtf8);
    } else {
      MessageFirst(started, parts, last, sofar, rest, c.events);
      var p, notes, later := parts[0].piece, parts[0].notes, parts[1..];
      var sofar' := sofar + p.payload;
      var after := MessageFrames(true, later, last) + rest;
      DeliverFragment(c, started, sofar, false, p, NoteFrames(notes) + after, isUtf8);
      var c1 := c.(partial := Some(sofar'));
      DeliverNotes(c1, notes, after, isUtf8);
      DeliverMessage(c1.(events := c.events + NoteEvents(notes)), true, sofar', later, last, rest, isUtf8);
    }
  }

  /** What one item delivers. */
  function ItemEvents(item: Item): seq<Event>
  {
    match item
    case Message(parts, last) => PartEvents(parts) + [TextMessage(Whole(parts, last))]
    case Lone(note) => NoteEvent(note)
  }

  lemma DeliverItem(c: Connection, item: Item, rest: seq<Sent>, isUtf8: seq<Byte> -> bool)
    requires c.partial == None && ItemLegal(item, isUtf8)
    ensures Delivered(c, ItemFrames(item) + rest, isUtf8)
            == Delivered(c.(events := c.events + ItemEvents(item)), rest, isUtf8)
  {
    hide Delivered, MessageFrames, NoteFrames, Whole, PartEvents;
    match item
    case Message(parts, last) =>
      assert [] + Whole(parts, last) == Whole(parts, last);
      DeliverMessage(c, false, [], parts, last, rest, isUtf8);
    case Lone(note) =>
      DeliverNotes(c, [note], rest, isUtf8);
      OneNote(note);
  }

  lemma {:induction false} DeliverItems(c: Connection, items: seq<Item>, isUtf8: seq<Byte> -> bool)
    requires c.partial == None && ItemsLegal(items, isUtf8)
    ensures Delivered(c, FramesOf(items), isUtf8) == c.(events := c.events + Expected(items))
    decreases |items|
  {
    hide Delivered, ItemFrames, ItemEvents, ItemLegal;
    if items == [] {
      DeliverNothing(c, isUtf8);
      assert c.events + [] == c.events;
    } else {
      DeliverItem(c, items[0], FramesOf(items[1..]), isUtf8);
      DeliverItems(c.(events := c.events + ItemEvents(items[0])), items[1..], isUtf8);
      assert c.events + ItemEvents(items[0]) + Expected(items[1..]) == c.events + Expected(items);
    }
  }

  lemma DeliverNothing(c: Connection, isUtf8: seq<Byte> -> bool)
    ensures Delivered(c, [], isUtf8) == c
  {
  }

  lemma OneNote(note: Note)
    ensures NoteEvents([note]) == NoteEvent(note)
  {
    assert [note][1..] == [];
  }

  /** The bytes of messages, pings and pongs, each frame masked by its own key. */
  function BytesOf(items: seq<Item>, isUtf8: seq<Byte> -> bool): seq<Byte>
    requires ItemsLegal(items, isUtf8)
  {
    ItemsSendable(items, isUtf8);
    Wire(FramesOf(items))
  }

  /** End to end: however a client fragments its text messages, mixes pings and pongs in between, masks
      its frames, and however the network cuts the bytes, the server receives the original messages
      and pings, in order, and nothing else; the buffer ends empty. */
  lemma MessagesArrive(items: seq<Item>, chunks: seq<seq<Byte>>, isUtf8: seq<Byte> -> bool)
    requires ItemsLegal(items, isUtf8)
    requires Joined(chunks) == BytesOf(items, isUtf8)
    ensures FedAll(FRESH, chunks, isUtf8) == FRESH.(events := Expected(items))
  {
    ItemsSendable(items, isUtf8);
    hide Drained, Delivered, ParseFrame, Wire, FramesOf, AllSendable, ItemsLegal, Expected;
    NothingOnWire();
    ChunkingDoesNotMatter(FRESH, chunks, isUtf8);
    var c := FRESH.(buf := Joined(chunks));
    assert [] + Joined(chunks) == Joined(chunks);
    DrainDelivers(c, FramesOf(items), isUtf8);
    DeliverItems(FRESH, items, isUtf8);
    assert [] + Expected(items) == Expected(items);
  }

  // ---- In place ----

  /** Builds a masked client frame byte by byte. */
  method EncodeClientFrame(opcode: Opcode, fin: bool, payload: seq<Byte>, mask: seq<Byte>) returns (out: seq<Byte>)
    requires |mask| == 4 && |payload| < Pow2(63)
    ensures out == ClientFrame(opcode, fin, payload, mask)
  {
    hide Pow2, Xor, And, Or, ToBigEndian;
    out := [FirstByte(fin, opcode)];
    var len := |payload|;
    MaxFits();
    if len < 126 {
      out := out + [LengthByte(len, true)];
    } else if len <= 0xFFFF {
      out := out + [LengthByte(126, true)];
      out := out + ToBigEndian(len, 2);
    } else {
      out := out + [LengthByte(127, true)];
      out := out + ToBigEndian(len, 8);
    }
    out := out + mask;
    ghost var head := out;
    for i := 0 to len
      invariant out == head + Unmask(payload, mask)[..i]
    {
      out := out + [Masked(payload[i], mask[i % 4])];
    }
    assert Unmask(payload, mask)[..len] == Unmask(payload, mask);
    assert head == [FirstByte(fin, opcode)] + LengthBytes(len, true) + mask;
  }

  /** Bytes received and not yet consumed. */
  class ByteBuffer {
    var bytes: seq<Byte>

    constructor ()
      ensures bytes == []
    {
      bytes := [];
    }

    /** Takes the first frame off the buffer, if all of it is there. */
    method ParseClientFrame() returns (p: Parsed)
      modifies this
      ensures p == ParseFrame(old(bytes))
      ensures bytes == if p.Got? then old(bytes)[p.taken..] else old(bytes)
    {
      hide And, Pow2, FromBigEndian;
      if |bytes| < 2 { return NeedMore; }
      if ReservedSet(bytes[0]) { return Bad(ProtocolError(1002, "reserved bits set")); }
      var fin := TopSet(bytes[0]);
      var opcode := OpcodeOf(LowFour(bytes[0]));
      if opcode.None? { return Bad(ProtocolError(1002, "unknown opcode")); }
      if !TopSet(bytes[1]) { return Bad(ProtocolError(1002, "client frames must be masked")); }
      var at, len := 2, LowSeven(bytes[1]);
      if len == 126 {
        if |bytes| < at + 2 { return NeedMore; }
        len := FromBigEndian(bytes[2..4]);
        at := at + 2;
        if len < 126 { return Bad(ProtocolError(1002, "non-minimal length")); }
      } else if len == 127 {
        if |bytes| < at + 8 { return NeedMore; }
        len := FromBigEndian(bytes[2..10]);
        at := at + 8;
        if len >= Pow2(63) { return Bad(ProtocolError(1002, "length has the high bit set")); }
        if len <= 0xFFFF { return Bad(ProtocolError(1002, "non-minimal length")); }
      }
      if opcode.value.IsControl() {
        if !fin { return Bad(ProtocolError(1002, "fragmented control frame")); }
        if len > MAX_CONTROL { return Bad(ProtocolError(1002, "control frame too long")); }
      }
      if len > MAX_MESSAGE { return Bad(ProtocolError(1009, "message too big")); }
      if |bytes| < at + 4 + len { return NeedMore; }
      var mask := bytes[at..at + 4];
      at := at + 4;
      var payload := Unmask(bytes[at..at + len], mask);
      bytes := bytes[at + len..];
      p := Got(Frame(fin, opcode.value, payload), at + len);
    }
  }

  class Assembler {
    var partial: Option<seq<Byte>>

    constructor ()
      ensures partial == None
    {
      partial := None;
    }

    /** Feeds one frame. */
    method Push(f: Frame, isUtf8: seq<Byte> -> bool) returns (out: Pushed)
      modifies this
      ensures (partial, out) == Assembled(old(partial), f, isUtf8)
    {
      hide FromBigEndian;
      match f.opcode {
        case Ping => return Accepted(PingReceived(f.payload));
        case Pong => return Accepted(Nothing);
        case Close =>
          if |f.payload| == 0 { return Accepted(CloseReceived(1000)); }
          if |f.payload| == 1 { return Refused(ProtocolError(1002, "bad close payload")); }
          var code := FromBigEndian(f.payload[..2]);
          if !isUtf8(f.payload[2..]) { return Refused(ProtocolError(1007, "close reason is not UTF-8")); }
          if !CloseCodeValid(code) { return Refused(ProtocolError(1002, "invalid close code")); }
          return Accepted(CloseReceived(code));
        case Binary => return Refused(ProtocolError(1003, "binary messages are not supported"));
        case Text =>
          if partial.Some? { return Refused(ProtocolError(1002, "new message before the previous ended")); }
          if f.fin { return Finished(f.payload, isUtf8); }
          partial := Some(f.payload);
          return Accepted(Nothing);
        case Continuation =>
          if partial.None? { return Refused(ProtocolError(1002, "continuation without a message")); }
          var buf := partial.value;
          partial := None;
          if |buf| + |f.payload| > MAX_MESSAGE { return Refused(ProtocolError(1009, "message too big")); }
          buf := buf + f.payload;
          if f.fin { return Finished(buf, isUtf8); }
          partial := Some(buf);
          return Accepted(Nothing);
      }
    }
  }

  /** One turn of the receive loop: takes in a read's bytes, then whole frames until none is left
      or the connection ends. */
  method Receive(buf: ByteBuffer, assembler: Assembler, chunk: seq<Byte>, isUtf8: seq<Byte> -> bool)
    returns (events: seq<Event>, ended: Option<End>)
    modifies buf, assembler
    ensures Connection(buf.bytes, assembler.partial, events, ended)
            == Fed(Connection(old(buf.bytes), old(assembler.partial), [], None), chunk, isUtf8)
  {
    hide ParseFrame, Assembled;
    buf.bytes := buf.bytes + chunk;
    events, ended := [], None;
    ghost var start := Connection(buf.bytes, assembler.partial, [], None);
    while true
      invariant ended == None
      invariant Drained(Connection(buf.bytes, assembler.partial, events, None), isUtf8) == Drained(start, isUtf8)
      decreases |buf.bytes|
    {
      var parsed := buf.ParseClientFrame();
      if parsed.NeedMore? { return; }
      if parsed.Bad? {
        ended := Some(Protocol(parsed.error.code));
        return;
      }
      var out := assembler.Push(parsed.frame, isUtf8);
      if out.Refused? {
        ended := Some(Protocol(out.error.code));
        return;
      }
      if out.event.CloseReceived? {
        events := events + [out.event];
        ended := Some(Closed(out.event.code));
        return;
      }
      if !out.event.Nothing? { events := events + [out.event]; }
    }
  }
}
