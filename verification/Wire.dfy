/** The wire format by the bits (sections 5.2 and 5.3 of RFC 6455): what a frame says. */
module WireFormats {
  import opened Numbers
  import opened Bits
  import opened WebSockets
  import opened StreamEnds

  /** Bit `k`, counting from the lowest. */
  predicate Bit(x: nat, k: nat)
    decreases k
  {
    if k == 0 then x % 2 == 1 else Bit(x / 2, k - 1)
  }

  lemma {:induction false} XorBits(a: nat, b: nat, k: nat)
    ensures Bit(Xor(a, b), k) <==> Bit(a, k) != Bit(b, k)
    decreases k
  {
    NoBits(k);
    if a != 0 && b != 0 && k > 0 { XorBits(a / 2, b / 2, k - 1); }
  }

  lemma {:induction false} NoBits(k: nat)
    ensures !Bit(0, k)
  {
    if k > 0 { NoBits(k - 1); }
  }

  /** The number the opcode field says. */
  function Number(opcode: Opcode): nat
  {
    match opcode
    case Continuation => 0
    case Text => 1
    case Binary => 2
    case Close => 8
    case Ping => 9
    case Pong => 10
  }

  /** Length fields have the most significant byte first. */
  lemma {:induction false} NetworkOrder(bytes: seq<Byte>)
    requires bytes != []
    ensures FromBigEndian(bytes) == bytes[0] * Pow2(8 * (|bytes| - 1)) + FromBigEndian(bytes[1..])
  {
    var n := |bytes|;
    if n == 1 {
      assert bytes[..0] == [] && bytes[1..] == [];
    } else {
      hide Pow2;
      var front := bytes[..n - 1];
      NetworkOrder(front);
      assert front[1..] == bytes[1..][..n - 2];
      SmallPower();
      Pow2Add(8 * (n - 2), 8);
      OneByteOn(bytes[0], Pow2(8 * (n - 2)), FromBigEndian(front[1..]));
    }
  }

  lemma OneByteOn(first: nat, power: nat, rest: nat)
    ensures 256 * (first * power + rest) == first * (power * 256) + 256 * rest
  {
  }

  /** A frame as sections 5.2 and 5.3 lay it out at the front of the bytes: the final bit, the opcode, the length, the
      mask, and the payload, of which every bit is flipped where the mask, over and over, has one. */
  ghost predicate Reads(buf: seq<Byte>, f: Frame, taken: nat)
  {
    && |buf| >= 2 && LengthAt(buf).Some?
    && (f.fin <==> buf[0] >= 128) && Number(f.opcode) == buf[0] % 16
    && |f.payload| == LengthAt(buf).value
    && var at := MaskAt(buf[1] % 128);
       && taken == at + 4 + |f.payload| <= |buf|
       && forall i, k :: 0 <= i < |f.payload| && 0 <= k < 8 ==>
            (Bit(f.payload[i], k) <==> Bit(buf[at + 4 + i], k) != Bit(buf[at + i % 4], k))
  }

  /** Where the mask begins: behind the length, in whichever of its three forms. */
  function MaskAt(low: nat): nat { if low == 126 then 4 else if low == 127 then 10 else 2 }

  lemma UnmaskedBits(payload: seq<Byte>, mask: seq<Byte>, i: nat, k: nat)
    requires |mask| == 4 && i < |payload|
    ensures Bit(Unmask(payload, mask)[i], k) <==> Bit(payload[i], k) != Bit(mask[i % 4], k)
  {
    XorBits(payload[i], mask[i % 4], k);
  }

  lemma FrameParts(buf: seq<Byte>)
    requires ParseFrame(buf).Got?
    ensures |buf| >= 2
    ensures var at, f := MaskAt(buf[1] % 128), ParseFrame(buf).frame;
            && LengthAt(buf).Some? && at + 4 + LengthAt(buf).value == ParseFrame(buf).taken
            && f.fin == (buf[0] >= 128) && OpcodeOf(buf[0] % 16) == Some(f.opcode)
            && f.payload == Unmask(buf[at + 4..ParseFrame(buf).taken], buf[at..at + 4])
  {
    hide FromBigEndian, Pow2, ReservedSet, TopSet, LowFour, LowSeven, Unmask, OpcodeOf;
    ByteParts(buf[0]);
    ByteParts(buf[1]);
  }

  /** Every frame the parser takes is what the bytes say. */
  lemma FrameRead(buf: seq<Byte>)
    requires ParseFrame(buf).Got?
    ensures Reads(buf, ParseFrame(buf).frame, ParseFrame(buf).taken)
  {
    hide ParseFrame, Unmask, LengthAt, Bit;
    FrameParts(buf);
    var f, taken, at := ParseFrame(buf).frame, ParseFrame(buf).taken, MaskAt(buf[1] % 128);
    var payload, mask := buf[at + 4..taken], buf[at..at + 4];
    forall i, k | 0 <= i < |f.payload| && 0 <= k < 8
      ensures Bit(f.payload[i], k) <==> Bit(buf[at + 4 + i], k) != Bit(buf[at + i % 4], k)
    {
      UnmaskedBits(payload, mask, i, k);
      assert payload[i] == buf[at + 4 + i] && mask[i % 4] == buf[at + i % 4];
    }
  }

  /** A frame the server writes: final, its opcode, its length in the shortest form, and the payload as it is. */
  lemma FrameWritten(opcode: Opcode, payload: seq<Byte>)
    requires |payload| < Pow2(63)
    ensures var bytes := ServerFrame(opcode, payload);
            && |bytes| >= 2 && bytes[0] == 128 + Number(opcode) && bytes[1] < 128
            && LengthAt(bytes) == Some(|payload|) && !BadLength(bytes[1], |payload|)
            && |bytes| == MaskAt(bytes[1]) + |payload| && bytes[|bytes| - |payload|..] == payload
  {
    hide Pow2, FromBigEndian, ToBigEndian, Or;
    var len, bytes := |payload|, ServerFrame(opcode, payload);
    var head := [FirstByte(true, opcode)] + LengthBytes(len, false);
    assert bytes == head + payload;
    MaxFits();
    PowersGrow(63, 64);
    if 126 <= len <= 0xFFFF {
      BigEndianBack(len, 2);
      assert bytes[2..4] == ToBigEndian(len, 2);
    } else if len > 0xFFFF {
      BigEndianBack(len, 8);
      assert bytes[2..10] == ToBigEndian(len, 8);
    }
  }
}
