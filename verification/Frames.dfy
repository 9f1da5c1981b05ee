/** WebSocket frames as the agent writes and reads them, against a decoder written from sections 5.2 and
    5.3 of RFC 6455. */
module Frames {
  import opened Wrappers

  type Byte = b: int | 0 <= b < 256

  // ----- bytes ----------------------------------------------------------------------------------------------------

  /** The lowest `bits` bits of the exclusive or. */
  function XorBits(a: nat, b: nat, bits: nat): nat {
    if bits == 0 then 0 else 2 * XorBits(a / 2, b / 2, bits - 1) + (a + b) % 2
  }

  function PowerOfTwo(bits: nat): nat { if bits == 0 then 1 else 2 * PowerOfTwo(bits - 1) }

  lemma {:induction false} XorFits(a: nat, b: nat, bits: nat)
    ensures XorBits(a, b, bits) < PowerOfTwo(bits)
  {
    if bits > 0 { XorFits(a / 2, b / 2, bits - 1); }
  }

  lemma {:induction false} XorTwice(a: nat, b: nat, bits: nat)
    requires a < PowerOfTwo(bits)
    ensures XorBits(XorBits(a, b, bits), b, bits) == a
  {
    if bits > 0 {
      XorTwice(a / 2, b / 2, bits - 1);
      LowestBit(a, b, XorBits(a / 2, b / 2, bits - 1));
    }
  }

  lemma LowestBit(a: nat, b: nat, x: nat)
    ensures (2 * x + (a + b) % 2) / 2 == x && (2 * x + (a + b) % 2 + b) % 2 == a % 2
  {
  }

  function Xor(a: Byte, b: Byte): Byte {
    XorFits(a, b, 8);
    assert PowerOfTwo(8) == 256;
    XorBits(a, b, 8)
  }

  lemma XorUndoes(a: Byte, b: Byte)
    ensures Xor(Xor(a, b), b) == a
  {
    assert PowerOfTwo(8) == 256;
    XorTwice(a, b, 8);
  }

  /** Bit `i` of a number. */
  predicate Bit(n: nat, i: nat)
    decreases i
  {
    if i == 0 then n % 2 == 1 else Bit(n / 2, i - 1)
  }

  lemma {:induction false} XorBitsAt(a: nat, b: nat, bits: nat, i: nat)
    requires i < bits
    ensures Bit(XorBits(a, b, bits), i) <==> Bit(a, i) != Bit(b, i)
    decreases i
  {
    var x := XorBits(a / 2, b / 2, bits - 1);
    OneOrNone(a, b, x);
    if i > 0 { XorBitsAt(a / 2, b / 2, bits - 1, i - 1); }
  }

  lemma OneOrNone(a: nat, b: nat, x: nat)
    ensures (2 * x + (a + b) % 2) / 2 == x
    ensures (2 * x + (a + b) % 2) % 2 == 1 <==> (a % 2 == 1) != (b % 2 == 1)
  {
  }

  /** The exclusive or of two bytes: each bit is set exactly where the two differ. */
  lemma XorIsExclusiveOr(a: Byte, b: Byte, i: nat)
    requires i < 8
    ensures Bit(Xor(a, b), i) <==> Bit(a, i) != Bit(b, i)
  {
    XorBitsAt(a, b, 8, i);
  }

  /** `0x80 | b` */
  function WithTopBit(b: Byte): Byte { if b >= 128 then b else b + 128 }

  /** `n.to_bytes(k, "big")` for an `n` that fits. */
  function BigEndian(n: nat, k: nat): (r: seq<Byte>)
    ensures |r| == k
  {
    if k == 0 then [] else BigEndian(n / 256, k - 1) + [n % 256]
  }

  function FromBigEndian(s: seq<Byte>): nat {
    if s == [] then 0 else 256 * FromBigEndian(s[..|s| - 1]) + s[|s| - 1]
  }

  function Power256(k: nat): nat { if k == 0 then 1 else 256 * Power256(k - 1) }

  lemma {:induction false} BigEndianReadsBack(n: nat, k: nat)
    requires n < Power256(k)
    ensures FromBigEndian(BigEndian(n, k)) == n
  {
    if k > 0 {
      BigEndianReadsBack(n / 256, k - 1);
      assert BigEndian(n, k)[..k - 1] == BigEndian(n / 256, k - 1);
    }
  }

  // ----- the decoder of RFC 6455 ------------------------------------------------------------------------------------

  datatype Frame = Frame(fin: bool, reserved: nat, opcode: nat, masked: bool, payload: seq<Byte>)

  /** How many bytes of extended length follow. */
  function ExtendedSize(len7: nat): nat { if len7 == 126 then 2 else if len7 == 127 then 8 else 0 }

  const MAX_LENGTH := 0x8000_0000_0000_0000

  /** Section 5.2: the shortest form must be used, and the top bit of the 64-bit form must be 0. */
  predicate LengthAllowed(len7: nat, length: nat) {
    (len7 == 126 ==> length >= 126) && (len7 == 127 ==> 0x1_0000 <= length < MAX_LENGTH)
  }

  /** Section 5.3: octet `i` of the payload is masked with octet `i % 4` of the key. */
  function Unmask(data: seq<Byte>, key: seq<Byte>): seq<Byte>
    requires |key| == 4
  {
    seq(|data|, i requires 0 <= i < |data| => Xor(data[i], key[i % 4]))
  }

  /** Section 5.2: the first frame of a stream, and what follows it. */
  function Decode(s: seq<Byte>): Option<(Frame, seq<Byte>)> {
    if |s| < 2 then None
    else
      var len7 := s[1] % 128;
      var start := 2 + ExtendedSize(len7);
      if |s| < start then None
      else
        var length := if start == 2 then len7 else FromBigEndian(s[2..start]);
        var masked := s[1] >= 128;
        var body := start + (if masked then 4 else 0);
        if !LengthAllowed(len7, length) || |s| < body + length then None
        else
          var data := s[body..body + length];
          Some((Frame(s[0] >= 128, (s[0] / 16) % 8, s[0] % 16, masked,
                      if masked then Unmask(data, s[start..start + 4]) else data),
                s[body + length..]))
  }

  // ----- the writer --------------------------------------------------------------------------------------------------

  function Header(opcode: nat, length: nat): seq<Byte>
    requires opcode < 16
  {
    [WithTopBit(opcode)]
    + (if length < 126 then [WithTopBit(length)]
       else if length <= 0xFFFF then [WithTopBit(126)] + BigEndian(length, 2)
       else [WithTopBit(127)] + BigEndian(length, 8))
  }

  /** `_write_frame`; a length of 2^64 or more raises. */
  method WriteFrame(opcode: nat, payload: seq<Byte>, mask: seq<Byte>) returns (out: seq<Byte>)
    requires opcode < 16 && |mask| == 4 && |payload| < 2 * MAX_LENGTH
    ensures out == Header(opcode, |payload|) + mask + Unmask(payload, mask)
  {
    var length := |payload|;
    var header: seq<Byte> := [WithTopBit(opcode)];
    if length < 126 {
      header := header + [WithTopBit(length)];
    } else if length <= 0xFFFF {
      header := header + [WithTopBit(126), (length / 256) % 256, length % 256];
      assert BigEndian(length, 2) == BigEndian(length / 256, 1) + [length % 256];
      assert BigEndian(length / 256, 1) == [] + [length / 256 % 256];
    } else {
      header := header + [WithTopBit(127)];
      header := header + BigEndian(length, 8);
    }
    var masked: seq<Byte> := [];
    for index := 0 to length
      invariant masked == Unmask(payload, mask)[..index]
    {
      masked := masked + [Xor(payload[index], mask[index % 4])];
    }
    out := header + mask + masked;
  }

  function Octet(s: seq<Byte>, i: nat): nat
    requires i < |s|
  {
    s[i]
  }

  /** How many bytes the header has: two, and none, two or eight more for the length. */
  function HeaderSize(length: nat): nat { if length < 126 then 2 else if length <= 0xFFFF then 4 else 10 }

  /** The octets of a written frame: FIN and the opcode; the mask bit and the length in its shortest form, highest
      octet first; the key; and the payload, whose octet `i` has bit `j` inverted exactly where octet `i % 4` of
      the key has it set. */
  lemma WrittenOctets(opcode: nat, payload: seq<Byte>, mask: seq<Byte>)
    requires opcode < 16 && |mask| == 4 && |payload| < 2 * MAX_LENGTH
    ensures var out := Header(opcode, |payload|) + mask + Unmask(payload, mask);
            var n, h := |payload|, HeaderSize(|payload|);
            && |out| == h + 4 + n && out[0] == 0x80 + opcode
            && out[1] == 0x80 + (if n < 126 then n else if n <= 0xFFFF then 126 else 127)
            && (h == 4 ==> n == 0x100 * Octet(out, 2) + Octet(out, 3)) && (h == 10 ==> n == Weighed(out[2..10]))
            && out[h..h + 4] == mask
            && forall i, j | 0 <= i < n && 0 <= j < 8 ::
                 Bit(out[h + 4 + i], j) <==> Bit(payload[i], j) != Bit(mask[i % 4], j)
  {
    var n, h := |payload|, HeaderSize(|payload|);
    var out := Header(opcode, n) + mask + Unmask(payload, mask);
    HeaderDecodes(opcode, n, mask + Unmask(payload, mask));
    HeaderStands(opcode, n, mask, Unmask(payload, mask), []);
    assert out + [] == out;
    assert out[h..h + 4] == mask;
    LengthOctets(opcode, n, out);
    forall i, j | 0 <= i < n && 0 <= j < 8
      ensures Bit(out[h + 4 + i], j) <==> Bit(payload[i], j) != Bit(mask[i % 4], j)
    {
      XorIsExclusiveOr(payload[i], mask[i % 4], j);
    }
  }

  lemma LengthOctets(opcode: nat, n: nat, out: seq<Byte>)
    requires opcode < 16 && n < 2 * MAX_LENGTH && Header(opcode, n) <= out
    ensures HeaderSize(n) == 4 ==> n == 0x100 * Octet(out, 2) + Octet(out, 3)
    ensures HeaderSize(n) == 10 ==> n == Weighed(out[2..10])
  {
    if 126 <= n <= 0xFFFF {
      TwoOctets(n);
    } else if n > 0xFFFF {
      EightOctets(n);
      assert out[2..10] == Header(opcode, n)[2..10] == BigEndian(n, 8);
    }
  }

  lemma TwoOctets(n: nat)
    requires n <= 0xFFFF
    ensures var s := BigEndian(n, 2); n == 0x100 * Octet(s, 0) + Octet(s, 1)
  {
    assert BigEndian(n, 2) == BigEndian(n / 256, 1) + [n % 256];
    assert BigEndian(n / 256, 1) == [] + [n / 256 % 256];
  }

  /** The number that eight octets are, highest first. */
  function Weighed(s: seq<Byte>): nat
    requires |s| == 8
  {
    0x100_0000_0000_0000 * Octet(s, 0) + 0x1_0000_0000_0000 * Octet(s, 1) + 0x100_0000_0000 * Octet(s, 2)
    + 0x1_0000_0000 * Octet(s, 3) + 0x100_0000 * Octet(s, 4) + 0x1_0000 * Octet(s, 5) + 0x100 * Octet(s, 6)
    + Octet(s, 7)
  }

  lemma EightOctets(n: nat)
    requires n < 2 * MAX_LENGTH
    ensures n == Weighed(BigEndian(n, 8))
  {
    EightBytes();
    BigEndianReadsBack(n, 8);
    ReadsWeighed(BigEndian(n, 8));
  }

  lemma ReadsWeighed(s: seq<Byte>)
    requires |s| == 8
    ensures FromBigEndian(s) == Weighed(s)
  {
    ReadsFour(s[..4]);
    assert s[..5][..4] == s[..4] && s[..6][..5] == s[..5] && s[..7][..6] == s[..6] && s[..8][..7] == s[..7];
    assert s[..8] == s;
    assert FromBigEndian(s[..5]) == 256 * FromBigEndian(s[..4]) + s[4];
    assert FromBigEndian(s[..6]) == 256 * FromBigEndian(s[..5]) + s[5];
    assert FromBigEndian(s[..7]) == 256 * FromBigEndian(s[..6]) + s[6];
  }

  lemma ReadsFour(s: seq<Byte>)
    requires |s| == 4
    ensures FromBigEndian(s) == 0x100_0000 * Octet(s, 0) + 0x1_0000 * Octet(s, 1) + 0x100 * Octet(s, 2) + Octet(s, 3)
  {
    assert s[..2][..1] == s[..1] && s[..3][..2] == s[..2] && s[..1][..0] == [] && s[..4] == s;
    assert FromBigEndian(s[..1]) == s[0];
    assert FromBigEndian(s[..2]) == 256 * Octet(s, 0) + Octet(s, 1);
    assert FromBigEndian(s[..3]) == 256 * (256 * Octet(s, 0) + Octet(s, 1)) + Octet(s, 2);
  }

  lemma UnmaskTwice(data: seq<Byte>, key: seq<Byte>)
    requires |key| == 4
    ensures Unmask(Unmask(data, key), key) == data
  {
    forall i | 0 <= i < |data| ensures Unmask(Unmask(data, key), key)[i] == data[i] { XorUndoes(data[i], key[i % 4]); }
  }

  /** What a decoder makes of the header. */
  lemma HeaderDecodes(opcode: nat, length: nat, rest: seq<Byte>)
    requires opcode < 16 && length < 2 * MAX_LENGTH
    ensures var s := Header(opcode, length) + rest;
            var len7 := s[1] % 128;
            var start := 2 + ExtendedSize(len7);
            && s[0] == 128 + opcode && s[1] >= 128 && |Header(opcode, length)| == start
            && length == (if start == 2 then len7 else FromBigEndian(s[2..start]))
            && (LengthAllowed(len7, length) <==> length < MAX_LENGTH)
            && s[start..] == rest
  {
    var s := Header(opcode, length) + rest;
    if 126 <= length <= 0xFFFF {
      assert Power256(2) == 65536;
      BigEndianReadsBack(length, 2);
      assert s[2..4] == BigEndian(length, 2);
    } else if length > 0xFFFF {
      EightBytes();
      BigEndianReadsBack(length, 8);
      assert s[2..10] == BigEndian(length, 8);
    }
  }

  lemma EightBytes()
    ensures Power256(8) == 2 * MAX_LENGTH
  {
    assert Power256(4) == 0x1_0000_0000;
    assert Power256(8) == 256 * (256 * (256 * (256 * Power256(4))));
  }

  lemma HeaderStands(opcode: nat, length: nat, mask: seq<Byte>, data: seq<Byte>, rest: seq<Byte>)
    requires opcode < 16
    ensures Header(opcode, length) + mask + data + rest == Header(opcode, length) + (mask + data + rest)
  {
  }

  /** Any decoder of the standard recovers from a written frame its opcode and payload, as one final masked
      frame in the shortest form, and leaves what follows untouched; exactly while the length stays below 2^63. */
  lemma FrameRoundTrip(opcode: nat, payload: seq<Byte>, mask: seq<Byte>, rest: seq<Byte>)
    requires opcode < 16 && |mask| == 4 && |payload| < 2 * MAX_LENGTH
    ensures var stream := Header(opcode, |payload|) + mask + Unmask(payload, mask) + rest;
            Decode(stream) == if |payload| < MAX_LENGTH then Some((Frame(true, 0, opcode, true, payload), rest))
                else None
  {
    var data := Unmask(payload, mask);
    HeaderDecodes(opcode, |payload|, mask + data + rest);
    HeaderStands(opcode, |payload|, mask, data, rest);
    UnmaskTwice(payload, mask);
    MaskedDecodes(Header(opcode, |payload|) + (mask + data + rest), mask, data, rest);
  }

  /** A masked frame whose header announces exactly `data`. */
  lemma MaskedDecodes(s: seq<Byte>, mask: seq<Byte>, data: seq<Byte>, rest: seq<Byte>)
    requires |mask| == 4 && |s| >= 2 && s[1] >= 128
    requires var start := 2 + ExtendedSize(s[1] % 128);
             && |s| >= start && s[start..] == mask + data + rest
             && |data| == if start == 2 then s[1] % 128 else FromBigEndian(s[2..start])
    ensures Decode(s) == if LengthAllowed(s[1] % 128, |data|)
                         then Some((Frame(s[0] >= 128, (s[0] / 16) % 8, s[0] % 16, true, Unmask(data, mask)), rest))
                         else None
  {
    var start := 2 + ExtendedSize(s[1] % 128);
    ThreeParts(mask, data, rest);
    assert s[start..start + 4] == s[start..][..4];
    assert s[start + 4..start + 4 + |data|] == s[start..][4..4 + |data|];
    assert s[start + 4 + |data|..] == s[start..][4 + |data|..];
  }

  lemma ThreeParts(a: seq<Byte>, b: seq<Byte>, c: seq<Byte>)
    ensures (a + b + c)[..|a|] == a && (a + b + c)[|a|..|a| + |b|] == b && (a + b + c)[|a| + |b|..] == c
  {
  }

  // ----- the reader --------------------------------------------------------------------------------------------------

  datatype ReadResult = Text(payload: seq<Byte>) | NotText | EndOfStream

  /** `_read_text_frame`: of a frame the portal sent unmasked it takes exactly that frame's bytes, whatever
      the length class, and gives the payload of a text frame. */
  method ReadTextFrame(stream: seq<Byte>) returns (result: ReadResult, rest: seq<Byte>)
    ensures var d := Decode(stream);
            d.Some? && !d.value.0.masked ==>
              rest == d.value.1 && result == if d.value.0.opcode == 1 then Text(d.value.0.payload) else NotText
    ensures result != EndOfStream ==> |rest| < |stream| && rest == stream[|stream| - |rest|..]
    ensures result == EndOfStream ==> Decode(stream).None? || Decode(stream).value.0.masked
  {
    if |stream| < 2 { return EndOfStream, []; }
    var firstTwo := stream[..2];
    rest := stream[2..];
    var opcode := firstTwo[0] % 16;
    var length: nat := firstTwo[1] % 128;
    if length == 126 {
      if |rest| < 2 { return EndOfStream, []; }
      length := FromBigEndian(rest[..2]);
      assert rest[..2] == stream[2..4];
      rest := rest[2..];
    } else if length == 127 {
      if |rest| < 8 { return EndOfStream, []; }
      length := FromBigEndian(rest[..8]);
      assert rest[..8] == stream[2..10];
      rest := rest[8..];
    }
    if |rest| < length { return EndOfStream, []; }
    var payload := rest[..length];
    rest := rest[length..];
    result := if opcode != 1 then NotText else Text(payload);
  }
}
