/**
 The bit-serial CRC-32 of cursor payloads (reflected polynomial 0xEDB88320, section 8 of
 RFC 1952).  A 32-bit register is its bits, least significant first.
 */
module Checksum {
  import opened Common

  type Word = s: seq<bool> | |s| == 32 witness Zeros(32)

  function Zeros(n: nat): (r: seq<bool>)
    ensures |r| == n && forall i :: 0 <= i < n ==> !r[i]
  {
    if n == 0 then [] else Zeros(n - 1) + [false]
  }

  const ZERO: Word := Zeros(32)

  const ONES: Word := Not(ZERO)

  /** The set bits of 0xEDB88320. */
  function Polynomial(): Word {
    seq(32, i => i in {5, 8, 9, 15, 19, 20, 21, 23, 24, 26, 27, 29, 30, 31})
  }

  /** The number a register holds. */
  function Value(bits: seq<bool>): nat {
    if bits == [] then 0 else (if bits[0] then 1 else 0) + 2 * Value(bits[1..])
  }

  function Weight(bit: bool, weight: nat): nat { if bit then weight else 0 }

  lemma ValueOfFour(bits: seq<bool>)
    requires |bits| >= 4
    ensures Value(bits) == Weight(bits[0], 1) + Weight(bits[1], 2) + Weight(bits[2], 4) + Weight(bits[3], 8) + 16 * Value(bits[4..])
  {
    assert bits[1..][1..] == bits[2..] && bits[2..][1..] == bits[3..] && bits[3..][1..] == bits[4..];
    assert Value(bits[1..]) == Weight(bits[1], 1) + 2 * Value(bits[2..]);
    assert Value(bits[2..]) == Weight(bits[2], 1) + 2 * Value(bits[3..]);
    assert Value(bits[3..]) == Weight(bits[3], 1) + 2 * Value(bits[4..]);
  }

  /** One hexadecimal digit, given the digits above it. */
  lemma Digit(word: Word, k: nat, digit: nat, above: nat)
    requires k < 8 && Value(word[4 * k + 4..]) == above
    requires digit == Weight(word[4 * k], 1) + Weight(word[4 * k + 1], 2) + Weight(word[4 * k + 2], 4) + Weight(word[4 * k + 3], 8)
    ensures Value(word[4 * k..]) == digit + 16 * above
  {
    assert word[4 * k..][4..] == word[4 * k + 4..];
    ValueOfFour(word[4 * k..]);
  }

  /** The polynomial is the numeral of the source. */
  lemma PolynomialIs()
    ensures Value(Polynomial()) == 0xEDB88320
  {
    var p := Polynomial();
    assert p[32..] == [];
    Digit(p, 7, 0xE, 0);
    Digit(p, 6, 0xD, 0xE);
    Digit(p, 5, 0xB, 0xED);
    Digit(p, 4, 0x8, 0xEDB);
    Digit(p, 3, 0x8, 0xEDB8);
    Digit(p, 2, 0x3, 0xEDB88);
    Digit(p, 1, 0x2, 0xEDB883);
    Digit(p, 0, 0x0, 0xEDB8832);
    assert p[0..] == p;
  }

  function Not(a: Word): Word {
    seq(32, i requires 0 <= i < 32 => !a[i])
  }

  function Xor(a: Word, b: Word): Word {
    seq(32, i requires 0 <= i < 32 => a[i] != b[i])
  }

  function ShiftRight(a: Word): Word {
    a[1..] + [false]
  }

  lemma {:induction false} ValueOfPadded(bits: seq<bool>)
    ensures Value(bits + [false]) == Value(bits)
  {
    if bits == [] {
      assert ([false])[1..] == [];
    } else {
      ValueOfPadded(bits[1..]);
      assert (bits + [false])[1..] == bits[1..] + [false];
    }
  }

  /** The register shifts towards its least significant bit, which says whether it is odd. */
  lemma ShiftHalves(a: Word)
    ensures Value(ShiftRight(a)) == Value(a) / 2 && (a[0] <==> Value(a) % 2 == 1)
  {
    ValueOfPadded(a[1..]);
  }

  /** One bit: shift, and fold the polynomial in when the bit shifted out was set. */
  function Bit(crc: Word): Word {
    Xor(ShiftRight(crc), if crc[0] then Polynomial() else ZERO)
  }

  function Bits(crc: Word, count: nat): Word {
    if count == 0 then crc else Bit(Bits(crc, count - 1))
  }

  predicate ByteBit(b: bv8, k: nat)
    requires k < 8
  {
    match k
    case 0 => b & 1 != 0
    case 1 => b & 2 != 0
    case 2 => b & 4 != 0
    case 3 => b & 8 != 0
    case 4 => b & 16 != 0
    case 5 => b & 32 != 0
    case 6 => b & 64 != 0
    case _ => b & 128 != 0
  }

  function Widen(b: bv8): Word {
    seq(32, i requires 0 <= i < 32 => i < 8 && ByteBit(b, i))
  }

  lemma ByteValue(b: bv8)
    ensures b as nat == Weight(b & 1 != 0, 1) + Weight(b & 2 != 0, 2) + Weight(b & 4 != 0, 4) + Weight(b & 8 != 0, 8)
                        + 16 * (Weight(b & 16 != 0, 1) + Weight(b & 32 != 0, 2) + Weight(b & 64 != 0, 4) + Weight(b & 128 != 0, 8))
  {
  }

  lemma {:induction false} ValueOfNothing(bits: seq<bool>)
    requires forall i :: 0 <= i < |bits| ==> !bits[i]
    ensures Value(bits) == 0
  {
    if bits != [] {
      ValueOfNothing(bits[1..]);
    }
  }

  /** A byte is widened to its number. */
  lemma WidenIsByte(b: bv8)
    ensures Value(Widen(b)) == b as nat
  {
    var word := Widen(b);
    assert word[4..][4..] == word[8..];
    ValueOfFour(word);
    ValueOfFour(word[4..]);
    ValueOfNothing(word[8..]);
    ByteValue(b);
  }

  /** The register after the payload, from the register before it. */
  function Register(crc: Word, payload: Bytes): Word {
    if payload == [] then crc
    else Bits(Xor(Register(crc, payload[..|payload| - 1]), Widen(payload[|payload| - 1])), 8)
  }

  function Crc32(payload: Bytes): Word {
    Xor(Register(ONES, payload), ONES)
  }

  method Checksum32(payload: Bytes) returns (checksum: Word)
    ensures checksum == Crc32(payload)
  {
    var crc := ONES;
    for i := 0 to |payload|
      invariant crc == Register(ONES, payload[..i])
    {
      assert payload[..i + 1][..i] == payload[..i];
      ghost var mixed := Xor(crc, Widen(payload[i]));
      crc := Xor(crc, Widen(payload[i]));
      for bit := 0 to 8
        invariant crc == Bits(mixed, bit)
      {
        crc := Xor(ShiftRight(crc), if crc[0] then Polynomial() else ZERO);
      }
    }
    assert payload[..|payload|] == payload;
    checksum := Xor(crc, ONES);
  }

  // ----- the register is linear and every bit step is injective -----------------

  lemma BitLinear(x: Word, y: Word)
    ensures Bit(Xor(x, y)) == Xor(Bit(x), Bit(y))
  {
  }

  lemma {:induction false} BitsLinear(x: Word, y: Word, count: nat)
    ensures Bits(Xor(x, y), count) == Xor(Bits(x, count), Bits(y, count))
  {
    if count > 0 {
      BitsLinear(x, y, count - 1);
      BitLinear(Bits(x, count - 1), Bits(y, count - 1));
    }
  }

  predicate Clear(x: Word) {
    forall i :: 0 <= i < 32 ==> !x[i]
  }

  /** The top bit of the polynomial tells whether it was folded in, so no step loses information. */
  lemma BitInjective(x: Word)
    ensures Clear(Bit(x)) <==> Clear(x)
  {
    assert Polynomial()[31];
    assert Bit(x)[31] == x[0];
    if Clear(Bit(x)) {
      forall i | 0 <= i < 32
        ensures !x[i]
      {
        assert i > 0 ==> ShiftRight(x)[i - 1] == x[i];
        assert i > 0 ==> !Bit(x)[i - 1];
      }
    }
  }

  lemma {:induction false} BitsInjective(x: Word, count: nat)
    ensures Clear(Bits(x, count)) <==> Clear(x)
  {
    if count > 0 {
      BitsInjective(x, count - 1);
      BitInjective(Bits(x, count - 1));
    }
  }

  /** Steps that meet only clear low bits just shift. */
  lemma {:induction false} ClearBitsShift(v: Word, count: nat)
    requires count <= 32 && forall i :: 0 <= i < count ==> !v[i]
    ensures forall i :: 0 <= i < 32 ==> Bits(v, count)[i] == (i + count < 32 && v[i + count])
  {
    if count > 0 {
      ClearBitsShift(v, count - 1);
    }
  }

  // ----- a short burst always changes the checksum --------------------------------

  /** Bit `k` of the difference of two payloads at byte `j`, clear past their end. */
  predicate DeltaBit(p: Bytes, q: Bytes, j: nat, k: nat)
    requires |p| == |q| && k < 8
  {
    j < |p| && ByteBit(p[j], k) != ByteBit(q[j], k)
  }

  function Delta(p: Bytes, q: Bytes, j: nat): Word
    requires |p| == |q|
  {
    seq(32, i requires 0 <= i < 32 => i < 8 && DeltaBit(p, q, j, i))
  }

  /** The next four byte differences, laid out as the register will meet them. */
  function Burst(p: Bytes, q: Bytes, j: nat): Word
    requires |p| == |q|
  {
    seq(32, i requires 0 <= i < 32 => DeltaBit(p, q, j + i / 8, i % 8))
  }

  lemma BytesDiffer(x: bv8, y: bv8)
    requires forall k :: 0 <= k < 8 ==> ByteBit(x, k) == ByteBit(y, k)
    ensures x == y
  {
    assert ByteBit(x, 0) == ByteBit(y, 0) && ByteBit(x, 1) == ByteBit(y, 1);
    assert ByteBit(x, 2) == ByteBit(y, 2) && ByteBit(x, 3) == ByteBit(y, 3);
    assert ByteBit(x, 4) == ByteBit(y, 4) && ByteBit(x, 5) == ByteBit(y, 5);
    assert ByteBit(x, 6) == ByteBit(y, 6) && ByteBit(x, 7) == ByteBit(y, 7);
  }

  function Difference(p: Bytes, q: Bytes, i: nat): Word
    requires i <= |p| == |q|
  {
    Xor(Register(ONES, p[..i]), Register(ONES, q[..i]))
  }

  ghost predicate DifferOnlyIn(p: Bytes, q: Bytes, start: nat)
    requires |p| == |q|
  {
    forall i :: 0 <= i < |p| && !(start <= i < start + 4) ==> p[i] == q[i]
  }

  predicate SameAt(p: Bytes, q: Bytes, j: nat)
    requires |p| == |q|
  {
    j < |p| ==> p[j] == q[j]
  }

  /** One more byte acts on the difference of the two registers alone. */
  lemma DifferenceStep(p: Bytes, q: Bytes, i: nat)
    requires i < |p| == |q|
    ensures Difference(p, q, i + 1) == Bits(Xor(Difference(p, q, i), Delta(p, q, i)), 8)
  {
    assert p[..i + 1][..i] == p[..i] && q[..i + 1][..i] == q[..i];
    var r, s := Register(ONES, p[..i]), Register(ONES, q[..i]);
    var x, y := Xor(r, Widen(p[i])), Xor(s, Widen(q[i]));
    assert Xor(x, y) == Xor(Difference(p, q, i), Delta(p, q, i));
    BitsLinear(x, y, 8);
  }

  lemma BurstBit(p: Bytes, q: Bytes, i: nat, k: nat)
    requires |p| == |q| && k < 32
    ensures k < 24 ==> Burst(p, q, i + 1)[k] == Burst(p, q, i)[k + 8]
    ensures k >= 24 && SameAt(p, q, i + 4) ==> !Burst(p, q, i + 1)[k]
  {
    assert (k + 8) / 8 == k / 8 + 1 && (k + 8) % 8 == k % 8;
    assert k >= 24 ==> k / 8 == 3;
  }

  /** Once its first byte has entered the register, the outstanding burst is the shifted one. */
  lemma BurstShifts(p: Bytes, q: Bytes, i: nat)
    requires |p| == |q| && SameAt(p, q, i + 4)
    ensures Bits(Xor(Burst(p, q, i), Delta(p, q, i)), 8) == Burst(p, q, i + 1)
  {
    var b, delta := Burst(p, q, i), Delta(p, q, i);
    var v := Xor(b, delta);
    forall k | 0 <= k < 8
      ensures !v[k]
    {
      assert k / 8 == 0 && k % 8 == k;
    }
    ClearBitsShift(v, 8);
    var shifted, next := Bits(v, 8), Burst(p, q, i + 1);
    forall k | 0 <= k < 32
      ensures shifted[k] == next[k]
    {
      BurstBit(p, q, i, k);
      if k < 24 {
        assert !delta[k + 8] && v[k + 8] == b[k + 8];
      }
    }
    assert shifted == next;
  }

  /** Register difference plus outstanding burst evolves by injective steps alone. */
  lemma BurstStep(p: Bytes, q: Bytes, i: nat)
    requires i < |p| == |q| && SameAt(p, q, i + 4)
    ensures Clear(Xor(Difference(p, q, i + 1), Burst(p, q, i + 1)))
            <==> Clear(Xor(Difference(p, q, i), Burst(p, q, i)))
  {
    var d, b, delta := Difference(p, q, i), Burst(p, q, i), Delta(p, q, i);
    DifferenceStep(p, q, i);
    BurstShifts(p, q, i);
    BitsLinear(Xor(d, delta), Xor(b, delta), 8);
    assert Xor(Xor(d, delta), Xor(b, delta)) == Xor(d, b);
    BitsInjective(Xor(d, b), 8);
  }

  lemma BurstNonZero(p: Bytes, q: Bytes, start: nat)
    requires |p| == |q| && p != q && DifferOnlyIn(p, q, start)
    ensures !Clear(Burst(p, q, start))
  {
    if Clear(Burst(p, q, start)) {
      forall i | 0 <= i < |p|
        ensures p[i] == q[i]
      {
        if start <= i < start + 4 {
          forall k | 0 <= k < 8
            ensures ByteBit(p[i], k) == ByteBit(q[i], k)
          {
            var at := 8 * (i - start) + k;
            assert at / 8 == i - start && at % 8 == k;
            assert !Burst(p, q, start)[at];
          }
          BytesDiffer(p[i], q[i]);
        }
      }
    }
  }

  /** Register difference and outstanding burst never cancel. */
  lemma {:induction false} BurstSurvives(p: Bytes, q: Bytes, start: nat, i: nat)
    requires |p| == |q| && p != q && DifferOnlyIn(p, q, start) && start <= i <= |p|
    ensures !Clear(Xor(Difference(p, q, i), Burst(p, q, i)))
    decreases i
  {
    if i == start {
      assert p[..i] == q[..i];
      BurstNonZero(p, q, start);
      assert Xor(Difference(p, q, i), Burst(p, q, i)) == Burst(p, q, i);
    } else {
      BurstSurvives(p, q, start, i - 1);
      BurstStep(p, q, i - 1);
    }
  }

  /**
   Two different payloads of one length, of any length, that differ only inside four
   consecutive bytes never share a checksum.
   */
  lemma ShortBurstDetected(p: Bytes, q: Bytes, start: nat)
    requires |p| == |q| && p != q && DifferOnlyIn(p, q, start)
    ensures Crc32(p) != Crc32(q)
  {
    var n := |p|;
    BurstSurvives(p, q, Min(start, n), n);
    assert p[..n] == p && q[..n] == q;
    NothingOutstanding(Register(ONES, p), Register(ONES, q), Burst(p, q, n));
  }

  /** With the whole burst inside, what is left is a difference of the registers. */
  lemma NothingOutstanding(r: Word, s: Word, burst: Word)
    requires Clear(burst) && !Clear(Xor(Xor(r, s), burst))
    ensures Xor(r, ONES) != Xor(s, ONES)
  {
    var i :| 0 <= i < 32 && Xor(Xor(r, s), burst)[i];
    assert Xor(r, ONES)[i] != Xor(s, ONES)[i];
  }
}
