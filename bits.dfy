/**
 * Bytes as the 1-Wire driver sees them: an 8-bit unsigned value that goes
 * onto the bus, and comes off it, one bit at a time, least-significant bit
 * first.
 *
 * `BitOf` and `FromBits` are the specification of the byte layer: the first
 * says which level a slot carries, the second which byte a sequence of
 * sampled levels stands for. Shifts by a variable amount are written as
 * repeated one-place shifts (`Shifted`, `Mask`); `ShiftedIsShift` and
 * `MaskIsShift` prove them equal to the C expressions `b >> i` and `1 << i`.
 */
module Bits {

  /** Number of bits in a byte (CHAR_BIT on the driver's target). */
  const ByteWidth: nat := 8

  /** `b` shifted right by `i` places, one place at a time. */
  function Shifted(b: bv8, i: nat): bv8
    requires i <= ByteWidth
  {
    if i == 0 then b else Shifted(b, i - 1) >> 1
  }

  /** The byte with only bit `i` set, built one place at a time. */
  function Mask(i: nat): bv8
    requires i < ByteWidth
  {
    if i == 0 then 1 else Mask(i - 1) << 1
  }

  /** Bit `i` of `b`, counted from the least-significant end. */
  function BitOf(b: bv8, i: nat): bool
    requires i < ByteWidth
  {
    (Shifted(b, i) & 1) == 1
  }

  /** The eight bits of `b` in the order they travel on the bus: bit 0 first. */
  function BitsOf(b: bv8): (bits: seq<bool>)
    ensures |bits| == ByteWidth
  {
    seq(ByteWidth, i requires 0 <= i < ByteWidth => BitOf(b, i))
  }

  /**
   * The byte whose low `|bits|` bits are `bits`, first element in bit 0, and
   * whose other bits are clear: what OR-ing `1 << i` into a cleared byte for
   * each set level `bits[i]` builds.
   */
  function FromBits(bits: seq<bool>): bv8
    requires |bits| <= ByteWidth
  {
    if bits == [] then 0
    else
      var n := |bits| - 1;
      FromBits(bits[..n]) | (if bits[n] then Mask(n) else 0)
  }

  /** One more level: the byte gains bit `i` exactly when level `i` is set. */
  lemma FromBitsPrefixStep(bits: seq<bool>, i: nat)
    requires i < |bits| <= ByteWidth
    ensures FromBits(bits[..i + 1]) == if bits[i] then FromBits(bits[..i]) | Mask(i) else FromBits(bits[..i])
  {
    assert bits[..i + 1][..i] == bits[..i];
  }

  /** `Shifted(b, i)` is the C expression `b >> i`. */
  lemma {:induction false} ShiftedIsShift(b: bv8, i: nat)
    requires i <= ByteWidth
    ensures Shifted(b, i) == b >> i
  {
    if i > 0 {
      ShiftedIsShift(b, i - 1);
      ShiftOnce(b, i - 1);
    }
  }

  /** One more place: shifting by `i` and then by one is shifting by `i + 1`. */
  lemma ShiftOnce(b: bv8, i: nat)
    requires i < ByteWidth
    ensures (b >> i) >> 1 == b >> (i + 1)
  {
    if i == 0 {
    } else if i == 1 {
    } else if i == 2 {
    } else if i == 3 {
    } else if i == 4 {
    } else if i == 5 {
    } else if i == 6 {
    } else {
    }
  }

  /** `Mask(i)` is the C expression `1 << i`. */
  lemma {:induction false} MaskIsShift(i: nat)
    requires i < ByteWidth
    ensures Mask(i) == (1 as bv8) << i
  {
    if i > 0 {
      MaskIsShift(i - 1);
    }
  }

  /** Setting bit `n` sets bit `n` and leaves every other bit as it was. */
  lemma BitOfOrMask(x: bv8, n: nat, i: nat)
    requires n < ByteWidth && i < ByteWidth
    ensures BitOf(x | Mask(n), i) == (BitOf(x, i) || i == n)
  {
    ShiftedIsShift(x | Mask(n), i);
    ShiftedIsShift(x, i);
    MaskIsShift(n);
    BitOfOrShift(x, n, i);
  }

  /** `BitOfOrMask` in terms of the C shift operators. */
  lemma BitOfOrShift(x: bv8, n: nat, i: nat)
    requires n < ByteWidth && i < ByteWidth
    ensures ((x | ((1 as bv8) << n)) >> i) & 1 == 1 <==> ((x >> i) & 1 == 1 || i == n)
  {
    if n == 0 {
    } else if n == 1 {
    } else if n == 2 {
    } else if n == 3 {
    } else if n == 4 {
    } else if n == 5 {
    } else if n == 6 {
    } else {
    }
  }

  /**
   * Bit `i` of the byte built from `bits` is level `i` when there is one,
   * and clear above the levels given.
   */
  lemma {:induction false} FromBitsBit(bits: seq<bool>, i: nat)
    requires |bits| <= ByteWidth && i < ByteWidth
    ensures BitOf(FromBits(bits), i) == (i < |bits| && bits[i])
  {
    if bits == [] {
      ShiftedIsShift(0, i);
    } else {
      var n := |bits| - 1;
      var x := FromBits(bits[..n]);
      FromBitsBit(bits[..n], i);
      if bits[n] {
        BitOfOrMask(x, n, i);
      } else {
        assert FromBits(bits) == x;
      }
    }
  }

  /** `FromBitsBit` for every bit at once. */
  lemma FromBitsBits(bits: seq<bool>)
    requires |bits| <= ByteWidth
    ensures forall i :: 0 <= i < ByteWidth ==> BitOf(FromBits(bits), i) == (i < |bits| && bits[i])
  {
    forall i | 0 <= i < ByteWidth ensures BitOf(FromBits(bits), i) == (i < |bits| && bits[i]) {
      FromBitsBit(bits, i);
    }
  }

  /** Two bytes that agree on every bit are the same byte. */
  lemma SameBits(x: bv8, y: bv8)
    requires forall i :: 0 <= i < ByteWidth ==> BitOf(x, i) == BitOf(y, i)
    ensures x == y
  {
    assert BitOf(x, 0) == BitOf(y, 0) && BitOf(x, 1) == BitOf(y, 1);
    assert BitOf(x, 2) == BitOf(y, 2) && BitOf(x, 3) == BitOf(y, 3);
    assert BitOf(x, 4) == BitOf(y, 4) && BitOf(x, 5) == BitOf(y, 5);
    assert BitOf(x, 6) == BitOf(y, 6) && BitOf(x, 7) == BitOf(y, 7);
  }

  /** Splitting a byte into its bits and reassembling them gives the byte back. */
  lemma FromBitsOfBits(b: bv8)
    ensures FromBits(BitsOf(b)) == b
  {
    var r := FromBits(BitsOf(b));
    FromBitsBits(BitsOf(b));
    SameBits(r, b);
  }

  /** Assembling eight levels into a byte and splitting it again gives the levels back. */
  lemma BitsOfFromBits(bits: seq<bool>)
    requires |bits| == ByteWidth
    ensures BitsOf(FromBits(bits)) == bits
  {
    FromBitsBits(bits);
  }
}
