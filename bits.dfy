/** Bytes and the bit operations the BD3491FS driver uses to pack them.
    `Or` and `And` are defined bit by bit on non-negative integers, as C
    applies `|` and `&` to an `int`; the decoders `Bit7` and `Low7` are
    plain arithmetic, so the lemmas below connect two independent
    descriptions of a byte. */
module Bits {

  /** One byte, as written to a one-byte register. */
  type byte = x: int | 0 <= x < 256

  /** The byte that a one-byte register keeps of a wider non-negative value:
      its low eight bits. */
  function LowByte(v: nat): (b: byte)
    ensures v < 256 ==> b == v
    ensures (v - b) % 256 == 0
  {
    v % 256
  }

  /** 2 to the power `k`: `1 << k`. */
  function Pow2(k: nat): (p: nat)
    ensures p >= 1
  {
    if k == 0 then 1 else 2 * Pow2(k - 1)
  }

  /** Bitwise OR, lowest bit first. It keeps every bit of either operand
      and never carries, so it lies between the larger operand and the sum. */
  function Or(a: nat, b: nat): (r: nat)
    ensures a <= r && b <= r
    ensures r <= a + b
  {
    if a == 0 then b
    else if b == 0 then a
    else 2 * Or(a / 2, b / 2) + (if a % 2 == 1 || b % 2 == 1 then 1 else 0)
  }

  /** Bitwise AND, lowest bit first. It only clears bits, so it never
      exceeds either operand. */
  function And(a: nat, b: nat): (r: nat)
    ensures r <= a && r <= b
  {
    if a == 0 || b == 0 then 0
    else 2 * And(a / 2, b / 2) + (if a % 2 == 1 && b % 2 == 1 then 1 else 0)
  }

  /** `flag ? (1 << 7) : 0`: bit 7 alone, or nothing. */
  function FlagByte(flag: bool): (b: byte)
    ensures b % 128 == 0
    ensures flag <==> b != 0
  {
    if flag then Pow2(7) else 0
  }

  /** Bit 7 of a byte, read arithmetically. */
  function Bit7(b: byte): bool {
    b >= 128
  }

  /** The low seven bits of a byte, read arithmetically. */
  function Low7(b: byte): (r: byte)
    ensures r < 128
  {
    b % 128
  }

  /** `v >> k`. */
  function Shr(v: nat, k: nat): nat {
    if k == 0 then v else Shr(v / 2, k - 1)
  }

  /** Masking with `(1 << k) - 1` keeps exactly the low `k` bits: what is
      left is below `1 << k`, and with the bits shifted out it makes up `v`. */
  lemma {:induction false} AndMask(v: nat, k: nat)
    ensures And(v, Pow2(k) - 1) < Pow2(k)
    ensures And(v, Pow2(k) - 1) + Pow2(k) * Shr(v, k) == v
  {
    if k > 0 {
      var p, m := Pow2(k - 1), Pow2(k) - 1;
      var low, high := And(v / 2, p - 1), Shr(v / 2, k - 1);
      AndMask(v / 2, k - 1);
      assert low < p && low + p * high == v / 2;
      assert m == 2 * (p - 1) + 1;
      if v > 0 {
        AndOddMask(v, p - 1);
      }
      assert And(v, m) == 2 * low + v % 2;
      assert Shr(v, k) == high;
      DoubleProduct(p, high);
    }
  }

  /** One step of `And` against a mask whose lowest bit is set. */
  lemma AndOddMask(v: nat, m: nat)
    requires v > 0
    ensures And(v, 2 * m + 1) == 2 * And(v / 2, m) + v % 2
  {}

  lemma DoubleProduct(p: nat, h: nat)
    ensures (2 * p) * h == 2 * (p * h)
  {}

  lemma Pow2Seven()
    ensures Pow2(7) == 128
  {}

  /** Masking with 0b01111111 keeps exactly the low seven bits. */
  lemma AndLow7(v: nat)
    ensures And(v, 0x7F) == v % 128
  {
    AndMask(v, 7);
    Pow2Seven();
    SplitRemainder(v, Shr(v, 7), And(v, Pow2(7) - 1));
  }

  /** A value split as `128 * high + low` with `low < 128` has remainder `low`. */
  lemma SplitRemainder(v: nat, high: nat, low: nat)
    requires low < 128 && v == 128 * high + low
    ensures v % 128 == low
  {}

  /** OR-ing `1 << k` into a value below it adds the bit. */
  lemma {:induction false} OrHighBit(k: nat, low: nat)
    requires low < Pow2(k)
    ensures Or(Pow2(k), low) == Pow2(k) + low
  {
    if k > 0 && low > 0 {
      assert Pow2(k) / 2 == Pow2(k - 1) && Pow2(k) % 2 == 0;
      OrHighBit(k - 1, low / 2);
    }
  }

  /** OR-ing a flag into bit 7 of a seven-bit value packs two independent
      fields: bit 7 reads back the flag and the low bits read back the value. */
  lemma PackFlag(flag: bool, low: byte)
    requires low < 128
    ensures Or(FlagByte(flag), low) == FlagByte(flag) + low
    ensures Bit7(FlagByte(flag) + low) == flag
    ensures Low7(FlagByte(flag) + low) == low
  {
    Pow2Seven();
    if flag {
      OrHighBit(7, low);
    }
  }
}
