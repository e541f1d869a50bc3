/** The operations of a C# `int` that the store's packing uses, written as explicit
    two's-complement arithmetic: a value is an integer in [-2^31, 2^31), its bit
    pattern the unsigned number congruent to it modulo 2^32. */
module TwosComplement {

  const MinInt32: int := -0x8000_0000
  const MaxInt32: int := 0x7fff_ffff

  predicate IsInt32(v: int) {
    MinInt32 <= v <= MaxInt32
  }

  /** The 32-bit pattern of an int32 value, read as an unsigned number. */
  function Pattern(v: int): (u: int)
    requires IsInt32(v)
    ensures 0 <= u < 0x1_0000_0000
    ensures v >= 0 ==> u == v
    ensures v < 0 ==> u == v + 0x1_0000_0000
  {
    if v >= 0 then v else v + 0x1_0000_0000
  }

  /** The int32 value whose pattern is `u`. */
  function FromPattern(u: int): (v: int)
    requires 0 <= u < 0x1_0000_0000
    ensures IsInt32(v) && Pattern(v) == u
  {
    if u <= MaxInt32 then u else u - 0x1_0000_0000
  }

  /** Bitwise or of the low `width` bits of two naturals. */
  function OrBits(a: nat, b: nat, width: nat): (r: nat)
    ensures r < Pow2(width)
  {
    if width == 0 then 0
    else (if a % 2 == 1 || b % 2 == 1 then 1 else 0) + 2 * OrBits(a / 2, b / 2, width - 1)
  }

  function Pow2(n: nat): (p: nat)
    ensures p >= 1
  {
    if n == 0 then 1 else 2 * Pow2(n - 1)
  }

  /** Or-ing in zero bits changes nothing. */
  lemma {:induction false} OrBitsZero(a: nat, width: nat)
    requires a < Pow2(width)
    ensures OrBits(a, 0, width) == a && OrBits(0, a, width) == a
  {
    if width > 0 {
      OrBitsZero(a / 2, width - 1);
    }
  }

  /** Or-ing with all ones gives all ones. */
  lemma {:induction false} OrBitsAllOnes(a: nat, width: nat)
    ensures OrBits(a, Pow2(width) - 1, width) == Pow2(width) - 1
  {
    if width > 0 {
      assert (Pow2(width) - 1) / 2 == Pow2(width - 1) - 1;
      OrBitsAllOnes(a / 2, width - 1);
    }
  }

  lemma Pow2Of16()
    ensures Pow2(16) == 0x1_0000
  {
    assert Pow2(4) == 16;
    assert Pow2(8) == 256 by {
      assert Pow2(8) == 16 * Pow2(4);
    }
    assert Pow2(16) == 256 * Pow2(8) by {
      assert Pow2(16) == 256 * Pow2(8);
    }
  }

  /** `a | b` on two int32 values: the upper and the lower halves of the patterns
      are or-ed separately. */
  function Or(a: int, b: int): (r: int)
    requires IsInt32(a) && IsInt32(b)
    ensures IsInt32(r)
  {
    var pa, pb := Pattern(a), Pattern(b);
    Pow2Of16();
    FromPattern(OrBits(pa / 0x1_0000, pb / 0x1_0000, 16) * 0x1_0000 + OrBits(pa % 0x1_0000, pb % 0x1_0000, 16))
  }

  /** `v << 16` on an int32: the pattern moves up 16 places and its upper half is lost. */
  function ShiftLeft16(v: int): (r: int)
    requires IsInt32(v)
    ensures IsInt32(r)
  {
    FromPattern((Pattern(v) * 0x1_0000) % 0x1_0000_0000)
  }

  /** `v >> 16` on an int32: the arithmetic shift, which rounds towards minus
      infinity (Dafny's `/` by a positive divisor does the same). */
  function ShiftRight16(v: int): (r: int)
    requires IsInt32(v)
    ensures IsInt32(r)
  {
    v / 0x1_0000
  }

  /** `v & 0xffff`: the low 16 bits of the pattern. */
  function Low16(v: int): (r: int)
    requires IsInt32(v)
    ensures 0 <= r < 0x1_0000
  {
    Pattern(v) % 0x1_0000
  }

  /** Two 16-bit fields placed side by side: the or of disjoint halves is their sum. */
  lemma {:induction false} OrOfDisjointHalves(hi: int, lo: int)
    requires 0 <= hi < 0x1_0000 && 0 <= lo < 0x1_0000
    ensures Or(ShiftLeft16(hi), lo) == FromPattern(hi * 0x1_0000 + lo)
  {
    Pow2Of16();
    var s := ShiftLeft16(hi);
    assert Pattern(hi) == hi;
    assert (hi * 0x1_0000) % 0x1_0000_0000 == hi * 0x1_0000;
    assert Pattern(s) == hi * 0x1_0000;
    assert (hi * 0x1_0000) / 0x1_0000 == hi && (hi * 0x1_0000) % 0x1_0000 == 0;
    assert Pattern(lo) / 0x1_0000 == 0 && Pattern(lo) % 0x1_0000 == lo;
    OrBitsZero(hi, 16);
    OrBitsZero(lo, 16);
  }

  /** Reading the two fields back from `FromPattern(hi * 2^16 + lo)`, also when
      `hi` sets the sign bit. */
  lemma {:induction false} FieldsOfPattern(hi: int, lo: int)
    requires 0 <= hi < 0x1_0000 && 0 <= lo < 0x1_0000
    ensures Low16(FromPattern(hi * 0x1_0000 + lo)) == lo
    ensures Low16(ShiftRight16(FromPattern(hi * 0x1_0000 + lo))) == hi
  {
    var u := hi * 0x1_0000 + lo;
    var v := FromPattern(u);
    if u <= MaxInt32 {
      assert v == u;
      assert v / 0x1_0000 == hi;
    } else {
      assert v == (hi - 0x1_0000) * 0x1_0000 + lo;
      assert v / 0x1_0000 == hi - 0x1_0000;
    }
  }

  /** A negative low field, sign-extended, covers the upper half: or-ing it over
      any shifted 16-bit field leaves the low field's own value. */
  lemma {:induction false} OrOverNegativeLow(hi: int, lo: int)
    requires 0 <= hi < 0x1_0000 && -0x1_0000 <= lo < 0
    ensures Or(ShiftLeft16(hi), lo) == lo
  {
    Pow2Of16();
    assert (hi * 0x1_0000) % 0x1_0000_0000 == hi * 0x1_0000;
    assert Pattern(ShiftLeft16(hi)) == hi * 0x1_0000;
    assert (hi * 0x1_0000) / 0x1_0000 == hi && (hi * 0x1_0000) % 0x1_0000 == 0;
    var pb := lo + 0x1_0000_0000;
    assert pb == 0xffff * 0x1_0000 + (lo + 0x1_0000);
    assert pb / 0x1_0000 == 0xffff && pb % 0x1_0000 == lo + 0x1_0000;
    OrBitsAllOnes(hi, 16);
    OrBitsZero(lo + 0x1_0000, 16);
  }

  /** The fields read back from a negative value above -2^16: its low half is the
      value plus 2^16, its high half all ones. */
  lemma FieldsOfNegativeLow(lo: int)
    requires -0x1_0000 <= lo < 0
    ensures Low16(lo) == lo + 0x1_0000
    ensures Low16(ShiftRight16(lo)) == 0xffff
  {
    assert lo / 0x1_0000 == -1;
    assert lo + 0x1_0000_0000 == 0xffff * 0x1_0000 + (lo + 0x1_0000);
  }
}
