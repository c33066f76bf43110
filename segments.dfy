/** The segment table and the pure arithmetic of the driver: the digit-to-pattern
    lookup, the decimal-point variant a digit is sent with, the clamp and the
    four-digit decimal split of a displayed number. */
module Segments {
  import opened Protocol

  /** Segment patterns of the digits 0 to 9; index 10 is the blank pattern.
      Bit i lights segment i; bit 7 lights the decimal point. */
  const Table: seq<bv8> := [0x3F, 0x06, 0x5B, 0x4F, 0x66, 0x6D, 0x7D, 0x07, 0x7F, 0x6F, 0x00]

  /** The index the driver passes to mean "blank". */
  const Blank: nat := 10

  const DecimalPoint: bv8 := 0x80

  /** A pattern with its decimal point lit. */
  function WithPoint(p: bv8): (r: bv8)
    ensures r & DecimalPoint == DecimalPoint
    ensures r & !DecimalPoint == p & !DecimalPoint
  {
    p | DecimalPoint
  }

  /** The ten digit patterns are pairwise distinct and none lights the decimal point;
      only the blank entry is all dark. */
  lemma TableFacts()
    ensures |Table| == 11 && Table[Blank] == 0
    ensures forall d :: 0 <= d < 10 ==> Table[d] != 0
    ensures forall d :: 0 <= d < |Table| ==> Table[d] & DecimalPoint == 0
    ensures forall d, e :: 0 <= d < e < 10 ==> Table[d] != Table[e]
  {
  }

  /** Reducing the blank index modulo 10, as the digit transmitter does with every
      digit it is given, selects the pattern of digit 0 and not the blank one. */
  lemma BlankReducesToZero()
    ensures Table[Blank % 10] == Table[0] == 0x3F
    ensures Table[Blank % 10] != Table[Blank]
  {
  }

  /** The bits the decimal-point transmitter puts on the wire for a pattern: the
      pattern's own bits, with the last one (bit 7) forced to one. */
  function DpBits(p: bv8): (r: seq<bool>)
    ensures |r| == 8
  {
    seq(8, i requires 0 <= i < 8 => DpBitOf(p, i))
  }

  /** Bit i as the decimal-point transmitter sends it. */
  function DpBitOf(p: bv8, i: nat): bool
    requires i < 8
  {
    BitOf(p, i) || i == 7
  }

  /** The decimal-point transmitter sends bits 0 to 6 of the plain pattern unchanged
      and a one for bit 7. For a pattern with bit 7 clear, as every table entry is,
      the eighth bit is the only one to differ from the plain transmission. */
  lemma DpBitsShape(p: bv8)
    ensures DpBits(p)[..7] == Bits(p)[..7] && DpBits(p)[7]
    ensures p & DecimalPoint == 0 ==> DpBits(p) == Bits(p)[..7] + [true] && DpBits(p) != Bits(p)
  {
    if p & DecimalPoint == 0 {
      assert !BitOf(p, 7);
    }
  }

  /** What the decimal-point transmitter sends is exactly the byte it stores. */
  lemma DpBitsAreStoredByte(p: bv8)
    ensures DpBits(p) == Bits(WithPoint(p))
  {
    forall i | 0 <= i < 8
      ensures DpBits(p)[i] == Bits(WithPoint(p))[i]
    {
      DpBit(p, i);
    }
  }

  lemma DpBit(p: bv8, i: nat)
    requires i < 8
    ensures BitOf(WithPoint(p), i) == DpBitOf(p, i)
  {
  }

  /** `v` forced into [lo, hi]: unchanged inside, the nearer bound outside. */
  function Clamp(v: int, lo: int, hi: int): (r: int)
    requires lo <= hi
    ensures lo <= r <= hi
    ensures lo <= v <= hi ==> r == v
    ensures v < lo ==> r == lo
    ensures v > hi ==> r == hi
  {
    if v < lo then lo else if v > hi then hi else v
  }

  const MaxShown: int := 9999

  /** Thousands, hundreds, tens and units digit of the clamped number. */
  function Digits(num: int): (r: seq<nat>)
    ensures |r| == 4
    ensures forall k :: 0 <= k < 4 ==> r[k] < 10
    ensures 1000 * r[0] + 100 * r[1] + 10 * r[2] + r[3] == Clamp(num, 0, MaxShown)
  {
    var m := Clamp(num, 0, MaxShown);
    DecimalSplit(m);
    [(m / 1000) % 10, (m / 100) % 10, (m / 10) % 10, m % 10]
  }

  lemma DecimalSplit(m: int)
    requires 0 <= m <= MaxShown
    ensures 1000 * ((m / 1000) % 10) + 100 * ((m / 100) % 10) + 10 * ((m / 10) % 10) + m % 10 == m
  {
    var q1, q2, q3 := m / 10, m / 100, m / 1000;
    assert q1 / 10 == q2 && q2 / 10 == q3 && q3 < 10;
    assert m == 10 * q1 + m % 10;
    assert q1 == 10 * q2 + q1 % 10;
    assert q2 == 10 * q3 + q2 % 10;
  }
}
