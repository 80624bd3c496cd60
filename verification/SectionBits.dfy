/** The section bitmaps of the schedule tracker: 32 segments of 8 sections, one bit each. */
module SectionBits {
  const SEGMENTS: nat := 32
  const ALL: bv8 := 0xff

  type Bitmap = b: seq<bv8> | |b| == SEGMENTS witness seq(SEGMENTS, i => 0)

  /** Bit i of a segment byte, written `1 << i` in the source. */
  function Mask(i: nat): bv8
    requires i < 8
  {
    match i
    case 0 => 1
    case 1 => 2
    case 2 => 4
    case 3 => 8
    case 4 => 16
    case 5 => 32
    case 6 => 64
    case _ => 128
  }

  predicate Bit(x: bv8, i: nat)
    requires i < 8
  {
    x & Mask(i) != 0
  }

  lemma BitOr(x: bv8, y: bv8, i: nat)
    requires i < 8
    ensures Bit(x | y, i) == (Bit(x, i) || Bit(y, i))
  {
  }

  lemma BitNot(x: bv8, i: nat)
    requires i < 8
    ensures Bit(!x, i) == !Bit(x, i)
  {
  }

  /** A byte is full exactly when every one of its bits is set. */
  lemma FullByte(x: bv8)
    ensures x == ALL <==> forall i | 0 <= i < 8 :: Bit(x, i)
  {
    if forall i | 0 <= i < 8 :: Bit(x, i) {
      assert Bit(x, 0) && Bit(x, 1) && Bit(x, 2) && Bit(x, 3) && Bit(x, 4) && Bit(x, 5) && Bit(x, 6) && Bit(x, 7);
    }
  }

  /** Section n sits in segment n / 8. */
  predicate Has(b: Bitmap, n: nat)
    requires n < 256
  {
    Bit(b[n / 8], n % 8)
  }

  function SectionAt(segment: nat, position: nat): nat { segment * 8 + position }

  ghost function Members(b: Bitmap): set<nat> { set n: nat | n < 256 && Has(b, n) }

  predicate Within(n: nat, lo: nat, hi: nat) { lo <= n / 8 < hi }

  /** Every section of the segments from lo up to hi. */
  ghost function Segments(lo: nat, hi: nat): set<nat> { set n: nat | n < 256 && Within(n, lo, hi) }

  ghost function Everything(): set<nat> { Segments(0, SEGMENTS) }

  function Uniform(x: bv8): Bitmap { seq(SEGMENTS, i => x) }

  /** Segment i is covered when every one of its sections is in one of the two maps. */
  lemma SegmentCovered(f: Bitmap, g: Bitmap, i: nat)
    requires i < SEGMENTS
    ensures f[i] | g[i] == ALL <==> Segments(i, i + 1) <= Members(f) + Members(g)
  {
    var x := f[i] | g[i];
    FullByte(x);
    forall j | 0 <= j < 8
      ensures SectionAt(i, j) in Segments(i, i + 1) && Bit(x, j) == (SectionAt(i, j) in Members(f) + Members(g))
    {
      BitOr(f[i], g[i], j);
      assert SectionAt(i, j) / 8 == i && SectionAt(i, j) % 8 == j;
      assert Has(f, SectionAt(i, j)) == Bit(f[i], j) && Has(g, SectionAt(i, j)) == Bit(g[i], j);
    }
    forall n | n in Segments(i, i + 1) ensures n == SectionAt(i, n % 8) {}
    if forall j | 0 <= j < 8 :: Bit(x, j) {
      forall n | n in Segments(i, i + 1) ensures n in Members(f) + Members(g) { assert Bit(x, n % 8); }
    }
  }

  function WithSection(b: Bitmap, n: nat): Bitmap
    requires n < 256
  {
    b[n / 8 := b[n / 8] | Mask(n % 8)]
  }

  lemma HasWithSection(b: Bitmap, n: nat, m: nat)
    requires n < 256 && m < 256
    ensures Has(WithSection(b, n), m) == (Has(b, m) || m == n)
  {}

  lemma AbsorbedBit(x: bv8, i: nat)
    requires i < 8 && Bit(x, i)
    ensures x | Mask(i) == x
  {
  }

  /** Setting one bit adds one section, and changes the map exactly when it was absent. */
  lemma WithSectionMembers(b: Bitmap, n: nat)
    requires n < 256
    ensures Members(WithSection(b, n)) == Members(b) + {n}
    ensures WithSection(b, n) == b <==> n in Members(b)
  {
    forall m: nat | m < 256 ensures Has(WithSection(b, n), m) == (Has(b, m) || m == n) { HasWithSection(b, n, m); }
    if Has(b, n) { AbsorbedBit(b[n / 8], n % 8); }
  }

  lemma WithSegmentMembers(b: Bitmap, i: nat)
    requires i < SEGMENTS
    ensures Members(b[i := ALL]) == Members(b) + Segments(i, i + 1)
  {}
}
