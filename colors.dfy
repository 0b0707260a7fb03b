/**
 * Packed 32-bit ARGB colours (java.awt.Color and the `blend` helper of
 * Wireframe3D's companion object). A colour is the unsigned reading of the
 * Int's bit pattern; Kotlin's 32-bit wrap-around is written out where the
 * source's arithmetic can overflow.
 */
module Colors {
  import opened Numbers

  const TWO32: int := 0x1_0000_0000

  /** The bit pattern of a Kotlin Int, read as an unsigned number. */
  type Argb = c: int | 0 <= c < 0x1_0000_0000

  /** The signed Int that 32-bit arithmetic leaves from the exact value x: x less a whole number of 2^32. */
  function Signed(x: int): (r: int)
    ensures INT_MIN <= r <= INT_MAX
    ensures r == x - Wraps(x) * TWO32
  {
    (x + 0x8000_0000) % TWO32 - 0x8000_0000
  }

  /** How many times 32-bit arithmetic wraps x around. */
  function Wraps(x: int): int {
    (x + 0x8000_0000) / TWO32
  }

  function Alpha(c: Argb): int { c / 0x100_0000 }
  function Red(c: Argb): int { c / 0x1_0000 % 0x100 }
  function Green(c: Argb): int { c / 0x100 % 0x100 }
  function Blue(c: Argb): int { c % 0x100 }

  /** `Color(r, g, b, a).rgb`. */
  function Rgba(r: int, g: int, b: int, a: int): (c: Argb)
    requires 0 <= r < 256 && 0 <= g < 256 && 0 <= b < 256 && 0 <= a < 256
    ensures Red(c) == r && Green(c) == g && Blue(c) == b && Alpha(c) == a
  {
    ChannelsOf(r, g, b);
    AlphaSplit(a, r * 0x1_0000 + g * 0x100 + b);
    a * 0x100_0000 + r * 0x1_0000 + g * 0x100 + b
  }

  const RED: Argb := 0xffff_0000
  const GREEN: Argb := 0xff00_ff00
  const BLUE: Argb := 0xff00_00ff

  /**
   * `Color(rgb).rgb`, and `(0xff shl 24) or c` in `plot`: the colour with its
   * alpha forced to 0xff.
   */
  function Opaque(c: Argb): (r: Argb)
    ensures Alpha(r) == 0xff
    ensures Red(r) == Red(c) && Green(r) == Green(c) && Blue(r) == Blue(c)
  {
    AlphaSplit(Alpha(c), c % 0x100_0000);
    AlphaSplit(0xff, c % 0x100_0000);
    0xff00_0000 + c % 0x100_0000
  }

  /** The alpha byte does not disturb the three colour channels. */
  lemma AlphaSplit(a: int, m: int)
    requires 0 <= a < 256 && 0 <= m < 0x100_0000
    ensures var c := a * 0x100_0000 + m;
      && Alpha(c) == a && Red(c) == Red(m) && Green(c) == Green(m) && Blue(c) == Blue(m)
  {
    var c := a * 0x100_0000 + m;
    Split24(c, a, m);
    Split16(c, a * 0x100 + m / 0x1_0000, m % 0x1_0000);
    ShiftByte(a, m / 0x1_0000);
    Split8(c, a * 0x1_0000 + m / 0x100, m % 0x100);
    ShiftByte(a * 0x100, m / 0x100);
  }

  /** Adding a multiple of 256 leaves the low byte alone and shifts the rest. */
  lemma ShiftByte(k: int, y: int)
    ensures (k * 0x100 + y) % 0x100 == y % 0x100
    ensures (k * 0x100 + y) / 0x100 == k + y / 0x100
  {
    Split8(k * 0x100 + y, k + y / 0x100, y % 0x100);
  }

  /** A colour is the sum of its four bytes, each in its place. */
  lemma Recompose(c: Argb)
    ensures c == Alpha(c) * 0x100_0000 + Red(c) * 0x1_0000 + Green(c) * 0x100 + Blue(c)
  {
    var q1 := c / 0x100;
    var q2 := q1 / 0x100;
    var q3 := q2 / 0x100;
    Split16(c, q2, q1 % 0x100 * 0x100 + c % 0x100);
    Split24(c, q3, q2 % 0x100 * 0x1_0000 + q1 % 0x100 * 0x100 + c % 0x100);
  }

  /** `0xff00ff and c`, and `0x00ff00 and c`. */
  function RedBlue(c: Argb): int { Red(c) * 0x1_0000 + Blue(c) }
  function GreenOnly(c: Argb): int { Green(c) * 0x100 }

  /** `v and 0xff00ff`, and `v and 0x00ff00`, for a signed Int v. */
  function MaskRedBlue(v: int): int { v % 0x100 + v / 0x1_0000 % 0x100 * 0x1_0000 }
  function MaskGreen(v: int): int { v / 0x100 % 0x100 * 0x100 }

  /** `a * c8 + b * (256 - c8) shr 8` in 32-bit Int arithmetic (`shr` is arithmetic). */
  function Lane(a: int, b: int, c8: int): int {
    Signed(Signed(a * c8) + Signed(b * Signed(256 - c8))) / 0x100
  }

  /**
   * `blend(col1, col2, factor)`: mixes two colours channel by channel with
   * weight `(256 * factor).toInt()` out of 256 on col1. The two masked
   * lanes have no bits in common, so their `or` is their sum.
   */
  function Blend(col1: Argb, col2: Argb, factor: real): (r: Argb)
    ensures Alpha(r) == 0
  {
    var c8 := ToInt(256.0 * factor);
    MaskRedBlue(Lane(RedBlue(col1), RedBlue(col2), c8)) + MaskGreen(Lane(GreenOnly(col1), GreenOnly(col2), c8))
  }

  /** The exact weighted mean of two channel values that `blend` aims at. */
  function Mixed(a: int, b: int, c8: int): int {
    (a * c8 + b * (256 - c8)) / 256
  }

  lemma MulMono(a: int, b: int, c: int)
    requires a <= b && 0 <= c
    ensures a * c <= b * c
  {
    MulNonneg(b - a, c);
    assert (b - a) * c == b * c - a * c;
  }

  lemma MixBound(a: int, b: int, c8: int)
    requires 0 <= a < 256 && 0 <= b < 256 && 0 <= c8 <= 256
    ensures 0 <= a * c8 + b * (256 - c8) <= 255 * 256
  {
    MulNonneg(a, c8);
    MulNonneg(b, 256 - c8);
    MulMono(a, 255, c8);
    MulMono(b, 255, 256 - c8);
  }

  /** Values a whole number of 2^32 apart wrap to the same Int. */
  lemma SignedShift(x: int, k: int)
    ensures Signed(x + k * TWO32) == Signed(x)
  {
    var y := x + 0x8000_0000;
    assert y == y / TWO32 * TWO32 + y % TWO32;
    assert y + k * TWO32 == (y / TWO32 + k) * TWO32 + y % TWO32;
  }

  /** With a weight in [0, 256] the wrap-arounds of the three Int operations cancel. */
  lemma LaneIsWrappedSum(a: int, b: int, c8: int)
    requires 0 <= c8 <= 256
    ensures Lane(a, b, c8) == Signed(a * c8 + b * (256 - c8)) / 0x100
  {
    var d := 256 - c8;
    assert Signed(d) == d;
    var x, y := a * c8, b * d;
    assert b * Signed(d) == y;
    assert Lane(a, b, c8) == Signed(Signed(x) + Signed(y)) / 0x100;
    WrappedSum(x, y);
  }

  /** Adding two wrapped Ints and wrapping again is wrapping the exact sum. */
  lemma WrappedSum(x: int, y: int)
    ensures Signed(Signed(x) + Signed(y)) == Signed(x + y)
  {
    assert Signed(x) + Signed(y) == (x + y) + (-(Wraps(x) + Wraps(y))) * TWO32;
    SignedShift(x + y, -(Wraps(x) + Wraps(y)));
  }

  lemma MaskRedBlueShift(x: int)
    ensures MaskRedBlue(x - 0x100_0000) == MaskRedBlue(x)
  {
    var q, m := x / 0x1_0000, x % 0x1_0000;
    assert x - 0x100_0000 == (q - 0x100) * 0x1_0000 + m;
    assert (x - 0x100_0000) / 0x1_0000 == q - 0x100;
    assert (x - 0x100_0000) % 0x100 == x % 0x100;
  }

  lemma MaskRedBlueOfLanes(r: int, d: int)
    requires 0 <= r <= 255 * 256 && 0 <= d < 256
    ensures MaskRedBlue(r * 0x100 + d) == r / 256 * 0x1_0000 + d
  {
    assert (r * 0x100 + d) % 0x100 == d;
    assert (r * 0x100 + d) / 0x1_0000 == r / 256;
  }

  /**
   * The red and blue sums share one Int; the sign the 32-bit overflow gives
   * it is shifted into the alpha byte and masked away.
   */
  lemma RedBlueLane(r: int, b: int, s: int)
    requires 0 <= r <= 255 * 256 && 0 <= b <= 255 * 256 && s == r * 0x1_0000 + b
    ensures MaskRedBlue(Signed(s) / 0x100) == r / 256 * 0x1_0000 + b / 256
  {
    assert s / 0x100 == r * 0x100 + b / 256;
    MaskRedBlueOfLanes(r, b / 256);
    if s >= 0x8000_0000 {
      assert Signed(s) == s - TWO32;
      assert Signed(s) / 0x100 == s / 0x100 - 0x100_0000;
      MaskRedBlueShift(s / 0x100);
    } else {
      assert Signed(s) == s;
    }
  }

  lemma GreenLane(g: int, s: int)
    requires 0 <= g <= 255 * 256 && s == g * 0x100
    ensures MaskGreen(Signed(s) / 0x100) == g / 256 * 0x100
  {
  }

  lemma Regroup(r1: int, b1: int, r2: int, b2: int, c8: int, k: int)
    ensures (r1 * k + b1) * c8 + (r2 * k + b2) * (256 - c8)
         == (r1 * c8 + r2 * (256 - c8)) * k + (b1 * c8 + b2 * (256 - c8))
  {
  }

  lemma RedBlueMix(a1: int, a2: int, c8: int, r1: int, b1: int, r2: int, b2: int)
    requires 0 <= c8 <= 256
    requires 0 <= r1 < 256 && 0 <= b1 < 256 && 0 <= r2 < 256 && 0 <= b2 < 256
    requires a1 == r1 * 0x1_0000 + b1 && a2 == r2 * 0x1_0000 + b2
    ensures MaskRedBlue(Lane(a1, a2, c8)) == Mixed(r1, r2, c8) * 0x1_0000 + Mixed(b1, b2, c8)
  {
    var rs, bs := r1 * c8 + r2 * (256 - c8), b1 * c8 + b2 * (256 - c8);
    MixBound(r1, r2, c8);
    MixBound(b1, b2, c8);
    Regroup(r1, b1, r2, b2, c8, 0x1_0000);
    LaneIsWrappedSum(a1, a2, c8);
    RedBlueLane(rs, bs, rs * 0x1_0000 + bs);
  }

  lemma GreenMix(a1: int, a2: int, c8: int, g1: int, g2: int)
    requires 0 <= c8 <= 256 && 0 <= g1 < 256 && 0 <= g2 < 256
    requires a1 == g1 * 0x100 && a2 == g2 * 0x100
    ensures MaskGreen(Lane(a1, a2, c8)) == Mixed(g1, g2, c8) * 0x100
  {
    var gs := g1 * c8 + g2 * (256 - c8);
    MixBound(g1, g2, c8);
    Regroup(g1, 0, g2, 0, c8, 0x100);
    assert a1 * c8 + a2 * (256 - c8) == gs * 0x100;
    LaneIsWrappedSum(a1, a2, c8);
    assert Lane(a1, a2, c8) == Signed(gs * 0x100) / 0x100;
    GreenLane(gs, gs * 0x100);
  }

  lemma MixedBound(a: int, b: int, c8: int)
    requires 0 <= a < 256 && 0 <= b < 256 && 0 <= c8 <= 256
    ensures 0 <= Mixed(a, b, c8) < 256
  {
    MixBound(a, b, c8);
  }

  /** A factor in [0, 1] gives a weight in [0, 256]. */
  lemma WeightInRange(factor: real)
    requires 0.0 <= factor <= 1.0
    ensures 0 <= ToInt(256.0 * factor) <= 256
  {
    ToIntMonotonic(0.0, 256.0 * factor);
    ToIntMonotonic(256.0 * factor, 256.0);
  }

  /**
   * For a factor in [0, 1], each channel of the blend is the weighted mean
   * of the two input channels, rounded down: the 32-bit overflow of the
   * shared red/blue lane never reaches another channel.
   */
  lemma BlendChannels(col1: Argb, col2: Argb, factor: real)
    requires 0.0 <= factor <= 1.0
    ensures var c8, r := ToInt(256.0 * factor), Blend(col1, col2, factor);
      && Red(r) == Mixed(Red(col1), Red(col2), c8)
      && Green(r) == Mixed(Green(col1), Green(col2), c8)
      && Blue(r) == Mixed(Blue(col1), Blue(col2), c8)
  {
    var c8 := ToInt(256.0 * factor);
    WeightInRange(factor);
    var mr, mg, mb := Mixed(Red(col1), Red(col2), c8), Mixed(Green(col1), Green(col2), c8), Mixed(Blue(col1), Blue(col2), c8);
    var rb, g := MaskRedBlue(Lane(RedBlue(col1), RedBlue(col2), c8)), MaskGreen(Lane(GreenOnly(col1), GreenOnly(col2), c8));
    assert Blend(col1, col2, factor) == rb + g;
    RedBlueMix(RedBlue(col1), RedBlue(col2), c8, Red(col1), Blue(col1), Red(col2), Blue(col2));
    assert rb == mr * 0x1_0000 + mb;
    GreenMix(GreenOnly(col1), GreenOnly(col2), c8, Green(col1), Green(col2));
    assert g == mg * 0x100;
    MixedBound(Red(col1), Red(col2), c8);
    MixedBound(Green(col1), Green(col2), c8);
    MixedBound(Blue(col1), Blue(col2), c8);
    ChannelsOf(mr, mg, mb);
    assert Blend(col1, col2, factor) == mr * 0x1_0000 + mg * 0x100 + mb;
  }

  lemma ChannelsOf(r: int, g: int, b: int)
    requires 0 <= r < 256 && 0 <= g < 256 && 0 <= b < 256
    ensures var v := r * 0x1_0000 + g * 0x100 + b;
      0 <= v < 0x100_0000 && Red(v) == r && Green(v) == g && Blue(v) == b && Alpha(v) == 0
  {
    var v := r * 0x1_0000 + g * 0x100 + b;
    Split8(v, r * 0x100 + g, b);
    Split8(r * 0x100 + g, r, g);
    Split16(v, r, g * 0x100 + b);
    Split8(r, 0, r);
    Split24(v, 0, v);
  }

  /** The weighted mean lies between its two inputs. */
  lemma MixedBetween(a: int, b: int, c8: int)
    requires 0 <= a < 256 && 0 <= b < 256 && 0 <= c8 <= 256
    ensures a <= b ==> a <= Mixed(a, b, c8) <= b
    ensures b <= a ==> b <= Mixed(a, b, c8) <= a
  {
    assert a * c8 + b * (256 - c8) == b * 256 + (a - b) * c8;
    if a <= b {
      MulMono(0, b - a, c8);
      MulMono(c8, 256, b - a);
      assert a * 256 <= a * c8 + b * (256 - c8) <= b * 256;
    } else {
      MulMono(0, a - b, c8);
      MulMono(c8, 256, a - b);
      assert b * 256 <= a * c8 + b * (256 - c8) <= a * 256;
    }
  }

  /** Every channel of a blend with a factor in [0, 1] lies between the inputs' channels. */
  lemma BlendBetween(col1: Argb, col2: Argb, factor: real)
    requires 0.0 <= factor <= 1.0
    ensures var r := Blend(col1, col2, factor);
      && (Red(col1) <= Red(r) <= Red(col2) || Red(col2) <= Red(r) <= Red(col1))
      && (Green(col1) <= Green(r) <= Green(col2) || Green(col2) <= Green(r) <= Green(col1))
      && (Blue(col1) <= Blue(r) <= Blue(col2) || Blue(col2) <= Blue(r) <= Blue(col1))
  {
    var c8 := ToInt(256.0 * factor);
    WeightInRange(factor);
    BlendChannels(col1, col2, factor);
    MixedBetween(Red(col1), Red(col2), c8);
    MixedBetween(Green(col1), Green(col2), c8);
    MixedBetween(Blue(col1), Blue(col2), c8);
  }

  lemma MixedEnds(a: int, b: int)
    ensures Mixed(a, b, 256) == a && Mixed(a, b, 0) == b
  {
  }

  /** A factor of 1 keeps the first colour, alpha dropped. */
  lemma BlendOne(col1: Argb, col2: Argb)
    ensures Blend(col1, col2, 1.0) == col1 % 0x100_0000
  {
    var r := Blend(col1, col2, 1.0);
    assert ToInt(256.0 * 1.0) == 256;
    BlendChannels(col1, col2, 1.0);
    MixedEnds(Red(col1), Red(col2));
    MixedEnds(Green(col1), Green(col2));
    MixedEnds(Blue(col1), Blue(col2));
    AlphaSplit(Alpha(col1), col1 % 0x100_0000);
    ChannelsLeAlpha(r, col1 % 0x100_0000);
  }

  /** A factor of 0 keeps the second colour, alpha dropped. */
  lemma BlendZero(col1: Argb, col2: Argb)
    ensures Blend(col1, col2, 0.0) == col2 % 0x100_0000
  {
    var r := Blend(col1, col2, 0.0);
    assert ToInt(256.0 * 0.0) == 0;
    BlendChannels(col1, col2, 0.0);
    MixedEnds(Red(col1), Red(col2));
    MixedEnds(Green(col1), Green(col2));
    MixedEnds(Blue(col1), Blue(col2));
    AlphaSplit(Alpha(col2), col2 % 0x100_0000);
    ChannelsLeAlpha(r, col2 % 0x100_0000);
  }

  /** Two alpha-free colours with equal channels are equal. */
  lemma ChannelsLeAlpha(c: Argb, d: Argb)
    requires Alpha(c) == 0 && Alpha(d) == 0
    requires Red(c) == Red(d) && Green(c) == Green(d) && Blue(c) == Blue(d)
    ensures c == d
  {
    Recompose(c);
    Recompose(d);
  }
}
