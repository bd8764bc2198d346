/** The colour helpers of sphereanim/helpers.h: equality, a component-wise
    "strictly darker" order, and darkening by a factor. */
module Helpers {
  import opened Raylib
  import opened VectorColor

  /** `operator==`: all four channels agree, which for the value type
      Color is exactly equality. */
  function ColorEq(left: Color, right: Color): (eq: bool)
    ensures eq <==> left == right
  {
    left.r == right.r && left.g == right.g && left.b == right.b && left.a == right.a
  }

  /** `operator<`: r, g and b strictly smaller, alpha no larger; so the two
      colours differ. */
  function ColorLess(left: Color, right: Color): (lt: bool)
    ensures lt ==> left != right
    ensures lt <==> left.r < right.r && left.g < right.g && left.b < right.b && left.a <= right.a
  {
    left.r < right.r && left.g < right.g && left.b < right.b && left.a <= right.a
  }

  /** `operator==` is reflexive and symmetric. */
  lemma ColorEqIsEquivalence(x: Color, y: Color)
    ensures ColorEq(x, x)
    ensures ColorEq(x, y) == ColorEq(y, x)
  {
  }

  /** `operator<` is a strict partial order: irreflexive, asymmetric and
      transitive. */
  lemma ColorLessIsStrictOrder(x: Color, y: Color, z: Color)
    ensures !ColorLess(x, x)
    ensures ColorLess(x, y) ==> !ColorLess(y, x)
    ensures ColorLess(x, y) && ColorLess(y, z) ==> ColorLess(x, z)
  {
  }

  /** `operator<` and `operator==` never hold of the same pair. */
  lemma LessExcludesEq(x: Color, y: Color)
    ensures !(ColorLess(x, y) && ColorEq(x, y))
  {
  }

  /** The order is partial: some colours are neither smaller, larger nor
      equal to one another. */
  lemma ColorLessNotTotal()
    ensures var x, y := Color(1, 0, 0, 0), Color(0, 1, 0, 0);
      !ColorLess(x, y) && !ColorLess(y, x) && !ColorEq(x, y)
  {
  }

  /** The default factor of `darken`. */
  const DEFAULT_DARKEN_RATE: real := 0.9

  /** The product of a channel and `rate` can be cast to a byte. */
  predicate Darkenable(c: Byte, rate: real)
  {
    -1.0 < c as real * rate < 256.0
  }

  /** One channel of `darken`: the channel times `rate`, truncated. With a
      rate in [0, 1] the channel never grows and zero stays zero; rate 1
      keeps it. */
  function DarkenChannel(c: Byte, rate: real): (d: Byte)
    requires Darkenable(c, rate)
    ensures rate >= 0.0 ==> d as real <= c as real * rate < d as real + 1.0
    ensures 0.0 <= rate <= 1.0 ==> d <= c
    ensures c == 0 || rate == 1.0 ==> d == c
  {
    if 0.0 <= rate <= 1.0 then
      ScaledTruncationNotLarger(c as real, rate);
      ToByte(c as real * rate)
    else
      ToByte(c as real * rate)
  }

  /** `darken`: r, g and b each scaled by `rate` and truncated, so that a
      rate in [0, 1] (the default 0.9 included) never brightens a channel.
      The result's alpha is never written by the source (the local is left
      uninitialised); `indeterminate` stands for whatever that byte holds,
      and nothing is promised about it. */
  function Darken(col: Color, rate: real := DEFAULT_DARKEN_RATE, indeterminate: Byte := 0): (darker: Color)
    requires Darkenable(col.r, rate) && Darkenable(col.g, rate) && Darkenable(col.b, rate)
    ensures 0.0 <= rate <= 1.0 ==> darker.r <= col.r && darker.g <= col.g && darker.b <= col.b
    ensures rate == 1.0 ==> darker.r == col.r && darker.g == col.g && darker.b == col.b
  {
    Color(DarkenChannel(col.r, rate), DarkenChannel(col.g, rate), DarkenChannel(col.b, rate), indeterminate)
  }

  /** A non-negative quantity scaled by a factor in [0, 1] stays between 0
      and itself. */
  lemma ScaledDown(x: real, rate: real)
    requires 0.0 <= x && 0.0 <= rate <= 1.0
    ensures 0.0 <= x * rate <= x
  {
    assert x * rate + x * (1.0 - rate) == x;
  }

  /** Scaling by a factor in [0, 1] before the cast never gives a larger
      byte than casting the unscaled value. */
  lemma ScaledTruncationNotLarger(x: real, rate: real)
    requires 0.0 <= x < 256.0 && 0.0 <= rate <= 1.0
    ensures -1.0 < x * rate < 256.0
    ensures ToByte(x * rate) <= ToByte(x)
  {
    ScaledDown(x, rate);
    ToByteMonotone(x * rate, x);
  }

  /** Any rate in [0, 1] can be applied to any channel. */
  lemma UnitRateDarkenable(c: Byte, rate: real)
    requires 0.0 <= rate <= 1.0
    ensures Darkenable(c, rate)
  {
    ScaledDown(c as real, rate);
  }

  /** The default rate applied to raylib's BLUE. */
  lemma DarkenBlue()
    ensures var d := Darken(BLUE);
      d.r == 0 && d.g == 108 && d.b == 216
  {
  }
}
