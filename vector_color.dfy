/** The constexpr vector and colour arithmetic at the top of
    sphereanim/main.cpp: component-wise vector sums, differences and scaling,
    and the byte-colour helpers built on the two C++ casts to
    `unsigned char`. */
module VectorColor {
  import opened Raylib

  // ---------------------------------------------------------------------
  // The two casts to unsigned char
  // ---------------------------------------------------------------------

  /** `static_cast<unsigned char>` of a float. The conversion truncates
      toward zero and is defined only when the truncated value fits a byte,
      that is for -1 < v < 256. */
  function ToByte(v: real): (b: Byte)
    requires -1.0 < v < 256.0
    ensures v >= 0.0 ==> b as real <= v < b as real + 1.0
    ensures v < 0.0 ==> b == 0
  {
    if v < 0.0 then 0 else v.Floor
  }

  /** `static_cast<unsigned char>` of an int: reduction modulo 256. */
  function WrapByte(n: int): (b: Byte)
    ensures 0 <= n < 256 ==> b == n
    ensures 256 <= n < 512 ==> b == n - 256
  {
    n % 256
  }

  lemma ToByteMonotone(v: real, w: real)
    requires -1.0 < v <= w < 256.0
    ensures ToByte(v) <= ToByte(w)
  {
  }

  // ---------------------------------------------------------------------
  // Vector arithmetic (main.cpp:10-23)
  // ---------------------------------------------------------------------

  /** `minus`: component-wise difference, which is zero exactly when the two
      vectors are equal. */
  function Minus(left: Vector3, right: Vector3): (d: Vector3)
    ensures d == Vector3(0.0, 0.0, 0.0) <==> left == right
  {
    Vector3(left.x - right.x, left.y - right.y, left.z - right.z)
  }

  /** `plus`: component-wise sum, from which `minus` recovers either
      summand. */
  function Plus(left: Vector3, right: Vector3): (sum: Vector3)
    ensures Minus(sum, right) == left && Minus(sum, left) == right
  {
    Vector3(left.x + right.x, left.y + right.y, left.z + right.z)
  }

  /** `scale`: every component multiplied by `mult`. */
  function Scale(vec: Vector3, mult: real): (s: Vector3)
    ensures mult == 1.0 ==> s == vec
    ensures mult == 0.0 ==> s == Vector3(0.0, 0.0, 0.0)
  {
    Vector3(mult * vec.x, mult * vec.y, mult * vec.z)
  }

  /** `minus` undoes `plus` and vice versa, and `plus` is commutative. */
  lemma PlusMinusInverse(left: Vector3, right: Vector3)
    ensures Minus(Plus(left, right), right) == left
    ensures Plus(Minus(left, right), right) == left
    ensures Plus(left, right) == Plus(right, left)
  {
  }

  // ---------------------------------------------------------------------
  // Colours (main.cpp:25-49)
  // ---------------------------------------------------------------------

  /** A vector whose components are all castable to a byte. */
  predicate CastableVector(vec: Vector3)
  {
    -1.0 < vec.x < 256.0 && -1.0 < vec.y < 256.0 && -1.0 < vec.z < 256.0
  }

  /** `v2c`: the three components, each cast to a byte, with alpha `a`
      (255 when the caller gives none). */
  function V2C(vec: Vector3, a: Byte := 255): (c: Color)
    requires CastableVector(vec)
    ensures c.a == a
    ensures vec.x >= 0.0 ==> c.r as real <= vec.x < c.r as real + 1.0
    ensures vec.y >= 0.0 ==> c.g as real <= vec.y < c.g as real + 1.0
    ensures vec.z >= 0.0 ==> c.b as real <= vec.z < c.b as real + 1.0
  {
    Color(ToByte(vec.x), ToByte(vec.y), ToByte(vec.z), a)
  }

  /** `colorScale`: r, g and b multiplied by `mult` and truncated; alpha is
      kept when `aconst` (the default) and scaled likewise otherwise. */
  function ColorScale(color: Color, mult: real, aconst: bool := true): (c: Color)
    requires -1.0 < mult * color.r as real < 256.0
    requires -1.0 < mult * color.g as real < 256.0
    requires -1.0 < mult * color.b as real < 256.0
    requires !aconst ==> -1.0 < mult * color.a as real < 256.0
    ensures aconst ==> c.a == color.a
    ensures mult >= 0.0 ==> c.r as real <= mult * color.r as real < c.r as real + 1.0
    ensures mult >= 0.0 ==> c.g as real <= mult * color.g as real < c.g as real + 1.0
    ensures mult >= 0.0 ==> c.b as real <= mult * color.b as real < c.b as real + 1.0
    ensures !aconst && mult >= 0.0 ==> c.a as real <= mult * color.a as real < c.a as real + 1.0
  {
    var r, g, b := ToByte(mult * color.r as real), ToByte(mult * color.g as real), ToByte(mult * color.b as real);
    if aconst then Color(r, g, b, color.a) else Color(r, g, b, ToByte(mult * color.a as real))
  }

  /** `colorPlus`: channel-wise sum; each sum is an int cast back to a byte,
      so a sum of 256 or more wraps around. */
  function ColorPlus(left: Color, right: Color): (c: Color)
    ensures left.r + right.r < 256 ==> c.r == left.r + right.r
    ensures left.g + right.g < 256 ==> c.g == left.g + right.g
    ensures left.b + right.b < 256 ==> c.b == left.b + right.b
    ensures left.a + right.a < 256 ==> c.a == left.a + right.a
    ensures left.r + right.r >= 256 ==> c.r == left.r + right.r - 256
    ensures left.g + right.g >= 256 ==> c.g == left.g + right.g - 256
    ensures left.b + right.b >= 256 ==> c.b == left.b + right.b - 256
    ensures left.a + right.a >= 256 ==> c.a == left.a + right.a - 256
  {
    Color(WrapByte(left.r + right.r), WrapByte(left.g + right.g),
          WrapByte(left.b + right.b), WrapByte(left.a + right.a))
  }

  /** Truncation of a value that lies in [k, k + 1) gives k. */
  lemma ToByteExact(v: real, k: Byte)
    requires k as real <= v < k as real + 1.0
    ensures ToByte(v) == k
  {
  }

  /** Halving a byte channel by the float factor 0.5 and truncating is
      integer halving. */
  lemma HalfIsIntegerHalf(c: Byte)
    ensures -1.0 < 0.5 * c as real < 256.0
    ensures ToByte(0.5 * c as real) == c / 2
  {
    ToByteExact(0.5 * c as real, c / 2);
  }

  /** `colorScale(c, 0.5f)` halves r, g and b by integer division and keeps
      alpha. */
  lemma HalvedColor(c: Color)
    ensures -1.0 < 0.5 * c.r as real < 256.0
    ensures -1.0 < 0.5 * c.g as real < 256.0
    ensures -1.0 < 0.5 * c.b as real < 256.0
    ensures ColorScale(c, 0.5) == Color(c.r / 2, c.g / 2, c.b / 2, c.a)
  {
    HalfIsIntegerHalf(c.r);
    HalfIsIntegerHalf(c.g);
    HalfIsIntegerHalf(c.b);
  }

  /** `colorMean`: each of r, g, b is the sum of the two truncated halves (so
      at most 254 and never above the larger input), while alpha is kept by
      `colorScale` and then added by `colorPlus` with wrap-around. */
  function ColorMean(left: Color, right: Color): (c: Color)
    ensures c.r == left.r / 2 + right.r / 2 && c.r <= 254 && (c.r <= left.r || c.r <= right.r)
    ensures c.g == left.g / 2 + right.g / 2 && c.g <= 254 && (c.g <= left.g || c.g <= right.g)
    ensures c.b == left.b / 2 + right.b / 2 && c.b <= 254 && (c.b <= left.b || c.b <= right.b)
    ensures c.a == (left.a + right.a) % 256
  {
    HalvedColor(left);
    HalvedColor(right);
    ColorPlus(ColorScale(left, 0.5), ColorScale(right, 0.5))
  }

  /** The mean of two colours does not depend on their order. */
  lemma ColorMeanCommutes(left: Color, right: Color)
    ensures ColorMean(left, right) == ColorMean(right, left)
  {
  }

  /** Two opaque colours give a mean with alpha 254, not 255. */
  lemma OpaqueMeanAlpha(left: Color, right: Color)
    requires left.a == 255 && right.a == 255
    ensures ColorMean(left, right).a == 254
  {
  }
}
