/** The two value types of the raylib rendering library that the animation
    computes with, and the two palette colours it takes from raylib.
    raylib.h is not part of this model: the values below restate its public
    header (BLUE is {0, 121, 241, 255}, DARKBLUE is {0, 82, 172, 255}). */
module Raylib {

  /** An `unsigned char`: one colour channel. */
  type Byte = x: int | 0 <= x < 256

  /** raylib's `Vector3`; single-precision floats are modelled as reals. */
  datatype Vector3 = Vector3(x: real, y: real, z: real)

  /** raylib's `Color`: four byte channels. */
  datatype Color = Color(r: Byte, g: Byte, b: Byte, a: Byte)

  const BLUE: Color := Color(0, 121, 241, 255)
  const DARKBLUE: Color := Color(0, 82, 172, 255)
}
