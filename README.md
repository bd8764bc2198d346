# sphereanim in Dafny

A model of the simulation core of `sphereanim`, a raylib animation. Spheres
drift through a box. They wrap around at its walls and take a red channel
from their depth. Pairs that are close enough are joined by lines in two
colour tiers.

The project has five modules:

- `Raylib` (`raylib.dfy`) restates the raylib value types `Vector3` and
  `Color` and the palette colours `BLUE` and `DARKBLUE`. raylib.h is not part
  of this model.
- `VectorColor` (`vector_color.dfy`) holds the constexpr helpers of
  `sphereanim/main.cpp`: `minus`, `plus`, `scale`, `v2c`, `colorScale`,
  `colorPlus` and `colorMean`. It models both C++ casts to `unsigned char`:
  - a float cast truncates toward zero and is defined only for -1 < v < 256
    (`ToByte`);
  - an int cast reduces modulo 256 (`WrapByte`).
- `Helpers` (`helpers.dfy`) holds the colour helpers of
  `sphereanim/helpers.h`: `operator==`, the component-wise `operator<`, and
  `darken`.
- `Draws` (`draws.dfy`) holds the random draws of the `Scene` constructor. A
  draw is any value its distribution can produce.
- `SphereScene` (`scene.dfy`) holds the constants, the `Sphere` record and
  the `Scene` class:
  - its constructor;
  - `bounce`, `zbounce` and `fadeInOut`, as methods that return the updated
    value the C++ writes through a reference;
  - `update`, which changes the `spheres` field in place;
  - the connection pass of `draw`, which returns the line records
    `(i, j, colour)` in the order they are drawn.

Coordinates are reals.

Three behaviours of the code worth knowing:

- `bounce` wraps a coordinate past a lateral wall to the opposite wall. It
  does not clamp it to the near wall (`LateralWallWrapsAround`).
- The red channel that `update` writes is truncated, not rounded
  (`DepthRedPoints`: depth -49.8 gives 0).
- `fadeInOut` exists, but `update` does not call it: its calls are commented
  out at main.cpp:192-194. It is modelled on its own.

## Model

| member | source | states |
|---|---|---|
| VectorColor.ToByte | sphereanim/main.cpp:27 | a float cast to `unsigned char` is the value truncated toward zero: b <= v < b + 1, and 0 for v in (-1, 0) |
| VectorColor.WrapByte | sphereanim/main.cpp:42-43 | an int cast to `unsigned char` keeps 0..255 and wraps 256..511 down by 256 |
| VectorColor.ToByteMonotone | sphereanim/main.cpp:27 | the float-to-byte cast is monotone |
| VectorColor.Minus | sphereanim/main.cpp:10-13 | the difference is the zero vector exactly when the two vectors are equal |
| VectorColor.Plus | sphereanim/main.cpp:15-18 | `minus` of the sum and either summand gives back the other summand |
| VectorColor.Scale | sphereanim/main.cpp:20-23 | scaling by 1 is the identity, and scaling by 0 gives the zero vector |
| VectorColor.PlusMinusInverse | sphereanim/main.cpp:10-18 | `minus` undoes `plus` and vice versa, and `plus` is commutative |
| VectorColor.V2C | sphereanim/main.cpp:25-28 | each component is truncated into its channel; alpha is the argument (default 255) |
| VectorColor.ColorScale | sphereanim/main.cpp:30-38 | r, g, b are mult·channel truncated; alpha is kept when `aconst` holds and scaled otherwise |
| VectorColor.ColorPlus | sphereanim/main.cpp:40-44 | each channel is the sum; a sum of 256 or more wraps around |
| VectorColor.HalvedColor | sphereanim/main.cpp:30-34 | `colorScale(c, 0.5f)` is integer halving of r, g, b, with alpha kept |
| VectorColor.ColorMean | sphereanim/main.cpp:46-49 | r, g, b are floor(l/2) + floor(r/2), at most 254 and at most the larger input; alpha is (l.a + r.a) mod 256 |
| VectorColor.ColorMeanCommutes | sphereanim/main.cpp:46-49 | the mean does not depend on the order of its arguments |
| VectorColor.OpaqueMeanAlpha | sphereanim/main.cpp:40-49 | the mean of two opaque colours has alpha 254 |
| Helpers.ColorEq | sphereanim/helpers.h:44-47 | `operator==` holds exactly when the colours are equal |
| Helpers.ColorEqIsEquivalence | sphereanim/helpers.h:44-47 | `operator==` is reflexive and symmetric |
| Helpers.ColorLess | sphereanim/helpers.h:49-52 | `operator<` holds exactly when r, g and b are strictly smaller and alpha is no larger, and then the colours differ |
| Helpers.ColorLessIsStrictOrder | sphereanim/helpers.h:49-52 | `operator<` is irreflexive, asymmetric and transitive |
| Helpers.LessExcludesEq | sphereanim/helpers.h:44-52 | `operator<` and `operator==` never both hold |
| Helpers.ColorLessNotTotal | sphereanim/helpers.h:49-52 | some pairs of colours are unordered and unequal |
| Helpers.DarkenChannel | sphereanim/helpers.h:58-60 | a channel becomes floor(c·rate); for a rate in [0, 1] it never grows, 0 stays 0, and rate 1 keeps it |
| Helpers.Darken | sphereanim/helpers.h:55-62 | for a rate in [0, 1] no channel of r, g, b grows; rate 1 keeps r, g, b |
| Helpers.UnitRateDarkenable | sphereanim/helpers.h:55-62 | any rate in [0, 1] can be applied to any colour without an out-of-range cast |
| Helpers.DarkenBlue | sphereanim/helpers.h:55-62 | the default rate 0.9 turns BLUE (0, 121, 241) into (0, 108, 216) |
| Draws.Uniform | sphereanim/main.cpp:97-100 | a uniform real draw lies in [lo, hi) |
| Draws.Bernoulli | sphereanim/main.cpp:101-102 | a bernoulli draw is either outcome; there is no contract, since any bool may come out |
| SphereScene.ConstantValues | sphereanim/main.cpp:61-74 | COLOR_DARK is (0, 24, 51, 255), DARK and LIGHT are its and BLUE's r, g, b, `v2c(DARK)` (the constant DARK_LINE, the far-tier colour at main.cpp:227) is COLOR_DARK again, and the lateral bound is 10 |
| SphereScene.PaletteOrdered | sphereanim/main.cpp:70-71 | COLOR_DARK is no lighter than COLOR_LIGHT in g and b; both have no red and are opaque |
| SphereScene.PaletteVectors | sphereanim/main.cpp:73-74 | DARK is (0, 24, 51) and LIGHT is (0, 121, 241) |
| SphereScene.Abs | sphereanim/main.cpp:117 | `abs` is non-negative and is x or -x |
| SphereScene.InBox | sphereanim/main.cpp:196-198 | the box \|x\| <= 10, \|y\| <= 10, -50 <= z <= 10 is exactly the set of positions that `bounce` and `zbounce` leave unchanged |
| SphereScene.Wrapped | sphereanim/main.cpp:115-119 | after `bounce`, \|pos\| <= bound |
| SphereScene.WrappedCases | sphereanim/main.cpp:115-119 | past +bound gives exactly -bound, past -bound gives exactly +bound, in range is unchanged, and two bounces equal one |
| SphereScene.DepthWrapped | sphereanim/main.cpp:121-131 | after `zbounce`, boundMin <= z <= boundMax |
| SphereScene.DepthWrappedCases | sphereanim/main.cpp:121-131 | above the top gives exactly the bottom, below the bottom gives exactly the top, in range is unchanged, and it is idempotent |
| SphereScene.DepthRed | sphereanim/main.cpp:200 | the red channel is floor((z + 50) / 60 · 255) |
| SphereScene.DepthRedMonotone | sphereanim/main.cpp:200 | a deeper sphere never has more red than a shallower one |
| SphereScene.DepthRedPoints | sphereanim/main.cpp:200 | the bottom gives 0 and the top 255; the value truncates (-49.8 gives 0) |
| SphereScene.Step | sphereanim/main.cpp:188-201 | one sphere's update lands in the box, keeps velocity, radius, g, b and a, becomes connectable, and takes red from its new depth |
| SphereScene.StepPosition | sphereanim/main.cpp:190-198 | the new position is the per-axis wrap of position + velocity, at ±10 laterally and at [-50, 10] in depth |
| SphereScene.LateralWallWrapsAround | sphereanim/main.cpp:117-118 | a sphere on the +x wall that moves outward lands on the -x wall |
| SphereScene.DepthWrapsExactly | sphereanim/main.cpp:198 | a sphere leaving the depth range reappears exactly at the other end |
| SphereScene.Signed | sphereanim/main.cpp:107-108 | `(1 - 2·draw) · magnitude` keeps the magnitude, and for a positive magnitude is negative exactly when the draw is true |
| SphereScene.Spawned | sphereanim/main.cpp:105-111 | what the constructor promises of a new sphere (positions and speeds in the ranges of their distributions, radius 0.5, COLOR_LIGHT, connectable); such a sphere is inside the box |
| SphereScene.Square | sphereanim/main.cpp:221 | a squared component is non-negative |
| SphereScene.DistanceSqr | sphereanim/main.cpp:217-221 | the squared distance is non-negative |
| SphereScene.DistanceSqrSymmetric | sphereanim/main.cpp:217-221 | the squared distance from p1 to p2 equals that from p2 to p1 |
| SphereScene.Connected | sphereanim/main.cpp:212-223 | a pair is joined exactly when both spheres are connectable and the squared distance is at most threshold², and the decision is the same with the pair swapped |
| SphereScene.LineColor | sphereanim/main.cpp:224-227 | within 0.9·threshold² the line has the mean of the two colours, beyond it (0, 24, 51, 255), the same for the swapped pair |
| SphereScene.ConnectionSymmetric | sphereanim/main.cpp:211-229 | whether a pair connects, and the colour of its line, do not depend on the order of the pair |
| SphereScene.ConnectionTiers | sphereanim/main.cpp:223-227 | with threshold 5: distance 3 gives the mean colour, 4.9 gives the dark colour, 5.1 gives no line |
| SphereScene.FadeFraction | sphereanim/main.cpp:153 | the fade fraction sf = num / den lies in [0, 1) on either band orientation |
| SphereScene.FadeFractionOfWidth | sphereanim/main.cpp:153 | sf times the band width is the distance into the band |
| SphereScene.Coordinate | sphereanim/main.cpp:139-161 | the coordinate a fade follows: x for template argument 0, y for 1, z otherwise (no contract; it selects a field) |
| SphereScene.Blend | sphereanim/main.cpp:154 | the faded colour lies channel by channel between COLOR_DARK and COLOR_LIGHT, is opaque, and is COLOR_DARK at sf = 0 |
| SphereScene.BlendMonotone | sphereanim/main.cpp:154 | a larger sf never gives a darker g or b |
| SphereScene.BlendVector | sphereanim/main.cpp:136-154 | DARK + sf·(LIGHT - DARK) is (0, 24 + 97·sf, 51 + 190·sf) |
| SphereScene.Scene.constructor | sphereanim/main.cpp:91-113 | stores threshold²; creates numSpheres spheres (none when numSpheres <= 0); each starts in the box with speeds in range of either sign, radius 0.5, COLOR_LIGHT and connectable |
| SphereScene.Scene.Bounce | sphereanim/main.cpp:115-119 | the position is wrapped and the velocity is returned unchanged |
| SphereScene.Scene.ZBounce | sphereanim/main.cpp:121-131 | only z changes, to the wrapped depth |
| SphereScene.Scene.FadeInOut | sphereanim/main.cpp:133-180 | the axis defaults to depth, as the template argument does; gives the per-axis cases (dark and unconnectable beyond the band, blended inside it, light nearer); position and velocity are unchanged; the flag is never set; the colour stays between dark and light |
| SphereScene.Scene.Update | sphereanim/main.cpp:182-202 | keeps the threshold and the count; every sphere becomes `Step` of its old value, so afterwards all are in the box |
| SphereScene.Scene.Draw | sphereanim/main.cpp:211-229 | every line joins a connected pair i < j with its tier's colour; every connected pair gets a line; the lines come in strict (i, j) order, so no pair appears twice |
| SphereScene.UnconnectableInNoLine | sphereanim/main.cpp:211-216 | a non-connectable sphere is in no drawn line |
| SphereScene.NoPairTwice | sphereanim/main.cpp:211-214 | lines in visiting order never repeat a pair |

## Left out

- The `main` frame loop, the window, keys, the grid and box toggles, and the text overlay (main.cpp:257-339). These are UI and I/O over raylib.
- `RotateByAxis` (main.cpp:243-255). It rotates the camera through a foreign raylib call and uses trigonometry.
- The raylib draw calls. This covers the sphere wires in `draw` (main.cpp:206-208), `DrawLine3D`, and the translucent wall with its blend mode (main.cpp:232-238). `Scene.Draw` returns the line records instead.
- The random generator and the distributions' probabilities (the 0.5 and 0.8 of the sign draws). `Draws.Uniform` and `Draws.Bernoulli` return any value the distribution can produce.
- `Norm` and `Dist` (main.cpp:51-59). They use `sqrt` and nothing calls them. The z term of `Dist` subtracts `b.y` where `b.z` is evidently meant.
- `DrawCoordinateSystem`, `DrawTextIn3D`, `DrawAxisLabels` and the globals of helpers.h:4-40. They are rendering code.
- IEEE single precision. Floats are reals, and the float literals 0.3f, 0.5f, 0.8f and 0.9f are taken as exact decimals. The byte results derived from them (COLOR_DARK, the halved channels, `darken` of BLUE) come out the same as with the float values.
- Float-to-byte casts outside (-1, 256) are undefined behaviour in C++. `ToByte` and everything built on it require the value to be in range.
- Helpers.Darken: the alpha of the result is uninitialised in the source (helpers.h:57). The model takes it as a parameter `indeterminate` and promises nothing about it.
- The constants `WIRE_COUNT`, `MIN_POS` and `MAX_POS` (main.cpp:67-69) are used only by draw calls and the wall, and the rim constants of `update` (main.cpp:183-186) only by its commented-out `fadeInOut` calls. None of them is modelled.
- `abs` in `bounce` and `fadeInOut` is taken as the floating-point overload.
