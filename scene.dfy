/** The sphere animation of sphereanim/main.cpp: spheres drift inside a
    cuboid, wrap around at its walls, get a red channel that follows their
    depth, and are joined by lines when close enough. */
module SphereScene {
  import opened Raylib
  import opened VectorColor
  import opened Draws

  // ---------------------------------------------------------------------
  // Constants (main.cpp:61-74)
  // ---------------------------------------------------------------------

  const CUBE_BOUND: real := 20.0
  const CUBE_ZMAX: real := 10.0
  const CUBE_ZMIN: real := -50.0
  const SPHERE_RADIUS: real := 0.5
  const MIN_SPEED: real := 0.01
  const MAX_SPEED: real := 0.02
  const COLOR_LIGHT: Color := BLUE
  const COLOR_DARK: Color := ColorScale(DARKBLUE, 0.3)
  const SPHERE_COLOR: Color := COLOR_LIGHT
  const DARK: Vector3 := Vector3(COLOR_DARK.r as real, COLOR_DARK.g as real, COLOR_DARK.b as real)
  const LIGHT: Vector3 := Vector3(COLOR_LIGHT.r as real, COLOR_LIGHT.g as real, COLOR_LIGHT.b as real)

  /** The lateral half-width that `update` passes to `bounce`. */
  const LATERAL_BOUND: real := CUBE_BOUND / 2.0

  /** The colour of a far (second-tier) connection: `v2c(DARK)`. */
  const DARK_LINE: Color := V2C(DARK)

  /** The palette after the casts: COLOR_DARK is DARKBLUE scaled by 0.3 and
      truncated, and `v2c(DARK)` gives it back. */
  lemma ConstantValues()
    ensures COLOR_DARK == Color(0, 24, 51, 255)
    ensures DARK == Vector3(0.0, 24.0, 51.0) && LIGHT == Vector3(0.0, 121.0, 241.0)
    ensures DARK_LINE == Color(0, 24, 51, 255)
    ensures LATERAL_BOUND == 10.0
  {
    ToByteExact(0.3 * 82.0, 24);
    ToByteExact(0.3 * 172.0, 51);
  }

  // ---------------------------------------------------------------------
  // Spheres
  // ---------------------------------------------------------------------

  /** The `Sphere` struct. */
  datatype Sphere = Sphere(position: Vector3, velocity: Vector3, radius: real, color: Color, connectable: bool)

  /** A line that `draw` emits between spheres `i` and `j`. */
  datatype Line = Line(i: nat, j: nat, color: Color)

  /** The three axes a fade can follow: template argument 0, 1, or any
      other value (depth). */
  datatype Axis = X | Y | Depth

  function Abs(x: real): (a: real)
    ensures a >= 0.0 && (a == x || a == -x)
  {
    if x < 0.0 then -x else x
  }

  /** The box every sphere is in after each update: |x| <= 10, |y| <= 10,
      -50 <= z <= 10. */
  function InBox(p: Vector3): (inBox: bool)
    ensures inBox <==> Wrapped(p.x, LATERAL_BOUND) == p.x && Wrapped(p.y, LATERAL_BOUND) == p.y
                       && DepthWrapped(p.z, CUBE_ZMIN, CUBE_ZMAX) == p.z
  {
    Abs(p.x) <= LATERAL_BOUND && Abs(p.y) <= LATERAL_BOUND && CUBE_ZMIN <= p.z <= CUBE_ZMAX
  }

  // ---------------------------------------------------------------------
  // Wall handling (bounce and zbounce, main.cpp:115-131)
  // ---------------------------------------------------------------------

  /** The lateral coordinate that `bounce` leaves: one beyond a wall moves
      to the opposite wall. */
  function Wrapped(pos: real, bound: real): (p: real)
    ensures bound >= 0.0 ==> Abs(p) <= bound
  {
    if Abs(pos) > bound then (if pos > bound then -bound else bound) else pos
  }

  /** `bounce` wraps rather than clamps: past +bound gives exactly -bound,
      past -bound gives exactly +bound, and inside nothing moves; applying
      it twice is applying it once. */
  lemma WrappedCases(pos: real, bound: real)
    requires bound >= 0.0
    ensures pos > bound ==> Wrapped(pos, bound) == -bound
    ensures pos < -bound ==> Wrapped(pos, bound) == bound
    ensures -bound <= pos <= bound ==> Wrapped(pos, bound) == pos
    ensures Wrapped(Wrapped(pos, bound), bound) == Wrapped(pos, bound)
  {
  }

  /** The depth that `zbounce` leaves: above the top it moves to the
      bottom, below the bottom to the top. */
  function DepthWrapped(z: real, boundMin: real, boundMax: real): (d: real)
    ensures boundMin <= boundMax ==> boundMin <= d <= boundMax
  {
    if z > boundMax then boundMin else if z < boundMin then boundMax else z
  }

  /** `zbounce` is exact and idempotent. */
  lemma DepthWrappedCases(z: real, boundMin: real, boundMax: real)
    requires boundMin <= boundMax
    ensures z > boundMax ==> DepthWrapped(z, boundMin, boundMax) == boundMin
    ensures z < boundMin ==> DepthWrapped(z, boundMin, boundMax) == boundMax
    ensures boundMin <= z <= boundMax ==> DepthWrapped(z, boundMin, boundMax) == z
    ensures DepthWrapped(DepthWrapped(z, boundMin, boundMax), boundMin, boundMax)
         == DepthWrapped(z, boundMin, boundMax)
  {
  }

  // ---------------------------------------------------------------------
  // Depth colouring (main.cpp:200)
  // ---------------------------------------------------------------------

  /** The red channel `update` assigns: the depth mapped linearly from
      [CUBE_ZMIN, CUBE_ZMAX] onto [0, 255] and truncated (not rounded). */
  function DepthRed(z: real): (red: Byte)
    requires CUBE_ZMIN <= z <= CUBE_ZMAX
    ensures red == ((z + 50.0) / 60.0 * 255.0).Floor
  {
    ToByte((z - CUBE_ZMIN) / (CUBE_ZMAX - CUBE_ZMIN) * 255.0)
  }

  /** A deeper sphere never gets a larger red channel than a shallower one. */
  lemma DepthRedMonotone(z1: real, z2: real)
    requires CUBE_ZMIN <= z1 <= z2 <= CUBE_ZMAX
    ensures DepthRed(z1) <= DepthRed(z2)
  {
    ToByteMonotone((z1 - CUBE_ZMIN) / (CUBE_ZMAX - CUBE_ZMIN) * 255.0,
                   (z2 - CUBE_ZMIN) / (CUBE_ZMAX - CUBE_ZMIN) * 255.0);
  }

  /** The bottom of the box is red 0, the top 255, and the mapping
      truncates: at depth -49.8 the exact value 0.85 gives 0, not 1. */
  lemma DepthRedPoints()
    ensures DepthRed(CUBE_ZMIN) == 0 && DepthRed(CUBE_ZMAX) == 255
    ensures DepthRed(-49.8) == 0
  {
  }

  // ---------------------------------------------------------------------
  // One sphere's update (the body of the loop in main.cpp:188-201)
  // ---------------------------------------------------------------------

  /** What `update` does to one sphere: move by the velocity, become
      connectable, wrap x and y at +-10 and z at [-50, 10], and take the red
      channel from the new depth. Whatever the old state, the result is in
      the box, and velocity, radius and the other channels are untouched. */
  function Step(s: Sphere): (t: Sphere)
    ensures InBox(t.position)
    ensures t.velocity == s.velocity && t.radius == s.radius && t.connectable
    ensures t.color.g == s.color.g && t.color.b == s.color.b && t.color.a == s.color.a
    ensures t.color.r == DepthRed(t.position.z)
  {
    var moved := Plus(s.position, s.velocity);
    var p := Vector3(Wrapped(moved.x, LATERAL_BOUND), Wrapped(moved.y, LATERAL_BOUND),
                     DepthWrapped(moved.z, CUBE_ZMIN, CUBE_ZMAX));
    s.(position := p, connectable := true, color := s.color.(r := DepthRed(p.z)))
  }

  /** The new position is the per-axis wrap of position plus velocity. */
  lemma StepPosition(s: Sphere)
    ensures Step(s).position.x == Wrapped(s.position.x + s.velocity.x, LATERAL_BOUND)
    ensures Step(s).position.y == Wrapped(s.position.y + s.velocity.y, LATERAL_BOUND)
    ensures Step(s).position.z == DepthWrapped(s.position.z + s.velocity.z, CUBE_ZMIN, CUBE_ZMAX)
  {
  }

  /** A sphere on a lateral wall that keeps moving outward does not stay
      there: the next step puts it on the opposite wall. */
  lemma LateralWallWrapsAround(s: Sphere)
    requires s.position.x == LATERAL_BOUND && s.velocity.x > 0.0
    ensures Step(s).position.x == -LATERAL_BOUND
  {
  }

  /** A sphere leaving the depth range reappears exactly on the other end. */
  lemma DepthWrapsExactly(s: Sphere)
    ensures s.position.z + s.velocity.z > CUBE_ZMAX ==> Step(s).position.z == CUBE_ZMIN
    ensures s.position.z + s.velocity.z < CUBE_ZMIN ==> Step(s).position.z == CUBE_ZMAX
  {
  }

  // ---------------------------------------------------------------------
  // Construction (main.cpp:91-113)
  // ---------------------------------------------------------------------

  /** `1 - 2 * draw` times a magnitude: a bernoulli draw of true makes the
      component negative. */
  function Signed(draw: bool, magnitude: real): (v: real)
    ensures Abs(v) == Abs(magnitude)
    ensures magnitude > 0.0 ==> (v < 0.0 <==> draw)
  {
    if draw then -magnitude else magnitude
  }

  /** What the constructor promises of each sphere it creates: lateral
      position in [-10, 10), depth in [-50, 10), lateral speed in
      [0.01, 0.02) and depth speed in [0.02, 0.08) with either sign, radius
      0.5, colour COLOR_LIGHT, connectable. */
  function Spawned(s: Sphere): (spawned: bool)
    ensures spawned ==> InBox(s.position)
  {
    && -LATERAL_BOUND <= s.position.x < LATERAL_BOUND
    && -LATERAL_BOUND <= s.position.y < LATERAL_BOUND
    && CUBE_ZMIN <= s.position.z < CUBE_ZMAX
    && MIN_SPEED <= Abs(s.velocity.x) < MAX_SPEED
    && MIN_SPEED <= Abs(s.velocity.y) < MAX_SPEED
    && 2.0 * MIN_SPEED <= Abs(s.velocity.z) < 4.0 * MAX_SPEED
    && s.radius == SPHERE_RADIUS && s.color == SPHERE_COLOR && s.connectable
  }

  // ---------------------------------------------------------------------
  // Connections (the pair loop of draw, main.cpp:211-229)
  // ---------------------------------------------------------------------

  function Square(a: real): (sq: real)
    ensures sq >= 0.0
  {
    a * a
  }

  lemma SquareNeg(a: real)
    ensures Square(a) == Square(-a)
  {
  }

  /** The squared distance `draw` computes, from p1 to p2. */
  function DistanceSqr(p1: Vector3, p2: Vector3): (d: real)
    ensures d >= 0.0
  {
    Square(p2.x - p1.x) + Square(p2.y - p1.y) + Square(p2.z - p1.z)
  }

  lemma DistanceSqrSymmetric(p1: Vector3, p2: Vector3)
    ensures DistanceSqr(p1, p2) == DistanceSqr(p2, p1)
  {
    SquareNeg(p2.x - p1.x);
    SquareNeg(p2.y - p1.y);
    SquareNeg(p2.z - p1.z);
  }

  /** A line joins two spheres exactly when both are connectable and their
      squared distance is at most the squared threshold; the decision is the
      same with the pair swapped, and a sphere that is not connectable is
      never joined. */
  function Connected(a: Sphere, b: Sphere, thresholdSqr: real): (joined: bool)
    ensures joined <==> b.connectable && a.connectable && DistanceSqr(b.position, a.position) <= thresholdSqr
  {
    DistanceSqrSymmetric(a.position, b.position);
    a.connectable && b.connectable && DistanceSqr(a.position, b.position) <= thresholdSqr
  }

  /** The colour of the line: the mean of the two colours within 0.9 of the
      squared threshold, the dark line colour (0, 24, 51) beyond; either
      way the same with the pair swapped. */
  function LineColor(a: Sphere, b: Sphere, thresholdSqr: real): (c: Color)
    ensures DistanceSqr(b.position, a.position) <= 0.9 * thresholdSqr ==> c == ColorMean(b.color, a.color)
    ensures DistanceSqr(b.position, a.position) > 0.9 * thresholdSqr ==> c == Color(0, 24, 51, 255)
  {
    DistanceSqrSymmetric(a.position, b.position);
    ColorMeanCommutes(a.color, b.color);
    ConstantValues();
    if DistanceSqr(a.position, b.position) <= 0.9 * thresholdSqr then ColorMean(a.color, b.color)
    else DARK_LINE
  }

  /** The decision and the tier do not depend on the order of the pair. */
  lemma ConnectionSymmetric(a: Sphere, b: Sphere, thresholdSqr: real)
    ensures Connected(a, b, thresholdSqr) == Connected(b, a, thresholdSqr)
    ensures LineColor(a, b, thresholdSqr) == LineColor(b, a, thresholdSqr)
  {
    DistanceSqrSymmetric(a.position, b.position);
    ColorMeanCommutes(a.color, b.color);
  }

  /** Threshold 5: at distance 3 the near tier, at 4.9 the far tier, at
      5.1 no line. */
  lemma ConnectionTiers(a: Sphere, b: Sphere, c: Sphere, d: Sphere)
    requires a.connectable && b.connectable && c.connectable && d.connectable
    requires a.position == Vector3(0.0, 0.0, 0.0) && b.position == Vector3(3.0, 0.0, 0.0)
    requires c.position == Vector3(4.9, 0.0, 0.0) && d.position == Vector3(5.1, 0.0, 0.0)
    ensures Connected(a, b, 25.0) && LineColor(a, b, 25.0) == ColorMean(a.color, b.color)
    ensures Connected(a, c, 25.0) && LineColor(a, c, 25.0) == DARK_LINE
    ensures !Connected(a, d, 25.0)
  {
    OnXAxis(a, b, 3.0);
    OnXAxis(a, c, 4.9);
    OnXAxis(a, d, 5.1);
  }

  /** Two spheres `x` apart along the x axis are `x * x` apart squared. */
  lemma OnXAxis(a: Sphere, b: Sphere, x: real)
    requires a.position == Vector3(0.0, 0.0, 0.0) && b.position == Vector3(x, 0.0, 0.0)
    ensures DistanceSqr(a.position, b.position) == x * x
  {
  }

  /** Some line of `lines` joins spheres i and j. */
  ghost predicate Emitted(lines: seq<Line>, i: nat, j: nat)
  {
    exists k :: 0 <= k < |lines| && lines[k].i == i && lines[k].j == j
  }

  /** The order in which `draw` visits pairs: by i, then by j. */
  predicate PairBefore(l1: Line, l2: Line)
  {
    l1.i < l2.i || (l1.i == l2.i && l1.j < l2.j)
  }

  lemma EmittedAppend(lines: seq<Line>, line: Line)
    ensures Emitted(lines + [line], line.i, line.j)
    ensures forall i: nat, j: nat :: Emitted(lines, i, j) ==> Emitted(lines + [line], i, j)
  {
    assert (lines + [line])[|lines|] == line;
    forall i: nat, j: nat | Emitted(lines, i, j) ensures Emitted(lines + [line], i, j) {
      var k :| 0 <= k < |lines| && lines[k].i == i && lines[k].j == j;
      assert (lines + [line])[k] == lines[k];
    }
  }

  // ---------------------------------------------------------------------
  // Fading (fadeInOut, main.cpp:133-180)
  // ---------------------------------------------------------------------

  /** The fraction `sf` of the fade band: `num / den` for a numerator
      between 0 and the band width (either sign), which lies in [0, 1). */
  function FadeFraction(num: real, den: real): (sf: real)
    requires (0.0 <= num < den) || (den < num <= 0.0)
    ensures 0.0 <= sf < 1.0
  {
    if den > 0.0 then
      QuotientBelowOne(num, den);
      num / den
    else
      QuotientBelowOne(-num, -den);
      assert (-num) / (-den) == num / den;
      num / den
  }

  /** `sf` is the share of the band width that `num` covers. */
  lemma FadeFractionOfWidth(num: real, den: real)
    requires (0.0 <= num < den) || (den < num <= 0.0)
    ensures FadeFraction(num, den) * den == num
  {
  }

  lemma QuotientBelowOne(num: real, den: real)
    requires 0.0 <= num < den
    ensures 0.0 <= num / den < 1.0
  {
    var q := num / den;
    assert q * den == num;
  }

  /** The interpolated colour: DARK plus `sf` times LIGHT - DARK, cast. */
  function Blend(sf: real): (c: Color)
    requires 0.0 <= sf < 1.0
    ensures COLOR_DARK.r <= c.r <= COLOR_LIGHT.r
    ensures COLOR_DARK.g <= c.g <= COLOR_LIGHT.g
    ensures COLOR_DARK.b <= c.b <= COLOR_LIGHT.b
    ensures c.a == 255
    ensures sf == 0.0 ==> c == COLOR_DARK
  {
    ConstantValues();
    BlendVector(sf);
    V2C(Plus(DARK, Scale(Minus(LIGHT, DARK), sf)))
  }

  lemma BlendVector(sf: real)
    requires 0.0 <= sf < 1.0
    ensures Plus(DARK, Scale(Minus(LIGHT, DARK), sf)) == Vector3(0.0, 24.0 + sf * 97.0, 51.0 + sf * 190.0)
  {
    PaletteVectors();
    BlendComponents(DARK, LIGHT, sf);
  }

  /** The farther into the band (the larger `sf`), the lighter the colour. */
  lemma BlendMonotone(sf1: real, sf2: real)
    requires 0.0 <= sf1 <= sf2 < 1.0
    ensures Blend(sf1).g <= Blend(sf2).g && Blend(sf1).b <= Blend(sf2).b
  {
    BlendVector(sf1);
    BlendVector(sf2);
    ToByteMonotone(24.0 + sf1 * 97.0, 24.0 + sf2 * 97.0);
    ToByteMonotone(51.0 + sf1 * 190.0, 51.0 + sf2 * 190.0);
  }

  lemma BlendComponents(dark: Vector3, light: Vector3, sf: real)
    requires dark == Vector3(0.0, 24.0, 51.0) && light == Vector3(0.0, 121.0, 241.0)
    ensures Plus(dark, Scale(Minus(light, dark), sf)) == Vector3(0.0, 24.0 + sf * 97.0, 51.0 + sf * 190.0)
  {
  }

  /** COLOR_DARK is no lighter than COLOR_LIGHT in any channel; both have
      no red and are opaque. */
  lemma PaletteOrdered()
    ensures COLOR_DARK.r == 0 && COLOR_LIGHT.r == 0 && COLOR_DARK.a == 255 && COLOR_LIGHT.a == 255
    ensures COLOR_DARK.g <= COLOR_LIGHT.g && COLOR_DARK.b <= COLOR_LIGHT.b
  {
    ConstantValues();
  }

  /** The vectors DARK and LIGHT. */
  lemma PaletteVectors()
    ensures DARK == Vector3(0.0, 24.0, 51.0) && LIGHT == Vector3(0.0, 121.0, 241.0)
  {
    ConstantValues();
  }

  /** The coordinate a fade follows. */
  function Coordinate(p: Vector3, axis: Axis): real
  {
    match axis
    case X => p.x
    case Y => p.y
    case Depth => p.z
  }

  // ---------------------------------------------------------------------
  // The scene (class Scene, main.cpp:85-241)
  // ---------------------------------------------------------------------

  class Scene {
    var spheres: seq<Sphere>
    var connectionThresholdSqr: real

    /** Every sphere is inside the box. */
    ghost predicate Valid()
      reads this
    {
      forall k :: 0 <= k < |spheres| ==> InBox(spheres[k].position)
    }

    /** `Scene(numSpheres, threshold)`: `numSpheres` spheres (none when it
        is not positive), each with random position and velocity inside
        the ranges of its distributions, and the squared threshold. The
        random draws are arbitrary values in those ranges. */
    constructor (numSpheres: int, threshold: real)
      ensures connectionThresholdSqr == threshold * threshold
      ensures |spheres| == if numSpheres <= 0 then 0 else numSpheres
      ensures forall k :: 0 <= k < |spheres| ==> Spawned(spheres[k])
      ensures Valid()
    {
      connectionThresholdSqr := threshold * threshold;
      spheres := [];
      new;
      var i := 0;
      while i < numSpheres
        invariant 0 <= i && |spheres| == i
        invariant numSpheres > 0 ==> i <= numSpheres
        invariant numSpheres <= 0 ==> i == 0
        invariant connectionThresholdSqr == threshold * threshold
        invariant forall k :: 0 <= k < |spheres| ==> Spawned(spheres[k])
      {
        var px := Uniform(-LATERAL_BOUND, LATERAL_BOUND);
        var py := Uniform(-LATERAL_BOUND, LATERAL_BOUND);
        var pz := Uniform(CUBE_ZMIN, CUBE_ZMAX);
        var sx := Bernoulli();
        var sy := Bernoulli();
        var sz := Bernoulli();
        var vx := Uniform(MIN_SPEED, MAX_SPEED);
        var vy := Uniform(MIN_SPEED, MAX_SPEED);
        var vz := Uniform(2.0 * MIN_SPEED, 4.0 * MAX_SPEED);
        var sphere := Sphere(Vector3(px, py, pz), Vector3(Signed(sx, vx), Signed(sy, vy), Signed(sz, vz)),
                             SPHERE_RADIUS, SPHERE_COLOR, true);
        spheres := spheres + [sphere];
        i := i + 1;
      }
    }

    /** `bounce(pos, vel, bound)`: the new `pos` and `vel` (the source passes
        both by reference); a coordinate beyond a wall goes to the opposite
        wall, and the velocity is never changed. */
    method Bounce(pos: real, vel: real, bound: real) returns (newPos: real, newVel: real)
      ensures newVel == vel
      ensures newPos == Wrapped(pos, bound)
      ensures bound >= 0.0 ==> -bound <= newPos <= bound
    {
      newPos, newVel := pos, vel;
      if Abs(pos) > bound {
        newPos := if pos > bound then -bound else bound;
      }
    }

    /** `zbounce(sphere, boundMin, boundMax)`: only the depth changes, to the
        other end of the range when it has left it. */
    method ZBounce(sphere: Sphere, boundMin: real, boundMax: real) returns (s: Sphere)
      ensures s == sphere.(position := sphere.position.(z := DepthWrapped(sphere.position.z, boundMin, boundMax)))
      ensures boundMin <= boundMax ==> boundMin <= s.position.z <= boundMax
    {
      s := sphere;
      if sphere.position.z > boundMax {
        s := s.(position := s.position.(z := boundMin));
      } else if sphere.position.z < boundMin {
        s := s.(position := s.position.(z := boundMax));
      }
    }

    /** `fadeInOut<axis>(sphere, rimStart, rimEnd)`. On a lateral axis the
        distance from the centre plane decides: beyond rimEnd the sphere is
        dark and not connectable, between rimStart and rimEnd its colour is
        interpolated, nearer it is light. On depth, a non-negative z is
        light; a negative one is dark and not connectable below rimEnd,
        interpolated below rimStart, light otherwise. Only the colour and
        the flag change, and the flag is never set. */
    method FadeInOut(sphere: Sphere, rimStart: real, rimEnd: real, axis: Axis := Depth) returns (s: Sphere)
      ensures s.position == sphere.position && s.velocity == sphere.velocity && s.radius == sphere.radius
      ensures s.connectable ==> sphere.connectable
      ensures s.connectable != sphere.connectable ==> s.color == COLOR_DARK
      ensures COLOR_DARK.g <= s.color.g <= COLOR_LIGHT.g && COLOR_DARK.b <= s.color.b <= COLOR_LIGHT.b
      ensures s.color.r == 0 && s.color.a == 255
      ensures axis != Depth ==> var pos := Abs(Coordinate(sphere.position, axis));
        && (pos > rimEnd ==> s.color == COLOR_DARK && !s.connectable)
        && (rimStart < pos <= rimEnd ==>
              s.color == Blend(FadeFraction(rimEnd - pos, rimEnd - rimStart)) && s.connectable == sphere.connectable)
        && (pos <= rimStart && pos <= rimEnd ==> s.color == COLOR_LIGHT && s.connectable == sphere.connectable)
      ensures axis == Depth ==> var z := sphere.position.z;
        && (z >= 0.0 ==> s.color == COLOR_LIGHT && s.connectable == sphere.connectable)
        && (z < 0.0 && z < rimEnd ==> s.color == COLOR_DARK && !s.connectable)
        && (z < 0.0 && rimEnd <= z < rimStart ==>
              s.color == Blend(FadeFraction(rimEnd - z, rimEnd - rimStart)) && s.connectable == sphere.connectable)
        && (z < 0.0 && rimEnd <= z && rimStart <= z ==> s.color == COLOR_LIGHT && s.connectable == sphere.connectable)
    {
      PaletteOrdered();
      s := sphere;
      var rimWidth := rimEnd - rimStart;
      if axis != Depth {
        var pos := Abs(Coordinate(sphere.position, axis));
        if pos > rimEnd {
          s := s.(color := COLOR_DARK, connectable := false);
        } else if pos > rimStart {
          var sf := FadeFraction(rimEnd - pos, rimWidth);
          s := s.(color := Blend(sf));
        } else {
          s := s.(color := COLOR_LIGHT);
        }
      } else {
        var z := sphere.position.z;
        if z < 0.0 {
          if z < rimEnd {
            s := s.(color := COLOR_DARK, connectable := false);
          } else if z < rimStart {
            var sf := FadeFraction(rimEnd - z, rimWidth);
            s := s.(color := Blend(sf));
          } else {
            s := s.(color := COLOR_LIGHT);
          }
        } else {
          s := s.(color := COLOR_LIGHT);
        }
      }
    }

    /** `update()`: every sphere takes one `Step`, in place; the number of
        spheres and the threshold stay, and afterwards all are in the box. */
    method Update()
      modifies this
      ensures connectionThresholdSqr == old(connectionThresholdSqr)
      ensures |spheres| == |old(spheres)|
      ensures forall k :: 0 <= k < |spheres| ==> spheres[k] == Step(old(spheres)[k])
      ensures Valid()
    {
      var i := 0;
      while i < |spheres|
        invariant 0 <= i <= |spheres| == |old(spheres)|
        invariant connectionThresholdSqr == old(connectionThresholdSqr)
        invariant forall k :: 0 <= k < i ==> spheres[k] == Step(old(spheres)[k])
        invariant forall k :: i <= k < |spheres| ==> spheres[k] == old(spheres)[k]
      {
        var sphere := spheres[i];
        sphere := sphere.(position := Plus(sphere.position, sphere.velocity));
        sphere := sphere.(connectable := true);
        var x, vx := Bounce(sphere.position.x, sphere.velocity.x, CUBE_BOUND / 2.0);
        var y, vy := Bounce(sphere.position.y, sphere.velocity.y, CUBE_BOUND / 2.0);
        sphere := sphere.(position := Vector3(x, y, sphere.position.z),
                          velocity := Vector3(vx, vy, sphere.velocity.z));
        sphere := ZBounce(sphere, CUBE_ZMIN, CUBE_ZMAX);
        sphere := sphere.(color := sphere.color.(r := DepthRed(sphere.position.z)));
        spheres := spheres[i := sphere];
        i := i + 1;
      }
    }

    /** Line `line` joins two distinct spheres of the scene, in index
        order, that are connected, and has their tier's colour. */
    predicate Joins(line: Line)
      reads this
    {
      && line.i < line.j < |spheres|
      && Connected(spheres[line.i], spheres[line.j], connectionThresholdSqr)
      && line.color == LineColor(spheres[line.i], spheres[line.j], connectionThresholdSqr)
    }

    /** Every line joins a connected pair of this scene, with its colour. */
    predicate AllJoin(lines: seq<Line>)
      reads this
    {
      forall k :: 0 <= k < |lines| ==> Joins(lines[k])
    }

    /** Every connected pair (p, q) that `draw` visits before (i, j) has a
        line in `lines`. */
    ghost predicate CoveredBefore(lines: seq<Line>, i: nat, j: nat)
      reads this
    {
      forall p, q ::
        0 <= p < q < |spheres| && (p < i || (p == i && q < j)) && Connected(spheres[p], spheres[q], connectionThresholdSqr)
        ==> Emitted(lines, p, q)
    }

    /** The connection pass of `draw()`: the lines it draws, in the order it
        draws them. A pair i < j gets a line exactly when both spheres are
        connectable and within the threshold, each pair at most once, with
        the colour of its tier; the spheres themselves are not drawn here. */
    method Draw() returns (lines: seq<Line>)
      ensures forall k :: 0 <= k < |lines| ==> Joins(lines[k])
      ensures forall i, j :: 0 <= i < j < |spheres| && Connected(spheres[i], spheres[j], connectionThresholdSqr)
                ==> Emitted(lines, i, j)
      ensures forall k, l :: 0 <= k < l < |lines| ==> PairBefore(lines[k], lines[l])
    {
      lines := [];
      for i := 0 to |spheres|
        invariant AllJoin(lines) && InVisitOrder(lines) && LinesBefore(lines, i, 0)
        invariant CoveredBefore(lines, i, 0)
      {
        if !spheres[i].connectable {
          continue;
        }
        for j := i + 1 to |spheres|
          invariant AllJoin(lines) && InVisitOrder(lines) && LinesBefore(lines, i, j)
          invariant CoveredBefore(lines, i, j)
        {
          if !spheres[j].connectable {
            continue;
          }
          var p1 := spheres[i].position;
          var p2 := spheres[j].position;
          var distanceSqr := DistanceSqr(p1, p2);
          if distanceSqr <= connectionThresholdSqr {
            var color := if distanceSqr <= 0.9 * connectionThresholdSqr
                         then ColorMean(spheres[i].color, spheres[j].color)
                         else DARK_LINE;
            var line := Line(i, j, color);
            AppendInOrder(lines, line);
            lines := lines + [line];
          }
        }
      }
    }
  }

  /** Every line comes strictly before the next in visiting order. */
  predicate InVisitOrder(lines: seq<Line>)
  {
    forall k, l :: 0 <= k < l < |lines| ==> PairBefore(lines[k], lines[l])
  }

  /** Every line comes before pair (i, j) in visiting order. */
  predicate LinesBefore(lines: seq<Line>, i: nat, j: nat)
  {
    forall k :: 0 <= k < |lines| ==> lines[k].i < i || (lines[k].i == i && lines[k].j < j)
  }

  /** Appending the line of the pair being visited keeps the order, moves
      the position on by one, and keeps every line already emitted. */
  lemma AppendInOrder(lines: seq<Line>, line: Line)
    requires InVisitOrder(lines) && LinesBefore(lines, line.i, line.j)
    ensures InVisitOrder(lines + [line]) && LinesBefore(lines + [line], line.i, line.j + 1)
    ensures Emitted(lines + [line], line.i, line.j)
    ensures forall i: nat, j: nat :: Emitted(lines, i, j) ==> Emitted(lines + [line], i, j)
  {
    EmittedAppend(lines, line);
  }

  /** A sphere that is not connectable is in no line that `Draw` returns. */
  lemma UnconnectableInNoLine(scene: Scene, lines: seq<Line>, n: nat)
    requires forall k :: 0 <= k < |lines| ==> scene.Joins(lines[k])
    requires n < |scene.spheres| && !scene.spheres[n].connectable
    ensures forall k :: 0 <= k < |lines| ==> lines[k].i != n && lines[k].j != n
  {
  }

  /** No pair appears twice in lines drawn in visiting order. */
  lemma NoPairTwice(lines: seq<Line>)
    requires forall k, l :: 0 <= k < l < |lines| ==> PairBefore(lines[k], lines[l])
    ensures forall k, l :: 0 <= k < l < |lines| ==> (lines[k].i, lines[k].j) != (lines[l].i, lines[l].j)
  {
  }
}
