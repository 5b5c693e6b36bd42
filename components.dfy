/** The data of the simulated world: vectors, the components an entity may
    carry, and the fixed table from asteroid size to drawn scale.
    Coordinates are exact reals; the game itself stores them as f32. */
module Components {

  datatype Option<+T> = None | Some(value: T)

  /** A 2D vector (Bevy's `Vec2`). */
  datatype Vec2 = Vec2(x: real, y: real)

  /** A 3D vector (Bevy's `Vec3`), used by the render transform. */
  datatype Vec3 = Vec3(x: real, y: real, z: real)

  const Zero2: Vec2 := Vec2(0.0, 0.0)

  function Add(a: Vec2, b: Vec2): Vec2 {
    Vec2(a.x + b.x, a.y + b.y)
  }

  /** `k` times `a`, component-wise. */
  function Times(k: real, a: Vec2): Vec2 {
    Vec2(k * a.x, k * a.y)
  }

  /** The same value on all three axes (`Vec3::splat`). */
  function Splat(s: real): Vec3 {
    Vec3(s, s, s)
  }

  /** The render transform, reduced to the two parts the game writes. */
  datatype Transform = Transform(translation: Vec3, scale: Vec3)

  /** `Transform::default()`: at the origin, unit scale. */
  const DefaultTransform: Transform := Transform(Vec3(0.0, 0.0, 0.0), Splat(1.0))

  datatype AsteroidSize = Big | Medium | Small

  /** The `Asteroid` component. */
  datatype Asteroid = Asteroid(size: AsteroidSize)

  /** An entity and the components attached to it; `Ship` is a marker,
      so it is present or not. */
  datatype Entity = Entity(
    position: Option<Vec2>,
    velocity: Option<Vec2>,
    ship: bool,
    asteroid: Option<Asteroid>,
    transform: Option<Transform>)

  /** The place of a size in the order Big > Medium > Small: how many
      halvings separate it from Big. */
  function Rank(size: AsteroidSize): nat {
    match size
    case Big => 0
    case Medium => 1
    case Small => 2
  }

  function Pow2(n: nat): (p: nat)
    ensures p >= 1
  {
    if n == 0 then 1 else 2 * Pow2(n - 1)
  }

  /** The scale of the biggest asteroid. */
  const BigScale: real := 100.0

  /** The uniform scale `update_asteroid` gives an asteroid of this size:
      the big scale halved once per step down the size order. */
  function SizeScale(size: AsteroidSize): (s: real)
    ensures s * (Pow2(Rank(size)) as real) == BigScale
    ensures s > 0.0
  {
    match size
    case Big => 100.0
    case Medium => 50.0
    case Small => 25.0
  }

  /** Each step down the size order halves the scale. */
  lemma SizeScaleHalves(bigger: AsteroidSize, smaller: AsteroidSize)
    requires Rank(smaller) == Rank(bigger) + 1
    ensures SizeScale(bigger) == 2.0 * SizeScale(smaller)
  {
  }

  /** The table is strictly decreasing along Big > Medium > Small. */
  lemma SizeScaleDecreasing(a: AsteroidSize, b: AsteroidSize)
    ensures Rank(a) < Rank(b) <==> SizeScale(a) > SizeScale(b)
  {
  }
}
