/** The world `setup` creates at start-up: one ship at the origin and four
    big asteroids at random places in the window. The random draws are
    parameters; the camera, meshes, materials and window are not modelled. */
module Startup {
  import opened Components
  import opened Systems

  const WindowWidth: real := 1024.0
  const WindowHeight: real := 720.0
  const AsteroidCount: nat := 4
  /** The uniform scale of the ship's transform. */
  const ShipScale: real := 50.0

  /** A random draw of `rand::random::<f32>()`: in [0, 1). */
  predicate IsSample(r: real) {
    0.0 <= r < 1.0
  }

  /** The place of a new asteroid for the draws `rx` and `ry`. */
  function SpawnPosition(rx: real, ry: real): (p: Vec2)
    requires IsSample(rx) && IsSample(ry)
    ensures -WindowWidth / 2.0 <= p.x < WindowWidth / 2.0
    ensures -WindowHeight / 2.0 <= p.y < WindowHeight / 2.0
    ensures rx == p.x / WindowWidth + 0.5 && ry == p.y / WindowHeight + 0.5
  {
    Vec2((rx * 2.0 - 1.0) * WindowWidth / 2.0, (ry * 2.0 - 1.0) * WindowHeight / 2.0)
  }

  /** Every point of the window, left and bottom edges included and right
      and top edges excluded, is a possible asteroid place. */
  lemma SpawnCoversWindow(x: real, y: real)
    requires -WindowWidth / 2.0 <= x < WindowWidth / 2.0
    requires -WindowHeight / 2.0 <= y < WindowHeight / 2.0
    ensures exists rx, ry :: IsSample(rx) && IsSample(ry) && SpawnPosition(rx, ry) == Vec2(x, y)
  {
    var rx, ry := x / WindowWidth + 0.5, y / WindowHeight + 0.5;
    assert SpawnPosition(rx, ry) == Vec2(x, y);
  }

  /** The ship as spawned: at rest at the origin, drawn at scale 50. */
  function ShipSpawn(): Entity {
    Entity(Some(Zero2), Some(Zero2), true, None,
           Some(DefaultTransform.(scale := Splat(ShipScale))))
  }

  /** An asteroid as spawned: big, with the shared velocity, and the
      default transform until the systems first run. */
  function AsteroidSpawn(p: Vec2, velocity: Vec2): Entity {
    Entity(Some(p), Some(velocity), false, Some(Asteroid(Big)), Some(DefaultTransform))
  }

  /** The number of entities with the `Ship` marker. */
  function Ships(w: seq<Entity>): (n: nat)
    ensures n <= |w|
    decreases |w|
  {
    if w == [] then 0 else Ships(w[..|w| - 1]) + (if w[|w| - 1].ship then 1 else 0)
  }

  /** The number of entities with an `Asteroid` component. */
  function Asteroids(w: seq<Entity>): (n: nat)
    ensures n <= |w|
    decreases |w|
  {
    if w == [] then 0 else Asteroids(w[..|w| - 1]) + (if w[|w| - 1].asteroid.Some? then 1 else 0)
  }

  /** `setup`: spawns the ship, then four asteroids. `samples` are the
      eight random draws in the order they are made, the x draw of each
      asteroid before its y draw; `asteroidVelocity` stands for the
      normalised diagonal times ASTEROID_VELOCITY, one value for all four. */
  method Setup(samples: seq<real>, asteroidVelocity: Vec2) returns (world: seq<Entity>)
    requires |samples| == 2 * AsteroidCount
    requires forall i :: 0 <= i < |samples| ==> IsSample(samples[i])
    ensures |world| == 1 + AsteroidCount
    ensures Ships(world) == 1 && Asteroids(world) == AsteroidCount
    ensures forall i :: 0 <= i < |world| ==> world[i].ship != world[i].asteroid.Some?
    ensures forall i :: 0 <= i < |world| && world[i].ship ==>
              world[i].position == Some(Zero2) && world[i].velocity == Some(Zero2) &&
              world[i].transform == Some(Transform(Vec3(0.0, 0.0, 0.0), Splat(ShipScale)))
    ensures forall i :: 0 <= i < |world| && world[i].asteroid.Some? ==>
              world[i].asteroid.value.size == Big && world[i].velocity == Some(asteroidVelocity) &&
              world[i].transform == Some(DefaultTransform)
    ensures forall k :: 0 <= k < AsteroidCount ==>
              world[1 + k].asteroid.Some? &&
              world[1 + k].position == Some(SpawnPosition(samples[2 * k], samples[2 * k + 1]))
  {
    world := [ShipSpawn()];
    for k := 0 to AsteroidCount
      invariant |world| == 1 + k
      invariant world[0] == ShipSpawn()
      invariant forall i :: 1 <= i <= k ==>
                  world[i] == AsteroidSpawn(SpawnPosition(samples[2 * i - 2], samples[2 * i - 1]), asteroidVelocity)
      invariant Ships(world) == 1 && Asteroids(world) == k
    {
      var p := SpawnPosition(samples[2 * k], samples[2 * k + 1]);
      var e := AsteroidSpawn(p, asteroidVelocity);
      var next := world + [e];
      assert next[..|next| - 1] == world;
      world := next;
    }
  }

  /** The ship of the initial world never moves: no system writes a
      velocity, and the ship starts at rest at the origin. */
  lemma ShipStaysAtOrigin(world: seq<Entity>, schedule: seq<System>, i: nat)
    requires i < |world| && world[i].ship
    requires world[i].position == Some(Zero2) && world[i].velocity == Some(Zero2)
    ensures Run(world, schedule)[i].ship
    ensures Run(world, schedule)[i].position == Some(Zero2)
  {
    StillEntityStaysPut(world, schedule, i);
    RunKeepsVelocity(world, schedule, i);
  }
}
