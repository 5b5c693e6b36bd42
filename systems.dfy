/** The three per-frame systems of the game. Each one visits every entity
    that has the components its query names and updates one component in
    place. The game registers them without an order between them, so the
    lemmas at the end hold for any schedule of them. */
module Systems {
  import opened Components

  /** `update_velocity` on one entity: one explicit Euler step,
      position += velocity, for an entity with both components. */
  function Integrated(e: Entity): (r: Entity)
    ensures r.velocity == e.velocity && r.ship == e.ship
    ensures r.asteroid == e.asteroid && r.transform == e.transform
    ensures r.position.Some? <==> e.position.Some?
    ensures e.position.Some? && e.velocity.Some? ==>
              r.position.value.x == e.position.value.x + e.velocity.value.x &&
              r.position.value.y == e.position.value.y + e.velocity.value.y
    ensures e.velocity.None? || e.position.None? ==> r == e
  {
    match (e.position, e.velocity)
    case (Some(p), Some(v)) => e.(position := Some(Add(p, v)))
    case _ => e
  }

  /** `update_position` on one entity: the translation of the transform
      becomes the position, on the plane z = 0. */
  function Synced(e: Entity): (r: Entity)
    ensures r.position == e.position && r.velocity == e.velocity
    ensures r.ship == e.ship && r.asteroid == e.asteroid
    ensures r.transform.Some? <==> e.transform.Some?
    ensures e.transform.Some? ==> r.transform.value.scale == e.transform.value.scale
    ensures e.position.Some? && e.transform.Some? ==>
              r.transform.value.translation == Vec3(e.position.value.x, e.position.value.y, 0.0)
    ensures e.position.None? || e.transform.None? ==> r == e
  {
    match (e.position, e.transform)
    case (Some(p), Some(t)) => e.(transform := Some(t.(translation := Vec3(p.x, p.y, 0.0))))
    case _ => e
  }

  /** `update_asteroid` on one entity: an asteroid's transform gets the
      uniform scale its size calls for. */
  function Resized(e: Entity): (r: Entity)
    ensures r.position == e.position && r.velocity == e.velocity
    ensures r.ship == e.ship && r.asteroid == e.asteroid
    ensures r.transform.Some? <==> e.transform.Some?
    ensures e.transform.Some? ==> r.transform.value.translation == e.transform.value.translation
    ensures e.asteroid.Some? && e.transform.Some? ==>
              r.transform.value.scale == Splat(SizeScale(e.asteroid.value.size))
    ensures e.asteroid.None? || e.transform.None? ==> r == e
  {
    match (e.asteroid, e.transform)
    case (Some(a), Some(t)) => e.(transform := Some(t.(scale := Splat(SizeScale(a.size)))))
    case _ => e
  }

  /** The systems of the game, as a value, so that schedules can be stated. */
  datatype System = VelocityToPosition | PositionToTransform | SizeToScale

  function Step(sys: System, e: Entity): Entity {
    match sys
    case VelocityToPosition => Integrated(e)
    case PositionToTransform => Synced(e)
    case SizeToScale => Resized(e)
  }

  /** The world after one run of `sys`: every entity updated on its own. */
  function Apply(sys: System, w: seq<Entity>): seq<Entity> {
    seq(|w|, i requires 0 <= i < |w| => Step(sys, w[i]))
  }

  /** `update_velocity`: advances every entity that has a velocity and a
      position, in place, and changes nothing else. */
  method UpdateVelocity(world: array<Entity>)
    modifies world
    ensures world[..] == Apply(VelocityToPosition, old(world[..]))
    ensures forall i :: 0 <= i < world.Length ==> world[i] == Integrated(old(world[i]))
  {
    for i := 0 to world.Length
      invariant forall j :: 0 <= j < i ==> world[j] == Integrated(old(world[j]))
      invariant forall j :: i <= j < world.Length ==> world[j] == old(world[j])
    {
      var e := world[i];
      if e.position.Some? && e.velocity.Some? {
        world[i] := e.(position := Some(Add(e.position.value, e.velocity.value)));
      }
    }
  }

  /** `update_position`: copies every position into the translation of
      the entity's transform, in place. */
  method UpdatePosition(world: array<Entity>)
    modifies world
    ensures world[..] == Apply(PositionToTransform, old(world[..]))
    ensures forall i :: 0 <= i < world.Length ==> world[i] == Synced(old(world[i]))
  {
    for i := 0 to world.Length
      invariant forall j :: 0 <= j < i ==> world[j] == Synced(old(world[j]))
      invariant forall j :: i <= j < world.Length ==> world[j] == old(world[j])
    {
      var e := world[i];
      if e.position.Some? && e.transform.Some? {
        var p := e.position.value;
        world[i] := e.(transform := Some(e.transform.value.(translation := Vec3(p.x, p.y, 0.0))));
      }
    }
  }

  /** `update_asteroid`: sets the scale of every asteroid's transform
      from its size, in place. */
  method UpdateAsteroid(world: array<Entity>)
    modifies world
    ensures world[..] == Apply(SizeToScale, old(world[..]))
    ensures forall i :: 0 <= i < world.Length ==> world[i] == Resized(old(world[i]))
  {
    for i := 0 to world.Length
      invariant forall j :: 0 <= j < i ==> world[j] == Resized(old(world[j]))
      invariant forall j :: i <= j < world.Length ==> world[j] == old(world[j])
    {
      var e := world[i];
      if e.asteroid.Some? && e.transform.Some? {
        var scale := Splat(SizeScale(e.asteroid.value.size));
        world[i] := e.(transform := Some(e.transform.value.(scale := scale)));
      }
    }
  }

  /** A second run of `update_position`, or of `update_asteroid`, changes
      nothing. */
  lemma SyncIdempotent(w: seq<Entity>)
    ensures Apply(PositionToTransform, Apply(PositionToTransform, w)) == Apply(PositionToTransform, w)
  {
  }

  lemma ResizeIdempotent(w: seq<Entity>)
    ensures Apply(SizeToScale, Apply(SizeToScale, w)) == Apply(SizeToScale, w)
  {
  }

  /** `update_asteroid` gives the same world whether it runs before or
      after either other system: it alone writes scale, and no system
      reads it. */
  lemma ResizeCommutes(sys: System, w: seq<Entity>)
    ensures Apply(SizeToScale, Apply(sys, w)) == Apply(sys, Apply(SizeToScale, w))
  {
  }

  /** The order of `update_velocity` and `update_position` within a frame
      is visible: the translation shows the new position when integration
      runs first and the old one otherwise. */
  lemma IntegrateSyncOrder(e: Entity)
    requires e.position.Some? && e.velocity.Some? && e.transform.Some?
    ensures Synced(Integrated(e)).transform.value.translation ==
              Vec3(e.position.value.x + e.velocity.value.x, e.position.value.y + e.velocity.value.y, 0.0)
    ensures Integrated(Synced(e)).transform.value.translation ==
              Vec3(e.position.value.x, e.position.value.y, 0.0)
  {
  }

  /** The world after running the systems in the order `schedule` gives. */
  function Run(w: seq<Entity>, schedule: seq<System>): (r: seq<Entity>)
    ensures |r| == |w|
    decreases |schedule|
  {
    if schedule == [] then w else Run(Apply(schedule[0], w), schedule[1..])
  }

  /** How many runs of `update_velocity` the schedule holds. */
  function Steps(schedule: seq<System>): (n: nat)
    ensures n <= |schedule|
    decreases |schedule|
  {
    if schedule == [] then 0
    else (if schedule[0] == VelocityToPosition then 1 else 0) + Steps(schedule[1..])
  }

  /** No system writes a velocity or a marker, and none adds or removes a
      position: whatever the schedule, each entity keeps them. */
  lemma {:induction false} RunKeepsVelocity(w: seq<Entity>, schedule: seq<System>, i: nat)
    requires i < |w|
    ensures Run(w, schedule)[i].velocity == w[i].velocity
    ensures Run(w, schedule)[i].ship == w[i].ship
    ensures Run(w, schedule)[i].asteroid == w[i].asteroid
    ensures Run(w, schedule)[i].position.Some? == w[i].position.Some?
    decreases |schedule|
  {
    if schedule != [] {
      RunKeepsVelocity(Apply(schedule[0], w), schedule[1..], i);
    }
  }

  /** Euler integration in closed form: after any schedule, an entity with
      a position p and velocity v sits at p + k*v, where k counts the runs
      of `update_velocity`; the other systems never move it. */
  lemma {:induction false} RunPosition(w: seq<Entity>, schedule: seq<System>, i: nat)
    requires i < |w| && w[i].position.Some? && w[i].velocity.Some?
    ensures Run(w, schedule)[i].position ==
              Some(Add(w[i].position.value, Times(Steps(schedule) as real, w[i].velocity.value)))
    decreases |schedule|
  {
    var p, v := w[i].position.value, w[i].velocity.value;
    if schedule == [] {
      assert Times(0.0, v) == Zero2;
    } else {
      var next := Apply(schedule[0], w);
      RunPosition(next, schedule[1..], i);
      var k := Steps(schedule[1..]) as real;
      if schedule[0] == VelocityToPosition {
        assert next[i].position.value == Add(p, v);
        assert Add(Add(p, v), Times(k, v)) == Add(p, Times(k + 1.0, v));
      } else {
        assert next[i].position.value == p;
      }
    }
  }

  /** An entity that stands still stays where it is under any schedule. */
  lemma StillEntityStaysPut(w: seq<Entity>, schedule: seq<System>, i: nat)
    requires i < |w| && w[i].position.Some? && w[i].velocity == Some(Zero2)
    ensures Run(w, schedule)[i].position == w[i].position
    ensures Run(w, schedule)[i].velocity == Some(Zero2)
  {
    RunPosition(w, schedule, i);
    RunKeepsVelocity(w, schedule, i);
    assert Times(Steps(schedule) as real, Zero2) == Zero2;
  }
}
