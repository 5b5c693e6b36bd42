# Asteroid world: a Dafny model of the per-frame systems

The game is a small Bevy program. Its world holds a ship and four
asteroids. Every entity is a record of optional components: `Position`,
`Velocity`, the `Ship` marker, `Asteroid` (with a size of Big, Medium or
Small) and a render `Transform`. Three systems run every frame. Bevy may
run them in any order.

- `update_velocity` moves every entity that has a velocity by one explicit
  Euler step.
- `update_position` copies each position into the transform's translation,
  with z = 0.
- `update_asteroid` sets each asteroid's uniform scale from its size:
  Big 100, Medium 50, Small 25.

At start-up, `setup` spawns the ship at rest at the origin, drawn at scale
50. It then spawns four big asteroids. They share one velocity and sit at
random places in the 1024 × 720 window centred on the origin.

The model has three modules:

- `Components` (components.dfy) holds the data and the size-to-scale table.
  Coordinates are exact reals.
- `Systems` (systems.dfy) holds the three systems. Each is an in-place
  method over an `array<Entity>`. Each method is specified by a function on
  one entity. The lemmas hold for any schedule of the systems, because the
  game fixes no order between them.
- `Startup` (startup.dfy) holds `setup`. It is a method that returns the
  spawned entities. The random draws are passed in as parameters.

## Model

| member | source | states |
|---|---|---|
| `Components.SizeScale` | src/main.rs:106-114 | an asteroid's scale is 100 halved once per step down Big > Medium > Small (scale × 2^rank = 100), and is positive |
| `Components.SizeScaleHalves` | src/main.rs:108-112 | each step down the size order halves the scale |
| `Components.SizeScaleDecreasing` | src/main.rs:108-112 | the table is strictly decreasing: a size is higher in the order exactly when its scale is larger |
| `Systems.Integrated` | src/main.rs:116-120 | on one entity with position and velocity: position becomes old position + velocity, component-wise; velocity, markers and transform never change; an entity without either component is unchanged |
| `Systems.Synced` | src/main.rs:100-104 | on one entity with position and transform: translation becomes (x, y, 0); position is only read, scale and every other component are kept; an entity without either component is unchanged |
| `Systems.Resized` | src/main.rs:106-114 | on one asteroid with a transform: scale becomes the splat of its size's scale; translation and every other component are kept; other entities are unchanged |
| `Systems.UpdateVelocity` | src/main.rs:116-120 | the array afterwards is the old array with `Integrated` applied to each entity, in place |
| `Systems.UpdatePosition` | src/main.rs:100-104 | the array afterwards is the old array with `Synced` applied to each entity, in place |
| `Systems.UpdateAsteroid` | src/main.rs:106-114 | the array afterwards is the old array with `Resized` applied to each entity, in place |
| `Systems.SyncIdempotent` | src/main.rs:100-104 | running `update_position` twice gives the same world as running it once |
| `Systems.ResizeIdempotent` | src/main.rs:106-114 | running `update_asteroid` twice gives the same world as running it once |
| `Systems.ResizeCommutes` | src/main.rs:100-120 | `update_asteroid` gives the same world whether it runs before or after either other system |
| `Systems.IntegrateSyncOrder` | src/main.rs:100-120 | the order of `update_velocity` and `update_position` matters: the translation shows the new position if integration ran first, and the old one otherwise |
| `Systems.Run` | src/main.rs:15-17 | running the systems in any order never adds or removes an entity |
| `Systems.RunKeepsVelocity` | src/main.rs:100-120 | under any schedule, every entity keeps its velocity, its markers, its asteroid size, and whether it has a position |
| `Systems.RunPosition` | src/main.rs:116-120 | under any schedule, an entity starting at p with velocity v ends at p + k·v, where k is the number of `update_velocity` runs |
| `Systems.StillEntityStaysPut` | src/main.rs:116-120 | an entity with zero velocity keeps its position and its zero velocity under any schedule |
| `Startup.SpawnPosition` | src/main.rs:92-95 | for draws in [0, 1), an asteroid is placed with x in [−512, 512) and y in [−360, 360), and the draws can be recovered from the place |
| `Startup.SpawnCoversWindow` | src/main.rs:92-95 | every point of [−512, 512) × [−360, 360) is the place of some pair of draws |
| `Startup.Setup` | src/main.rs:70-97 | the initial world has 5 entities. Exactly one is a ship: at (0, 0), zero velocity, translation 0 and scale 50. Exactly four are asteroids: all Big, all with the shared velocity, the default transform, and the k-th placed from draws 2k and 2k+1. No entity is both |
| `Startup.ShipStaysAtOrigin` | src/main.rs:77-79 | a ship spawned at rest at the origin is still a ship at the origin after any schedule of the systems |

## Left out

- The app wiring and system registration are left out (src/main.rs:11-19). Bevy may run the three systems in any order, so the model runs them in any order too (`Systems.Run`). It does not run them in parallel.
- The window size call and the camera are left out (src/main.rs:65-68). They are platform I/O. The camera entity has no `Position`, so no system would touch it.
- `create_triangle`, meshes, materials and colours are left out (src/main.rs:42-55). They are rendering assets.
- `rand::random` becomes the `samples` parameter of `Startup.Setup`, each in [0, 1). The model makes no claim about the distribution.
- Startup.Setup: takes the asteroid velocity `Vec2::new(1.0, 1.0).normalize() * ASTEROID_VELOCITY` as a parameter. Exact reals have no square root, so the model only proves that the four asteroids share that one value. It does not prove that the value is the unit diagonal.
- f32 rounding is not modelled. All arithmetic is exact.
- `Transform` keeps only translation and scale. No system in the game writes its rotation, and Bevy's `GlobalTransform` is not modelled.
- The ECS query and `Commands` machinery is left out. Entity identities, deferred spawning and archetype storage become positions in a sequence of records.
- Ship controls, screen wrap-around, collisions, bullets and asteroid fragmentation are not modelled. No code for them exists in src/main.rs, so the model does not invent them.
