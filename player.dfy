/**
 * The player: the collider configuration built for each kind of LDtk entity,
 * the keyboard-driven velocity rules, and ground detection from the collision
 * events of a sensor hanging below the player.
 */
module Player {
  import opened Game

  // ---------------------------------------------------------------------------
  // Collider configuration

  datatype Shape = Ball(radius: real) | Cuboid(halfWidth: real, halfHeight: real)

  datatype RigidBody = Dynamic | Fixed | KinematicPositionBased | KinematicVelocityBased

  datatype LockedAxes = Unlocked | RotationLocked

  datatype CombineRule = Average | Min | Multiply | Max

  datatype Friction = Friction(coefficient: real, combineRule: CombineRule)

  datatype ColliderBundle = ColliderBundle(
    collider: Shape,
    rigidBody: RigidBody,
    velocity: Vec2,
    lockedAxes: LockedAxes,
    friction: Friction)

  /** The physics library's default value of each component. */
  const DefaultFriction := Friction(0.5, Average)
  const DefaultBundle := ColliderBundle(Ball(0.5), Dynamic, Zero2, Unlocked, DefaultFriction)

  /**
   * The collider an entity gets from its LDtk identifier: players are dynamic
   * and slightly grippy, platforms are moved by their velocity, and both keep
   * their rotation; every other entity gets the defaults.
   */
  function ColliderFor(identifier: string): (r: ColliderBundle)
    ensures identifier == "Player" ==>
      r == ColliderBundle(Cuboid(6.0, 14.0), Dynamic, Zero2, RotationLocked, Friction(0.1, Multiply))
    ensures identifier == "Platform" ==>
      r == ColliderBundle(Cuboid(8.0, 8.0), KinematicVelocityBased, Zero2, RotationLocked, DefaultFriction)
    ensures identifier != "Player" && identifier != "Platform" ==> r == DefaultBundle
    ensures r.lockedAxes == RotationLocked <==> identifier == "Player" || identifier == "Platform"
    ensures r.rigidBody == KinematicVelocityBased <==> identifier == "Platform"
    ensures r.velocity == Zero2
  {
    match identifier
    case "Player" =>
      DefaultBundle.(
        collider := Cuboid(6.0, 14.0),
        rigidBody := Dynamic,
        lockedAxes := RotationLocked,
        friction := Friction(0.1, Multiply))
    case "Platform" =>
      DefaultBundle.(
        collider := Cuboid(8.0, 8.0),
        rigidBody := KinematicVelocityBased,
        lockedAxes := RotationLocked)
    case _ => DefaultBundle
  }

  // ---------------------------------------------------------------------------
  // Movement

  const RunSpeed: real := 200.0
  const JumpSpeed: real := 450.0
  const FallStep: real := 10.0

  /** A jump starts only on the frame Space goes down while the player stands on ground. */
  predicate Jumps(keys: Keyboard, onGround: bool) {
    keys.JustPressed(Space) && onGround
  }

  /**
   * The player's velocity after one frame of input: D runs right, A runs
   * left, both or neither stand still, regardless of the previous horizontal
   * velocity; a jump sets the vertical velocity, otherwise gravity takes a
   * fixed step off it.
   */
  function Steered(keys: Keyboard, onGround: bool, v: Vec2): (r: Vec2)
    ensures r.x == RunSpeed || r.x == 0.0 || r.x == -RunSpeed
    ensures r.x > 0.0 <==> keys.Pressed(D) && !keys.Pressed(A)
    ensures r.x < 0.0 <==> keys.Pressed(A) && !keys.Pressed(D)
    ensures Jumps(keys, onGround) ==> r.y == JumpSpeed
    ensures !Jumps(keys, onGround) ==> r.y == v.y - FallStep
  {
    var right := if keys.Pressed(D) then 1.0 else 0.0;
    var left := if keys.Pressed(A) then 1.0 else 0.0;
    Vec2((right - left) * RunSpeed, if Jumps(keys, onGround) then JumpSpeed else v.y - FallStep)
  }

  /** Whether the player currently stands on something. */
  class GroundDetection {
    var onGround: bool

    constructor ()
      ensures !onGround
    {
      onGround := false;
    }
  }

  /** The movement system for one player. */
  method Movement(keys: Keyboard, velocity: Velocity, detection: GroundDetection)
    modifies velocity
    ensures velocity.linvel == Steered(keys, detection.onGround, old(velocity.linvel))
  {
    var right := if keys.Pressed(D) then 1.0 else 0.0;
    var left := if keys.Pressed(A) then 1.0 else 0.0;

    velocity.linvel := velocity.linvel.(x := (right - left) * RunSpeed);

    if keys.JustPressed(Space) && detection.onGround {
      velocity.linvel := velocity.linvel.(y := JumpSpeed);
    } else {
      velocity.linvel := velocity.linvel.(y := velocity.linvel.y - FallStep);
    }
  }

  // ---------------------------------------------------------------------------
  // Ground detection

  /** The other party of a collision that involves `sensor`, if it does. */
  function OtherParty(e: CollisionEvent, sensor: Entity): (r: Option<Entity>)
    ensures r.Some? <==> e.a == sensor || e.b == sensor
    ensures r.Some? ==> (e.a == sensor && r.value == e.b) || (e.b == sensor && r.value == e.a)
  {
    if e.a == sensor then Some(e.b) else if e.b == sensor then Some(e.a) else None
  }

  /**
   * One collision event's effect on the set of entities the sensor touches:
   * a contact that starts with a solid (non-sensor) collider adds it, a
   * contact that stops removes the other party whatever it is, and events
   * not involving the sensor are skipped.
   */
  function Touch(touching: set<Entity>, sensor: Entity, e: CollisionEvent, collidable: set<Entity>): (r: set<Entity>)
    ensures OtherParty(e, sensor).None? ==> r == touching
    ensures e.Started? && OtherParty(e, sensor).Some? ==>
      r == if OtherParty(e, sensor).value in collidable then touching + {OtherParty(e, sensor).value} else touching
    ensures e.Stopped? && OtherParty(e, sensor).Some? ==> r == touching - {OtherParty(e, sensor).value}
  {
    match OtherParty(e, sensor)
    case None => touching
    case Some(other) =>
      if e.Started? then
        if other in collidable then touching + {other} else touching
      else
        touching - {other}
  }

  /** The set after handling a batch of collision events in order. */
  function Touching(touching: set<Entity>, sensor: Entity, events: seq<CollisionEvent>, collidable: set<Entity>): set<Entity> {
    if events == [] then touching
    else Touch(Touching(touching, sensor, events[..|events| - 1], collidable), sensor, events[|events| - 1], collidable)
  }

  /**
   * The last event of a batch that decides whether `x` touches the sensor:
   * `Some(true)` for a start with a solid `x`, `Some(false)` for a stop, and
   * `None` when no event of the batch says anything about `x`.
   */
  function LastWord(sensor: Entity, x: Entity, events: seq<CollisionEvent>, collidable: set<Entity>): Option<bool> {
    if events == [] then None
    else
      var e := events[|events| - 1];
      if OtherParty(e, sensor) == Some(x) && (e.Stopped? || x in collidable) then Some(e.Started?)
      else LastWord(sensor, x, events[..|events| - 1], collidable)
  }

  /**
   * Membership after a batch is decided by the last event that speaks about
   * the entity; an entity no event speaks about keeps its membership.
   */
  lemma {:induction false} TouchingFollowsLastWord(
    touching: set<Entity>, sensor: Entity, events: seq<CollisionEvent>, collidable: set<Entity>, x: Entity)
    ensures x in Touching(touching, sensor, events, collidable) <==>
      match LastWord(sensor, x, events, collidable)
      case Some(starts) => starts
      case None => x in touching
  {
    if events != [] {
      TouchingFollowsLastWord(touching, sensor, events[..|events| - 1], collidable, x);
    }
  }

  /** Only solid colliders ever join the set. */
  lemma {:induction false} OnlySolidsJoin(
    touching: set<Entity>, sensor: Entity, events: seq<CollisionEvent>, collidable: set<Entity>)
    ensures Touching(touching, sensor, events, collidable) <= touching + collidable
  {
    if events != [] {
      OnlySolidsJoin(touching, sensor, events[..|events| - 1], collidable);
    }
  }

  /** The sensor hanging below a player, and the entities it currently touches. */
  class GroundSensor {
    const entity: Entity
    const detectionEntity: Entity
    var intersecting: set<Entity>

    constructor (entity: Entity, detectionEntity: Entity)
      ensures this.entity == entity && this.detectionEntity == detectionEntity
      ensures intersecting == {}
    {
      this.entity := entity;
      this.detectionEntity := detectionEntity;
      intersecting := {};
    }
  }

  /**
   * The ground detection system for one sensor: it folds the frame's
   * collision events into the sensor's set, then marks the player on ground
   * exactly when the set is non-empty. `detection` is null when the sensor's
   * owner has no ground detection component.
   */
  method DetectGround(
    sensor: GroundSensor, detection: GroundDetection?, collisions: seq<CollisionEvent>, collidable: set<Entity>)
    modifies sensor, detection
    ensures sensor.intersecting == Touching(old(sensor.intersecting), sensor.entity, collisions, collidable)
    ensures detection != null ==> detection.onGround == (sensor.intersecting != {})
  {
    for i := 0 to |collisions|
      invariant sensor.intersecting == Touching(old(sensor.intersecting), sensor.entity, collisions[..i], collidable)
    {
      assert collisions[..i + 1][..i] == collisions[..i];
      match collisions[i]
      case Started(a, b) =>
        var other;
        if a == sensor.entity {
          other := b;
        } else if b == sensor.entity {
          other := a;
        } else {
          continue;
        }
        if other in collidable {
          sensor.intersecting := sensor.intersecting + {other};
        }
      case Stopped(a, b) =>
        var other;
        if a == sensor.entity {
          other := b;
        } else if b == sensor.entity {
          other := a;
        } else {
          continue;
        }
        sensor.intersecting := sensor.intersecting - {other};
    }
    assert collisions[..|collisions|] == collisions;

    if detection != null {
      detection.onGround := |sensor.intersecting| > 0;
    }
  }
}
