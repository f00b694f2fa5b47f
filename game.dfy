/**
 * Types shared by every system of the game: the top-level state machine, the
 * ECS entity handles, the keyboard resource, physics collision events and the
 * LDtk level selection resource.
 */
module Game {

  datatype Option<+T> = None | Some(value: T)

  /** The loopless state machine that gates which systems run. */
  datatype GameState = AssetLoading | SpawnWorld | Gameplay | Preamble | PauseMenu

  /** An ECS entity is only ever compared for identity. */
  type Entity = nat

  datatype KeyCode = Z | X | A | D | Space | Escape | P

  /**
   * The frame's keyboard resource: the keys held down, and the keys that went
   * down during this frame.
   */
  datatype Keyboard = Keyboard(pressed: set<KeyCode>, justPressed: set<KeyCode>) {
    predicate Pressed(k: KeyCode) { k in pressed }
    predicate JustPressed(k: KeyCode) { k in justPressed }
  }

  /**
   * A collision reported by the physics engine between two colliders; the
   * engine's flags are not used by any system here.
   */
  datatype CollisionEvent = Started(a: Entity, b: Entity) | Stopped(a: Entity, b: Entity)

  /** Which level of the LDtk project is loaded. */
  datatype LevelSelection =
    | Index(index: nat)
    | Identifier(name: string)
    | Iid(iid: string)
    | Uid(uid: int)

  /** The `LevelSelection` resource, which several systems overwrite in place. */
  class CurrentLevel {
    var selection: LevelSelection

    constructor ()
      ensures selection == Index(0)
    {
      selection := Index(0);
    }
  }

  datatype Vec2 = Vec2(x: real, y: real)
  datatype Vec3 = Vec3(x: real, y: real, z: real)

  const Zero2 := Vec2(0.0, 0.0)

  /** The physics engine's velocity component; systems write `linvel` in place. */
  class Velocity {
    var linvel: Vec2

    constructor ()
      ensures linvel == Zero2
    {
      linvel := Zero2;
    }
  }
}
