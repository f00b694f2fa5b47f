/**
 * Level goals: the goal's looping animation, and victory, which moves the
 * level selection on when the player touches a goal.
 */
module Goals {
  import opened Game

  /** The marker component of goal entities. */
  datatype Goal = Goal

  /**
   * A sprite sheet animation: the frames `firstFrame` up to but excluding
   * `endFrame`, whether it loops, and its frame timer's period and whether the
   * timer repeats.
   */
  datatype SpriteSheetAnimation = SpriteSheetAnimation(
    firstFrame: nat,
    endFrame: nat,
    repeat: bool,
    frameSeconds: real,
    timerRepeats: bool)

  /** A goal loops over the six frames 72 to 77, one every fifth of a second. */
  function GoalAnimation(g: Goal): (r: SpriteSheetAnimation)
    ensures r.firstFrame == 72 && r.endFrame - r.firstFrame == 6
    ensures r.repeat && r.timerRepeats
    ensures r.frameSeconds == 0.2
  {
    SpriteSheetAnimation(72, 78, true, 0.2, true)
  }

  /** A collision starting between a player and a goal, in either order. */
  predicate ReachesGoal(e: CollisionEvent, players: set<Entity>, goals: set<Entity>) {
    && e.Started?
    && ((e.a in players && e.b in goals) || (e.b in players && e.a in goals))
  }

  /** The number of goal contacts in a batch of collision events. */
  function GoalContacts(events: seq<CollisionEvent>, players: set<Entity>, goals: set<Entity>): (n: nat)
    ensures n <= |events|
  {
    if events == [] then 0
    else
      GoalContacts(events[..|events| - 1], players, goals)
      + (if ReachesGoal(events[|events| - 1], players, goals) then 1 else 0)
  }

  /** The selection, and the state change requested, after victory has seen some events. */
  datatype Progress = Progress(selection: LevelSelection, next: Option<GameState>)

  /** One collision event: a goal contact moves an index selection on by one and requests the preamble. */
  function Win(p: Progress, e: CollisionEvent, players: set<Entity>, goals: set<Entity>): (r: Progress)
    ensures !ReachesGoal(e, players, goals) || !p.selection.Index? ==> r == p
    ensures ReachesGoal(e, players, goals) && p.selection.Index? ==>
      r == Progress(Index(p.selection.index + 1), Some(Preamble))
  {
    if ReachesGoal(e, players, goals) then
      match p.selection
      case Index(n) => Progress(Index(n + 1), Some(Preamble))
      case _ => p
    else p
  }

  /** The effect of a batch of collision events handled in order. */
  function WinAll(p: Progress, events: seq<CollisionEvent>, players: set<Entity>, goals: set<Entity>): Progress {
    if events == [] then p
    else Win(WinAll(p, events[..|events| - 1], players, goals), events[|events| - 1], players, goals)
  }

  /**
   * `N` goal contacts advance an index selection by exactly `N`, and request
   * the preamble when `N` is positive; any other selection is left alone.
   */
  lemma {:induction false} EachGoalAdvancesOneLevel(
    p: Progress, events: seq<CollisionEvent>, players: set<Entity>, goals: set<Entity>)
    ensures var r := WinAll(p, events, players, goals);
      var n := GoalContacts(events, players, goals);
      if p.selection.Index? then
        r == Progress(Index(p.selection.index + n), if n > 0 then Some(Preamble) else p.next)
      else
        r == p
  {
    if events != [] {
      EachGoalAdvancesOneLevel(p, events[..|events| - 1], players, goals);
    }
  }

  /** The victory system, which overwrites the selection resource in place. */
  method Victory(level: CurrentLevel, events: seq<CollisionEvent>, players: set<Entity>, goals: set<Entity>)
    returns (next: Option<GameState>)
    modifies level
    ensures Progress(level.selection, next) == WinAll(Progress(old(level.selection), None), events, players, goals)
  {
    next := None;
    for i := 0 to |events|
      invariant Progress(level.selection, next) == WinAll(Progress(old(level.selection), None), events[..i], players, goals)
    {
      assert events[..i + 1][..i] == events[..i];
      match events[i]
      case Started(a, b) =>
        if (a in players && b in goals) || (b in players && a in goals) {
          if level.selection.Index? {
            level.selection := Index(level.selection.index + 1);
            next := Some(Preamble);
          }
        }
      case Stopped(_, _) =>
    }
    assert events[..|events|] == events;
  }
}
