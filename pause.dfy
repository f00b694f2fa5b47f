/**
 * The pause menu: entering and leaving it from the keyboard, freezing and
 * resuming the physics while it is shown, and choosing a level from it.
 */
module Pause {
  import opened Game

  /** Whether the player is alive; an input here, as no system of this model changes it. */
  datatype Vitality = Alive | Dead

  /** Both Escape and P toggle the pause menu. */
  predicate TogglePressed(keys: Keyboard) {
    keys.JustPressed(Escape) || keys.JustPressed(P)
  }

  /** The state change the pause system requests during gameplay. */
  function PauseRequest(keys: Keyboard, vitality: Vitality): (r: Option<GameState>)
    ensures r.Some? <==> TogglePressed(keys) && vitality == Alive
    ensures r.Some? ==> r.value == PauseMenu
  {
    if TogglePressed(keys) && vitality == Alive then Some(PauseMenu) else None
  }

  /** The state change the unpause system requests in the pause menu; the player's vitality plays no part. */
  function UnpauseRequest(keys: Keyboard): (r: Option<GameState>)
    ensures r.Some? <==> TogglePressed(keys)
    ensures r.Some? ==> r.value == Gameplay
  {
    if TogglePressed(keys) then Some(Gameplay) else None
  }

  /** Pausing and unpausing are driven by the same keys: a dead player cannot pause, but can always unpause. */
  lemma UnpauseUndoesPause(keys: Keyboard, vitality: Vitality)
    ensures PauseRequest(keys, vitality).Some? ==> UnpauseRequest(keys) == Some(Gameplay)
    ensures vitality == Dead ==> PauseRequest(keys, vitality) == None
  {
  }

  // ---------------------------------------------------------------------------
  // Physics time scale

  datatype TimestepMode =
    | Fixed(dt: real, substeps: nat)
    | Variable(maxDt: real, timeScale: real, substeps: nat)
    | Interpolated(dt: real, timeScale: real, substeps: nat)

  /** The physics engine's configuration resource. */
  class RapierConfiguration {
    var timestepMode: TimestepMode

    constructor (mode: TimestepMode)
      ensures timestepMode == mode
    {
      timestepMode := mode;
    }
  }

  /** Entering the pause menu freezes the physics: it still steps, with a time scale of zero. */
  method SpawnPauseScreen(config: RapierConfiguration)
    modifies config
    ensures config.timestepMode == Variable(1.0 / 60.0, 0.0, 1)
  {
    config.timestepMode := Variable(1.0 / 60.0, 0.0, 1);
  }

  /** Leaving the pause menu resumes the physics at the normal rate. */
  method DespawnPauseMenu(config: RapierConfiguration)
    modifies config
    ensures config.timestepMode == Variable(1.0 / 60.0, 1.0, 1)
  {
    config.timestepMode := Variable(1.0 / 60.0, 1.0, 1);
  }

  // ---------------------------------------------------------------------------
  // Level select

  /** Events fired by the UI's buttons. */
  datatype UiAction = Debug(message: string) | SelectLevel(level: nat)

  /**
   * What level select has done so far: the current selection, whether the
   * current level was asked to respawn, and the state change requested.
   */
  datatype Selecting = Selecting(selection: LevelSelection, respawn: bool, next: Option<GameState>)

  /**
   * One UI action: choosing a level selects it and requests the preamble, and
   * choosing the level that is already selected also respawns it. Debug
   * actions are ignored.
   */
  function Select(s: Selecting, action: UiAction): (r: Selecting)
    ensures action.Debug? ==> r == s
    ensures action.SelectLevel? ==> r.selection == Index(action.level) && r.next == Some(Preamble)
    ensures action.SelectLevel? ==> (r.respawn <==> s.respawn || s.selection == Index(action.level))
  {
    match action
    case SelectLevel(n) =>
      var again := s.selection.Index? && s.selection.index == n;
      Selecting(Index(n), s.respawn || again, Some(Preamble))
    case Debug(_) => s
  }

  /** The effect of a batch of UI actions handled in order. */
  function SelectAll(s: Selecting, actions: seq<UiAction>): Selecting {
    if actions == [] then s
    else Select(SelectAll(s, actions[..|actions| - 1]), actions[|actions| - 1])
  }

  /** The level of the last level choice in a batch, if there is one. */
  function LastChoice(actions: seq<UiAction>): (r: Option<nat>)
    ensures r.None? <==> forall i :: 0 <= i < |actions| ==> actions[i].Debug?
  {
    if actions == [] then None
    else if actions[|actions| - 1].SelectLevel? then Some(actions[|actions| - 1].level)
    else LastChoice(actions[..|actions| - 1])
  }

  /** The selection in force before the `i`-th action is handled. */
  function SelectionBefore(initial: LevelSelection, actions: seq<UiAction>, i: nat): LevelSelection
    requires i <= |actions|
  {
    match LastChoice(actions[..i])
    case Some(n) => Index(n)
    case None => initial
  }

  /** A batch's net effect: the last choice wins, and any choice requests the preamble. */
  lemma {:induction false} LastChoiceWins(s: Selecting, actions: seq<UiAction>)
    ensures var r := SelectAll(s, actions);
      && r.selection == (match LastChoice(actions) case Some(n) => Index(n) case None => s.selection)
      && r.next == (if LastChoice(actions).Some? then Some(Preamble) else s.next)
  {
    if actions != [] {
      LastChoiceWins(s, actions[..|actions| - 1]);
    }
  }

  /** The `i`-th action chooses the level that is selected when it is handled. */
  ghost predicate Reselects(initial: LevelSelection, actions: seq<UiAction>, i: nat)
    requires i < |actions|
  {
    actions[i].SelectLevel? && SelectionBefore(initial, actions, i) == Index(actions[i].level)
  }

  /** A respawn is requested exactly when some action re-chooses the level selected at that point. */
  lemma {:induction false} RespawnOnlyOnReselect(s: Selecting, actions: seq<UiAction>)
    ensures SelectAll(s, actions).respawn <==>
      s.respawn || exists i :: 0 <= i < |actions| && Reselects(s.selection, actions, i)
  {
    if actions != [] {
      var k := |actions| - 1;
      var prefix := actions[..k];
      RespawnOnlyOnReselect(s, prefix);
      LastChoiceWins(s, prefix);
      forall i | 0 <= i < k
        ensures Reselects(s.selection, actions, i) <==> Reselects(s.selection, prefix, i)
      {
        assert actions[..i] == prefix[..i];
      }
      assert SelectionBefore(s.selection, actions, k) == SelectAll(s, prefix).selection by {
        assert actions[..k] == prefix;
      }
      if SelectAll(s, actions).respawn && !s.respawn && !Reselects(s.selection, actions, k) {
        var i :| 0 <= i < k && Reselects(s.selection, prefix, i);
        assert Reselects(s.selection, actions, i);
      }
    }
  }

  /** The level select system, which overwrites the selection resource in place. */
  method LevelSelect(level: CurrentLevel, actions: seq<UiAction>) returns (respawn: bool, next: Option<GameState>)
    modifies level
    ensures Selecting(level.selection, respawn, next) == SelectAll(Selecting(old(level.selection), false, None), actions)
  {
    respawn, next := false, None;
    for i := 0 to |actions|
      invariant Selecting(level.selection, respawn, next) == SelectAll(Selecting(old(level.selection), false, None), actions[..i])
    {
      assert actions[..i + 1][..i] == actions[..i];
      match actions[i]
      case SelectLevel(n) =>
        if level.selection.Index? && level.selection.index == n {
          respawn := true;
        }
        level.selection := Index(n);
        next := Some(Preamble);
      case Debug(_) =>
    }
    assert actions[..|actions|] == actions;
  }
}
