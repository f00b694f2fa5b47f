/**
 * Moving platforms patrol a closed loop of waypoints. Playing forward, a
 * platform records a moment each time it turns towards its next waypoint;
 * playing backward (or paused), it consumes those moments, newest first, and
 * heads back to where each was recorded.
 *
 * The vector maths (normalising, dot products) is not modelled: the test
 * "the platform has passed its waypoint" is an input, and so are the
 * velocities that the maths produces for a given goal.
 */
module Platform {
  import opened Game
  import opened Timeline

  /** The one kind of moment a platform records. */
  datatype PlatformMoment = ChangeDirection(velocity: Vec2, position: Vec3)

  // ---------------------------------------------------------------------------
  // The waypoint cursor

  /** The next waypoint after `index` on a loop of `len` waypoints. */
  function Advance(index: nat, len: nat): (r: nat)
    requires index < len
    ensures r < len
    ensures r == if index == len - 1 then 0 else index + 1
  {
    (index + 1) % len
  }

  /** The waypoint before `index` on a loop of `len` waypoints. */
  function Retreat(index: nat, len: nat): (r: nat)
    requires index < len
    ensures r < len
    ensures Advance(r, len) == index
  {
    if index == 0 then len - 1 else index - 1
  }

  /** Stepping back undoes stepping forward, on every loop and from every waypoint. */
  lemma RetreatUndoesAdvance(index: nat, len: nat)
    requires index < len
    ensures Retreat(Advance(index, len), len) == index
  {
  }

  /** The cursor after `k` forward steps. */
  function AdvanceBy(index: nat, len: nat, k: nat): (r: nat)
    requires index < len
    ensures r < len
  {
    if k == 0 then index else Advance(AdvanceBy(index, len, k - 1), len)
  }

  // ---------------------------------------------------------------------------
  // One platform's tick, as a function of its state

  /** The parts of a platform that its movement system writes. */
  datatype PatrolState = PatrolState(index: nat, moments: seq<Moment<PlatformMoment>>, velocity: Vec2)

  /**
   * What a forward tick is told by the vector maths and the clock: the clock
   * reading, the platform's translation, the velocity towards the current
   * waypoint, whether that velocity opposes the current one (the waypoint has
   * been passed), and the velocity the maths gives towards any other goal.
   */
  datatype ForwardInput = ForwardInput(
    now: real,
    translation: Vec3,
    candidate: Vec2,
    passed: bool,
    steer: Vec3 -> Vec2)

  /**
   * What a backward tick is told: the clock reading and the velocity the maths
   * gives towards a recorded position.
   */
  datatype BackwardInput = BackwardInput(now: real, home: Vec3 -> Vec2)

  /** A forward tick turns when the waypoint has been passed or nothing is recorded yet. */
  predicate Turns(s: PatrolState, input: ForwardInput) {
    input.passed || s.moments == []
  }

  /**
   * Forward play: on a turn, the cursor moves to the next waypoint and one
   * moment is recorded, stamped with the clock reading, holding the new
   * velocity and the current translation. Otherwise only the velocity changes.
   */
  function ForwardTick(s: PatrolState, points: seq<Vec3>, input: ForwardInput): (r: PatrolState)
    requires s.index < |points|
    ensures r.index < |points|
    ensures Turns(s, input) ==>
      && r.index == Advance(s.index, |points|)
      && r.velocity == input.steer(points[r.index])
      && r.moments == s.moments + [Moment(input.now, ChangeDirection(r.velocity, input.translation))]
    ensures !Turns(s, input) ==> r == s.(velocity := input.candidate)
    ensures r.moments != []
    ensures Chronological(s.moments) && (s.moments == [] || s.moments[|s.moments| - 1].timestamp <= input.now)
      ==> Chronological(r.moments)
  {
    if Turns(s, input) then
      var next := (s.index + 1) % |points|;
      var velocity := input.steer(points[next]);
      PatrolState(next, s.moments + [Moment(input.now, ChangeDirection(velocity, input.translation))], velocity)
    else
      s.(velocity := input.candidate)
  }

  /** A backward tick pops when the clock is earlier than the newest moment. */
  predicate Pops(s: PatrolState, input: BackwardInput) {
    s.moments != [] && input.now < s.moments[|s.moments| - 1].timestamp
  }

  /**
   * Backward play (and a paused clock): at most one moment is popped, only
   * when the clock has gone back past it, and the cursor steps back with it.
   * The platform then heads for the position recorded in the newest remaining
   * moment, or stands still when none is left.
   */
  function BackwardTick(s: PatrolState, len: nat, input: BackwardInput): (r: PatrolState)
    requires s.index < len
    ensures r.index < len
    ensures Pops(s, input) ==>
      r.moments == s.moments[..|s.moments| - 1] && r.index == Retreat(s.index, len)
    ensures !Pops(s, input) ==> r.moments == s.moments && r.index == s.index
    ensures r.moments == [] ==> r.velocity == Zero2
    ensures r.moments != [] ==> r.velocity == input.home(r.moments[|r.moments| - 1].data.position)
    ensures Chronological(s.moments) ==> Chronological(r.moments)
  {
    var popped :=
      if Pops(s, input) then
        PatrolState(if s.index == 0 then len - 1 else s.index - 1, s.moments[..|s.moments| - 1], s.velocity)
      else s;
    match Latest(popped.moments)
    case Some(goal) => popped.(velocity := input.home(goal.data.position))
    case None => popped.(velocity := Zero2)
  }

  /**
   * A platform on two waypoints with nothing recorded turns on its first
   * forward tick: it heads for the second waypoint and records one moment.
   */
  lemma FirstForwardTickTurns(points: seq<Vec3>, velocity: Vec2, input: ForwardInput)
    requires |points| == 2
    ensures var r := ForwardTick(PatrolState(0, [], velocity), points, input);
      && r.index == 1
      && r.moments == [Moment(input.now, ChangeDirection(input.steer(points[1]), input.translation))]
  {
  }

  // ---------------------------------------------------------------------------
  // Runs of ticks

  /** A stretch of forward play. */
  function Forward(s: PatrolState, points: seq<Vec3>, inputs: seq<ForwardInput>): (r: PatrolState)
    requires s.index < |points|
    ensures r.index < |points|
  {
    if inputs == [] then s
    else ForwardTick(Forward(s, points, inputs[..|inputs| - 1]), points, inputs[|inputs| - 1])
  }

  /** A stretch of backward play; the first input is the first tick. */
  function Backward(s: PatrolState, len: nat, inputs: seq<BackwardInput>): (r: PatrolState)
    requires s.index < len
    ensures r.index < len
    decreases |inputs|
  {
    if inputs == [] then s
    else Backward(BackwardTick(s, len, inputs[0]), len, inputs[1..])
  }

  /**
   * History monotonicity, forward: the log only grows, by at most one moment
   * per tick, and what was recorded before is kept.
   */
  lemma {:induction false} ForwardOnlyAppends(s: PatrolState, points: seq<Vec3>, inputs: seq<ForwardInput>)
    requires s.index < |points|
    ensures var r := Forward(s, points, inputs);
      && |s.moments| <= |r.moments| <= |s.moments| + |inputs|
      && r.moments[..|s.moments|] == s.moments
  {
    if inputs != [] {
      ForwardOnlyAppends(s, points, inputs[..|inputs| - 1]);
    }
  }

  /**
   * History monotonicity, backward: the log only shrinks, by at most one
   * moment per tick, from the newest end.
   */
  lemma {:induction false} BackwardOnlyPops(s: PatrolState, len: nat, inputs: seq<BackwardInput>)
    requires s.index < len
    ensures var r := Backward(s, len, inputs);
      && |s.moments| - |inputs| <= |r.moments| <= |s.moments|
      && r.moments == s.moments[..|r.moments|]
    decreases |inputs|
  {
    if inputs != [] {
      var next := BackwardTick(s, len, inputs[0]);
      BackwardOnlyPops(next, len, inputs[1..]);
    }
  }

  /** Every tick of the stretch finds the waypoint passed. */
  ghost predicate AllPassed(inputs: seq<ForwardInput>) {
    forall i :: 0 <= i < |inputs| ==> inputs[i].passed
  }

  /**
   * A stretch of forward play in which every tick turns advances the cursor
   * once per tick and records one moment per tick, stamped with that tick's
   * clock reading.
   */
  lemma {:induction false} TurningRecords(s: PatrolState, points: seq<Vec3>, inputs: seq<ForwardInput>)
    requires s.index < |points|
    requires AllPassed(inputs)
    ensures var r := Forward(s, points, inputs);
      && r.index == AdvanceBy(s.index, |points|, |inputs|)
      && |r.moments| == |s.moments| + |inputs|
      && r.moments[..|s.moments|] == s.moments
      && forall i :: 0 <= i < |inputs| ==> r.moments[|s.moments| + i].timestamp == inputs[i].now
  {
    if inputs != [] {
      var prefix := inputs[..|inputs| - 1];
      TurningRecords(s, points, prefix);
      var before := Forward(s, points, prefix);
      assert Forward(s, points, inputs) == ForwardTick(before, points, inputs[|inputs| - 1]);
      forall i | 0 <= i < |inputs| - 1
        ensures Forward(s, points, inputs).moments[|s.moments| + i].timestamp == inputs[i].now
      {
        assert prefix[i] == inputs[i];
      }
    }
  }

  /**
   * Rewinding past `k` moments recorded on top of `base`, one per backward
   * tick, pops exactly those moments and brings the cursor back `k` steps.
   */
  lemma {:induction false} RewindingUnrecords(
    s: PatrolState, len: nat, start: nat, base: seq<Moment<PlatformMoment>>, inputs: seq<BackwardInput>)
    requires start < len
    requires s.index == AdvanceBy(start, len, |inputs|)
    requires |s.moments| == |base| + |inputs| && s.moments[..|base|] == base
    requires forall j :: 0 <= j < |inputs| ==> inputs[j].now < s.moments[|s.moments| - 1 - j].timestamp
    ensures Backward(s, len, inputs).index == start
    ensures Backward(s, len, inputs).moments == base
    decreases |inputs|
  {
    if inputs == [] {
      assert s.moments == s.moments[..|base|];
    } else {
      var k := |inputs|;
      var next := BackwardTick(s, len, inputs[0]);
      assert Pops(s, inputs[0]);
      RetreatUndoesAdvance(AdvanceBy(start, len, k - 1), len);
      assert next.index == AdvanceBy(start, len, k - 1);
      assert next.moments[..|base|] == base;
      forall j | 0 <= j < k - 1
        ensures inputs[1..][j].now < next.moments[|next.moments| - 1 - j].timestamp
      {
        assert inputs[1..][j] == inputs[j + 1];
      }
      RewindingUnrecords(next, len, start, base, inputs[1..]);
    }
  }

  /**
   * Reversibility: recording `k` turns and then rewinding past each of them,
   * one per tick, restores the waypoint cursor and the log exactly.
   */
  lemma ForwardThenRewindRestores(
    s: PatrolState, points: seq<Vec3>, forward: seq<ForwardInput>, backward: seq<BackwardInput>)
    requires s.index < |points|
    requires AllPassed(forward)
    requires |backward| == |forward|
    requires forall j :: 0 <= j < |backward| ==> backward[j].now < forward[|forward| - 1 - j].now
    ensures var r := Backward(Forward(s, points, forward), |points|, backward);
      r.index == s.index && r.moments == s.moments
  {
    var mid := Forward(s, points, forward);
    TurningRecords(s, points, forward);
    RewindingUnrecords(mid, |points|, s.index, s.moments, backward);
  }

  /**
   * The cursor and the log move together: on top of the moments in `base`,
   * the cursor has advanced once from `start` for every moment recorded since.
   */
  ghost predicate Coupled(s: PatrolState, len: nat, start: nat, base: seq<Moment<PlatformMoment>>) {
    && start < len
    && |base| <= |s.moments|
    && s.moments[..|base|] == base
    && s.index == AdvanceBy(start, len, |s.moments| - |base|)
  }

  /** Forward play keeps the cursor coupled to the log, whatever the inputs. */
  lemma {:induction false} ForwardKeepsCoupling(
    s: PatrolState, points: seq<Vec3>, inputs: seq<ForwardInput>, start: nat, base: seq<Moment<PlatformMoment>>)
    requires s.index < |points|
    requires Coupled(s, |points|, start, base)
    ensures Coupled(Forward(s, points, inputs), |points|, start, base)
  {
    if inputs != [] {
      var mid := Forward(s, points, inputs[..|inputs| - 1]);
      ForwardKeepsCoupling(s, points, inputs[..|inputs| - 1], start, base);
      var r := ForwardTick(mid, points, inputs[|inputs| - 1]);
      if Turns(mid, inputs[|inputs| - 1]) {
        assert r.moments[..|base|] == mid.moments[..|base|];
        assert r.index == AdvanceBy(start, |points|, |r.moments| - |base|);
      }
    }
  }

  /**
   * Backward play keeps the cursor coupled to the log as long as it does not
   * pop below `base`: each pop steps the cursor back over the advance that
   * recorded the popped moment.
   */
  lemma {:induction false} BackwardKeepsCoupling(
    s: PatrolState, len: nat, inputs: seq<BackwardInput>, start: nat, base: seq<Moment<PlatformMoment>>)
    requires s.index < len
    requires Coupled(s, len, start, base)
    requires |base| <= |Backward(s, len, inputs).moments|
    ensures Coupled(Backward(s, len, inputs), len, start, base)
    decreases |inputs|
  {
    if inputs != [] {
      var next := BackwardTick(s, len, inputs[0]);
      BackwardOnlyPops(next, len, inputs[1..]);
      if Pops(s, inputs[0]) {
        var k := |s.moments| - |base|;
        assert k >= 1;
        RetreatUndoesAdvance(AdvanceBy(start, len, k - 1), len);
        assert next.moments[..|base|] == s.moments[..|base|];
      }
      BackwardKeepsCoupling(next, len, inputs[1..], start, base);
    }
  }

  /**
   * Reversibility of any patrol: whatever the forward and backward stretches
   * do (turning or not, popping or not), once the log is back to its old
   * length, both the log and the waypoint cursor are exactly as they were.
   */
  lemma ForwardThenBackwardRestores(
    s: PatrolState, points: seq<Vec3>, forward: seq<ForwardInput>, backward: seq<BackwardInput>)
    requires s.index < |points|
    ensures var r := Backward(Forward(s, points, forward), |points|, backward);
      |r.moments| == |s.moments| ==> r.moments == s.moments && r.index == s.index
  {
    var mid := Forward(s, points, forward);
    var r := Backward(mid, |points|, backward);
    assert s.moments[..|s.moments|] == s.moments;
    ForwardKeepsCoupling(s, points, forward, s.index, s.moments);
    if |r.moments| == |s.moments| {
      BackwardKeepsCoupling(mid, |points|, backward, s.index, s.moments);
      assert r.moments == r.moments[..|s.moments|];
    }
  }

  // ---------------------------------------------------------------------------
  // Components and the movement system

  /** A platform's patrol: its waypoints, its speed and the waypoint it is heading for. */
  class Path {
    const points: seq<Vec3>
    const speed: real
    var index: nat

    ghost predicate Valid()
      reads this
    {
      index < |points|
    }

    constructor (points: seq<Vec3>, speed: real)
      requires points != []
      ensures Valid() && this.points == points && this.speed == speed && index == 0
    {
      this.points := points;
      this.speed := speed;
      index := 0;
    }
  }

  /**
   * The movement system for one platform: the branch is chosen by the sign of
   * the time scale, and the new state is the forward or backward tick of the
   * old one.
   */
  method PlatformMovement(
    scale: real, sinceLevelStart: real, translation: Vec3,
    path: Path, history: History<PlatformMoment>, velocity: Velocity,
    candidate: Vec2, passed: bool, steer: Vec3 -> Vec2, home: Vec3 -> Vec2)
    requires path.Valid()
    modifies path, history, velocity
    ensures path.Valid()
    ensures var before := PatrolState(old(path.index), old(history.moments), old(velocity.linvel));
      var after := PatrolState(path.index, history.moments, velocity.linvel);
      if scale > 0.0 then
        after == ForwardTick(before, path.points, ForwardInput(sinceLevelStart, translation, candidate, passed, steer))
      else
        after == BackwardTick(before, |path.points|, BackwardInput(sinceLevelStart, home))
  {
    if scale > 0.0 {
      var newVelocity := candidate;
      if passed || history.moments == [] {
        path.index := (path.index + 1) % |path.points|;
        newVelocity := steer(path.points[path.index]);
        history.Push(Moment(sinceLevelStart, ChangeDirection(newVelocity, translation)));
      }
      velocity.linvel := newVelocity;
    } else {
      var goal := history.Last();
      if goal.Some? && sinceLevelStart < goal.value.timestamp {
        var _ := history.Pop();
        if path.index == 0 {
          path.index := |path.points| - 1;
        } else {
          path.index := path.index - 1;
        }
      }
      goal := history.Last();
      if goal.Some? {
        velocity.linvel := home(goal.value.data.position);
      } else {
        velocity.linvel := Zero2;
      }
    }
  }
}
