/**
 * The reversible clock: a signed time scale, the simulated time since the
 * level started, the rate changes requested from the keyboard, and the generic
 * history log that time-aware entities record into and replay from.
 */
module Timeline {
  import opened Game

  /** Length of every level's time window, in seconds. */
  const LevelSeconds: real := 10.0
  /** Rate while the rewind effect lasts. */
  const RewindScale: real := -10.0
  /** Rate while the fast-forward effect lasts. */
  const FastForwardScale: real := 10.0
  /** Real-time delay after which an effect is ended by a `Normal` event. */
  const EffectMillis: nat := 200

  // ---------------------------------------------------------------------------
  // History log

  /** A snapshot of an entity's state, stamped with the clock reading when it was taken. */
  datatype Moment<T> = Moment(timestamp: real, data: T)

  /** The last moment of a log, when there is one. */
  function Latest<T>(moments: seq<Moment<T>>): (r: Option<Moment<T>>)
    ensures r.None? <==> moments == []
    ensures r.Some? ==> r.value == moments[|moments| - 1]
  {
    if moments == [] then None else Some(moments[|moments| - 1])
  }

  /** Timestamps never decrease along the log. */
  ghost predicate Chronological<T>(moments: seq<Moment<T>>) {
    forall i, j :: 0 <= i < j < |moments| ==> moments[i].timestamp <= moments[j].timestamp
  }

  /** A per-entity log of moments, appended to and popped from at the back. */
  class History<T> {
    var moments: seq<Moment<T>>

    constructor ()
      ensures moments == []
    {
      moments := [];
    }

    function Last(): (r: Option<Moment<T>>)
      reads this
      ensures r.None? <==> moments == []
      ensures r.Some? ==> r.value == moments[|moments| - 1]
    {
      Latest(moments)
    }

    method Push(m: Moment<T>)
      modifies this
      ensures moments == old(moments) + [m]
    {
      moments := moments + [m];
    }

    method Pop() returns (m: Option<Moment<T>>)
      modifies this
      ensures m == Latest(old(moments))
      ensures moments == if old(moments) == [] then [] else old(moments)[..|old(moments)| - 1]
    {
      if moments == [] {
        m := None;
      } else {
        m := Some(moments[|moments| - 1]);
        moments := moments[..|moments| - 1];
      }
    }
  }

  // ---------------------------------------------------------------------------
  // Events

  datatype TimeEvent = Rewind | FastForward | Normal

  /** Level lifecycle events of the level loader; each names the level's iid. */
  datatype LevelEvent =
    | SpawnTriggered(iid: string)
    | Spawned(iid: string)
    | Transformed(iid: string)
    | Despawned(iid: string)

  /** A request to deliver `event` after `delayMillis` milliseconds of real time. */
  datatype Scheduled = Scheduled(event: TimeEvent, delayMillis: nat)

  /**
   * The deferred event scheduler, seen only from the requesting side: a
   * request is appended to its queue. When and in which order the queue is
   * dispatched is not part of this model.
   */
  class EventScheduler {
    var pending: seq<Scheduled>

    constructor ()
      ensures pending == []
    {
      pending := [];
    }

    method Schedule(event: TimeEvent, delayMillis: nat)
      modifies this
      ensures pending == old(pending) + [Scheduled(event, delayMillis)]
    {
      pending := pending + [Scheduled(event, delayMillis)];
    }
  }

  /** The events a batch of requests eventually delivers; the order of delivery is not modelled. */
  function Delivered(requests: seq<Scheduled>): (r: seq<TimeEvent>)
    ensures |r| == |requests|
    ensures forall i :: 0 <= i < |r| ==> r[i] == requests[i].event
  {
    if requests == [] then [] else Delivered(requests[..|requests| - 1]) + [requests[|requests| - 1].event]
  }

  // ---------------------------------------------------------------------------
  // Clock specification

  /** The two clock resources: the signed rate and the time since level start. */
  datatype ClockState = ClockState(scale: real, sinceLevelStart: real)

  /** Both the state at start-up and the state a level (re)start resets to. */
  const LevelStart := ClockState(1.0, 0.0)

  predicate InWindow(t: real) {
    0.0 <= t <= LevelSeconds
  }

  /**
   * Integration and clamping: the clock advances by `dt * scale`, and a
   * reading that leaves the window is pulled back to the bound it crossed,
   * pausing the clock.
   */
  function Integrate(c: ClockState, dt: real): (r: ClockState)
    ensures InWindow(r.sinceLevelStart)
    ensures var t := c.sinceLevelStart + dt * c.scale;
      && (t < 0.0 ==> r == ClockState(0.0, 0.0))
      && (t > LevelSeconds ==> r == ClockState(0.0, LevelSeconds))
      && (InWindow(t) ==> r == ClockState(c.scale, t))
  {
    var t := c.sinceLevelStart + dt * c.scale;
    var low := if t < 0.0 then ClockState(0.0, 0.0) else ClockState(c.scale, t);
    if low.sinceLevelStart > LevelSeconds then ClockState(0.0, LevelSeconds) else low
  }

  /** The number of `Transformed` events in a batch of level events. */
  function TransformedCount(events: seq<LevelEvent>): (n: nat)
    ensures n <= |events|
    ensures n == 0 <==> forall i :: 0 <= i < |events| ==> !events[i].Transformed?
  {
    if events == [] then 0
    else TransformedCount(events[..|events| - 1]) + (if events[|events| - 1].Transformed? then 1 else 0)
  }

  /**
   * One tick of the clock: a level (re)start seen this tick resets the clock
   * before it integrates `dt`.
   */
  function Tick(c: ClockState, events: seq<LevelEvent>, dt: real): (r: ClockState)
    ensures InWindow(r.sinceLevelStart)
    ensures TransformedCount(events) > 0 ==> r == Integrate(LevelStart, dt)
    ensures TransformedCount(events) > 0 && InWindow(dt) ==> r == ClockState(1.0, dt)
    ensures TransformedCount(events) == 0 ==> r == Integrate(c, dt)
  {
    Integrate(if TransformedCount(events) > 0 then LevelStart else c, dt)
  }

  /** The frame-by-frame inputs of the clock: the level events and the real time elapsed. */
  datatype Frame = Frame(levelEvents: seq<LevelEvent>, dt: real)

  /** The clock after a sequence of ticks. */
  function Run(c: ClockState, frames: seq<Frame>): ClockState {
    if frames == [] then c
    else
      var last := frames[|frames| - 1];
      Tick(Run(c, frames[..|frames| - 1]), last.levelEvents, last.dt)
  }

  /** A rate-change request from the keyboard: the new rate and the events it schedules. */
  datatype RateRequest = RateRequest(scale: real, scheduled: seq<Scheduled>)

  /**
   * Z (rewind) takes precedence over X (fast-forward), and both are ignored
   * unless the clock runs at the normal rate. An effect always schedules its
   * own start immediately and its end after `EffectMillis`.
   */
  function RequestRate(keys: Keyboard, scale: real): (r: RateRequest)
    ensures scale != 1.0 ==> r == RateRequest(scale, [])
    ensures scale == 1.0 && keys.JustPressed(Z) ==>
      r == RateRequest(RewindScale, [Scheduled(Rewind, 0), Scheduled(Normal, EffectMillis)])
    ensures scale == 1.0 && !keys.JustPressed(Z) && keys.JustPressed(X) ==>
      r == RateRequest(FastForwardScale, [Scheduled(FastForward, 0), Scheduled(Normal, EffectMillis)])
    ensures !keys.JustPressed(Z) && !keys.JustPressed(X) ==> r == RateRequest(scale, [])
    ensures r.scale != scale <==> r.scheduled != []
  {
    if keys.JustPressed(Z) && scale == 1.0 then
      RateRequest(RewindScale, [Scheduled(Rewind, 0), Scheduled(Normal, EffectMillis)])
    else if keys.JustPressed(X) && scale == 1.0 then
      RateRequest(FastForwardScale, [Scheduled(FastForward, 0), Scheduled(Normal, EffectMillis)])
    else
      RateRequest(scale, [])
  }

  /** The rate after a batch of time events has been handled, one at a time. */
  function Restored(scale: real, events: seq<TimeEvent>): (r: real)
    ensures r == if Normal in events then 1.0 else scale
  {
    if events == [] then scale
    else if events[|events| - 1] == Normal then 1.0
    else
      assert events == events[..|events| - 1] + [events[|events| - 1]];
      Restored(scale, events[..|events| - 1])
  }

  // ---------------------------------------------------------------------------
  // Clock resources and the systems that update them

  /** The `TimeScale` and `TimeSinceLevelStart` resources. */
  class Clock {
    var scale: real
    var sinceLevelStart: real

    constructor ()
      ensures State() == LevelStart
    {
      scale := 1.0;
      sinceLevelStart := 0.0;
    }

    function State(): ClockState
      reads this
    {
      ClockState(scale, sinceLevelStart)
    }

    /** Turns a key press into a rate change and two scheduled time events. */
    method Rewind(keys: Keyboard, scheduler: EventScheduler)
      modifies this, scheduler
      ensures var request := RequestRate(keys, old(scale));
        && scale == request.scale
        && scheduler.pending == old(scheduler.pending) + request.scheduled
      ensures sinceLevelStart == old(sinceLevelStart)
    {
      if keys.JustPressed(Z) && scale == 1.0 {
        scale := RewindScale;
        scheduler.Schedule(TimeEvent.Rewind, 0);
        scheduler.Schedule(Normal, EffectMillis);
      } else if keys.JustPressed(X) && scale == 1.0 {
        scale := FastForwardScale;
        scheduler.Schedule(FastForward, 0);
        scheduler.Schedule(Normal, EffectMillis);
      }
    }

    /** A delivered `Normal` event ends whatever effect is running. */
    method StopRewind(events: seq<TimeEvent>)
      modifies this`scale
      ensures scale == (if Normal in events then 1.0 else old(scale))
    {
      for i := 0 to |events|
        invariant scale == (if Normal in events[..i] then 1.0 else old(scale))
      {
        assert events[..i + 1] == events[..i] + [events[i]];
        if events[i] == Normal {
          scale := 1.0;
        }
      }
      assert events[..|events|] == events;
    }

    /**
     * Resets the clock for each level (re)start, sending one `Normal` event
     * per reset, then integrates the elapsed real time and clamps.
     */
    method UpdateTime(dt: real, levelEvents: seq<LevelEvent>) returns (sent: seq<TimeEvent>)
      modifies this
      ensures State() == Tick(old(State()), levelEvents, dt)
      ensures |sent| == TransformedCount(levelEvents)
      ensures forall i :: 0 <= i < |sent| ==> sent[i] == Normal
    {
      sent := [];
      for i := 0 to |levelEvents|
        invariant State() == if TransformedCount(levelEvents[..i]) > 0 then LevelStart else old(State())
        invariant |sent| == TransformedCount(levelEvents[..i])
        invariant forall j :: 0 <= j < |sent| ==> sent[j] == Normal
      {
        assert levelEvents[..i + 1][..i] == levelEvents[..i];
        if levelEvents[i].Transformed? {
          scale := 1.0;
          sinceLevelStart := 0.0;
          sent := sent + [Normal];
        }
      }
      assert levelEvents[..|levelEvents|] == levelEvents;
      ghost var reset := State();
      assert reset == if TransformedCount(levelEvents) > 0 then LevelStart else old(State());

      sinceLevelStart := sinceLevelStart + dt * scale;

      if sinceLevelStart < 0.0 {
        sinceLevelStart := 0.0;
        scale := 0.0;
      }
      if sinceLevelStart > LevelSeconds {
        sinceLevelStart := LevelSeconds;
        scale := 0.0;
      }
    }
  }

  // ---------------------------------------------------------------------------
  // Properties of the clock

  /** `n` ticks of one second each, with no level events. */
  function Steady(n: nat): (frames: seq<Frame>)
    ensures |frames| == n
    ensures forall i :: 0 <= i < n ==> frames[i] == Frame([], 1.0)
  {
    seq(n, _ => Frame([], 1.0))
  }

  /**
   * Running at the normal rate for `n` seconds from `t0` reaches `t0 + n`, or
   * stops at the end of the window with the clock paused.
   */
  lemma {:induction false} RunningOutTheClock(t0: real, n: nat)
    requires InWindow(t0)
    ensures var r := Run(ClockState(1.0, t0), Steady(n));
      if t0 + n as real <= LevelSeconds then r == ClockState(1.0, t0 + n as real)
      else r == ClockState(0.0, LevelSeconds)
  {
    if n > 0 {
      RunningOutTheClock(t0, n - 1);
      assert Steady(n)[..n - 1] == Steady(n - 1);
      assert TransformedCount([]) == 0;
    }
  }

  /** Twelve seconds at the normal rate exhaust a ten-second level. */
  lemma TwelveSecondsExhaustTheLevel()
    ensures Run(LevelStart, Steady(12)) == ClockState(0.0, LevelSeconds)
  {
    RunningOutTheClock(0.0, 12);
  }

  /** No frame of the run restarts the level. */
  ghost predicate NoRestart(frames: seq<Frame>) {
    forall i :: 0 <= i < |frames| ==> TransformedCount(frames[i].levelEvents) == 0
  }

  /** The clock reading stays in the window across any run that starts in it. */
  lemma ClampInvariant(c: ClockState, frames: seq<Frame>)
    requires InWindow(c.sinceLevelStart)
    ensures InWindow(Run(c, frames).sinceLevelStart)
  {
  }

  /**
   * Forward play: with a non-negative rate and non-negative frame times, the
   * rate stays non-negative and the clock reading never goes down.
   */
  lemma {:induction false} ForwardPlayNeverGoesBack(c: ClockState, frames: seq<Frame>)
    requires InWindow(c.sinceLevelStart) && c.scale >= 0.0
    requires NoRestart(frames)
    requires forall i :: 0 <= i < |frames| ==> frames[i].dt >= 0.0
    ensures Run(c, frames).scale >= 0.0
    ensures Run(c, frames).sinceLevelStart >= c.sinceLevelStart
  {
    if frames != [] {
      var prefix := frames[..|frames| - 1];
      ForwardPlayNeverGoesBack(c, prefix);
      var before := Run(c, prefix);
      var f := frames[|frames| - 1];
      assert f.dt * before.scale >= 0.0;
    }
  }

  /**
   * Rewinding: with a non-positive rate and non-negative frame times, the rate
   * stays non-positive and the clock reading never goes up.
   */
  lemma {:induction false} RewindNeverGoesForward(c: ClockState, frames: seq<Frame>)
    requires InWindow(c.sinceLevelStart) && c.scale <= 0.0
    requires NoRestart(frames)
    requires forall i :: 0 <= i < |frames| ==> frames[i].dt >= 0.0
    ensures Run(c, frames).scale <= 0.0
    ensures Run(c, frames).sinceLevelStart <= c.sinceLevelStart
  {
    if frames != [] {
      var prefix := frames[..|frames| - 1];
      RewindNeverGoesForward(c, prefix);
      var before := Run(c, prefix);
      var f := frames[|frames| - 1];
      assert f.dt * before.scale <= 0.0;
    }
  }

  /** A paused clock stays where it is until the level restarts. */
  lemma {:induction false} PausedClockHolds(c: ClockState, frames: seq<Frame>)
    requires InWindow(c.sinceLevelStart) && c.scale == 0.0
    requires NoRestart(frames)
    ensures Run(c, frames) == c
  {
    if frames != [] {
      var prefix := frames[..|frames| - 1];
      assert NoRestart(prefix) by {
        forall i | 0 <= i < |prefix| ensures TransformedCount(prefix[i].levelEvents) == 0 {
          assert prefix[i] == frames[i];
        }
      }
      PausedClockHolds(c, prefix);
      var last := frames[|frames| - 1];
      assert TransformedCount(last.levelEvents) == 0;
      assert Run(c, frames) == Integrate(c, last.dt);
    }
  }

  /**
   * Every effect a key press starts is ended by the events it schedules: once
   * they are delivered the clock is back at the normal rate.
   */
  lemma EffectsEndThemselves(keys: Keyboard, scale: real)
    ensures var r := RequestRate(keys, scale);
      r.scheduled != [] ==> Restored(r.scale, Delivered(r.scheduled)) == 1.0
  {
    var r := RequestRate(keys, scale);
    if r.scheduled != [] {
      assert Delivered(r.scheduled)[1] == Normal;
    }
  }

  /** While an effect is running, no further effect can be requested. */
  lemma EffectsNeverOverlap(first: Keyboard, second: Keyboard, scale: real)
    ensures var r := RequestRate(first, scale);
      r.scheduled != [] ==> RequestRate(second, r.scale) == RateRequest(r.scale, [])
  {
  }
}
