/**
 * The free-fly / cinematic mode flag, the tour clock and the cursor-look state,
 * as pure transitions. The globals that hold this state are in SceneViewer.
 */
module ModeSwitch {
  import opened Options
  import opened Geometry
  import opened Tour

  /** Degrees of look rotation per pixel of cursor travel. */
  const Sensitivity: real := 0.1

  /** Cursor-look state: first-sample flag, last sample, and the look angles in degrees. */
  datatype Look = Look(firstMouse: bool, lastX: real, lastY: real, yaw: real, pitch: real)

  /** The mode flag, the tour start time (0.0 means "not yet started") and the look state. */
  datatype ControlState = ControlState(cinematic: bool, startTime: real, look: Look)

  /** The state at program start: the tour is running and has not started its clock. */
  const InitialState: ControlState := ControlState(true, 0.0, Look(true, 512.0, 384.0, -90.0, 0.0))

  /** While the tour runs, the next cursor sample is treated as the first one. */
  predicate Invariant(c: ControlState) {
    c.cinematic ==> c.look.firstMouse
  }

  predicate PitchInRange(c: ControlState) {
    -PitchLimit <= c.look.pitch <= PitchLimit
  }

  /** One cursor sample in free-fly mode. */
  function MouseLook(s: Look, xpos: real, ypos: real): (r: Look)
    ensures !r.firstMouse && r.lastX == xpos && r.lastY == ypos
    ensures -PitchLimit <= r.pitch <= PitchLimit
    ensures s.firstMouse ==> r.yaw == s.yaw && r.pitch == ClampPitch(s.pitch)
    ensures !s.firstMouse ==> r.yaw == s.yaw + Sensitivity * (xpos - s.lastX)
    ensures !s.firstMouse ==> r.pitch == ClampPitch(s.pitch + Sensitivity * (s.lastY - ypos))
  {
    var baseX := if s.firstMouse then xpos else s.lastX;
    var baseY := if s.firstMouse then ypos else s.lastY;
    var xoffset := (xpos - baseX) * Sensitivity;
    var yoffset := (baseY - ypos) * Sensitivity;
    Look(false, xpos, ypos, s.yaw + xoffset, ClampPitch(s.pitch + yoffset))
  }

  /** The cursor callback: ignored while the tour runs. */
  function OnCursor(c: ControlState, xpos: real, ypos: real): (r: ControlState)
    ensures c.cinematic ==> r == c
    ensures r.cinematic == c.cinematic && r.startTime == c.startTime
    ensures !c.cinematic ==> !r.look.firstMouse && r.look.lastX == xpos && r.look.lastY == ypos
    ensures Invariant(c) ==> Invariant(r)
    ensures PitchInRange(c) ==> PitchInRange(r)
  {
    if c.cinematic then c else c.(look := MouseLook(c.look, xpos, ypos))
  }

  /** Entering the tour: clock unset, cursor baseline re-armed, nothing else touched. */
  function StartTour(c: ControlState): (r: ControlState)
    ensures r.cinematic && r.startTime == 0.0 && r.look.firstMouse
    ensures r.look.(firstMouse := c.look.firstMouse) == c.look
    ensures Invariant(r)
  {
    ControlState(true, 0.0, c.look.(firstMouse := true))
  }

  /** The T key: leave the tour (re-arming the cursor baseline) or enter it. */
  function ToggleTour(c: ControlState): (r: ControlState)
    ensures r.cinematic == !c.cinematic && r.look.firstMouse
    ensures r.startTime == if c.cinematic then c.startTime else 0.0
    ensures r.look.(firstMouse := c.look.firstMouse) == c.look
    ensures Invariant(r)
  {
    if c.cinematic then c.(cinematic := false, look := c.look.(firstMouse := true))
    else StartTour(c)
  }

  /** The state after one tour update, and the normalised tour time of the frame it draws, if any. */
  datatype TickOutcome = TickOutcome(state: ControlState, progress: Option<real>)

  /** One tour update at clock time `now`; a drawn frame shows TourView of its progress. */
  function Tick(c: ControlState, now: real): (r: TickOutcome)
    ensures !c.cinematic ==> r == TickOutcome(c, None)
    ensures c.cinematic ==> r.state.look == c.look
    ensures c.cinematic ==> r.state.startTime == if c.startTime == 0.0 then now else c.startTime
    ensures r.progress.Some? <==> r.state.cinematic && c.cinematic
    ensures Invariant(c) ==> Invariant(r.state)
  {
    if !c.cinematic then TickOutcome(c, None)
    else
      var start := if c.startTime == 0.0 then now else c.startTime;
      var t := (now - start) / CinematicDuration;
      if t >= 1.0 then TickOutcome(c.(cinematic := false, startTime := start), None)
      else TickOutcome(c.(startTime := start), Some(t))
  }

  /**
   * The tour's timing: it lasts exactly CinematicDuration seconds from its first
   * update, and each drawn frame shows the elapsed fraction of that duration.
   */
  lemma TickTiming(c: ControlState, now: real)
    requires c.cinematic
    ensures var r := Tick(c, now);
      (r.state.cinematic <==> now - r.state.startTime < CinematicDuration) &&
      (r.progress.Some? ==> r.progress.value == (now - r.state.startTime) / CinematicDuration) &&
      (r.progress.Some? && 0.0 <= now - r.state.startTime ==> 0.0 <= r.progress.value < 1.0)
  {
  }

  /** The inputs that drive the mode machine. */
  datatype Event = CursorMoved(x: real, y: real) | TourStarted | ToggleKey | Frame(now: real)

  function Step(c: ControlState, e: Event): ControlState {
    match e
    case CursorMoved(x, y) => OnCursor(c, x, y)
    case TourStarted => StartTour(c)
    case ToggleKey => ToggleTour(c)
    case Frame(now) => Tick(c, now).state
  }

  function Run(c: ControlState, events: seq<Event>): ControlState
    decreases |events|
  {
    if events == [] then c else Run(Step(c, events[0]), events[1..])
  }

  /** Both invariants hold after any sequence of events. */
  lemma {:induction false} RunKeepsInvariants(c: ControlState, events: seq<Event>)
    requires Invariant(c) && PitchInRange(c)
    ensures Invariant(Run(c, events)) && PitchInRange(Run(c, events))
    decreases |events|
  {
    if events != [] {
      RunKeepsInvariants(Step(c, events[0]), events[1..]);
    }
  }

  /** From program start, on every reachable state: tour running implies a re-armed cursor, and pitch is within limits. */
  lemma ReachableStatesAreValid(events: seq<Event>)
    ensures Invariant(Run(InitialState, events)) && PitchInRange(Run(InitialState, events))
  {
    RunKeepsInvariants(InitialState, events);
  }

  /** Whichever way the tour ends, the first cursor sample afterwards moves the look by nothing. */
  lemma LeavingTourGivesZeroOffset(c: ControlState, e: Event, x: real, y: real)
    requires Invariant(c) && c.cinematic && !Step(c, e).cinematic
    ensures OnCursor(Step(c, e), x, y).look.yaw == c.look.yaw
    ensures OnCursor(Step(c, e), x, y).look.pitch == ClampPitch(c.look.pitch)
  {
    var next := Step(c, e);
    assert next.look.firstMouse && next.look.yaw == c.look.yaw && next.look.pitch == c.look.pitch by {
      match e
      case CursorMoved(_, _) =>
      case TourStarted =>
      case ToggleKey =>
      case Frame(now) =>
    }
  }

  /** However far a previous tour got, re-entering it restarts the clock: the first update draws time 0. */
  lemma RestartBeginsAtTimeZero(c: ControlState, now: real)
    ensures Tick(StartTour(c), now).state.cinematic && Tick(StartTour(c), now).state.startTime == now
    ensures Tick(StartTour(c), now).progress == Some(0.0)
  {
    var r := Tick(StartTour(c), now);
    assert r.state.startTime == now;
  }

  /** ... and time 0 shows keyframe 0. */
  lemma RestartShowsFirstKeyframe(c: ControlState, now: real)
    ensures TourView(Tick(StartTour(c), now).progress.value) == LookAt(Positions[0], Targets[0], WorldUp)
  {
    RestartBeginsAtTimeZero(c, now);
    TourViewAtKeyframe(Tick(StartTour(c), now).progress.value, 0);
  }

  /** Six seconds into the eighteen-second tour the frame drawn is at time 1/3. */
  lemma SixSecondsIsOneThird(c: ControlState, now: real)
    requires c.cinematic && c.startTime != 0.0 && now == c.startTime + 6.0
    ensures Tick(c, now).progress == Some(1 as real / 3.0)
  {
    var r := Tick(c, now);
    assert r.state.startTime == c.startTime;
  }

  /** ... which is exactly keyframe 1. */
  lemma SixSecondsReachesSecondKeyframe(c: ControlState, now: real)
    requires c.cinematic && c.startTime != 0.0 && now == c.startTime + 6.0
    ensures TourView(Tick(c, now).progress.value) == LookAt(Positions[1], Targets[1], WorldUp)
  {
    SixSecondsIsOneThird(c, now);
    TourViewAtKeyframe(Tick(c, now).progress.value, 1);
  }

  /** The look state after a trail of cursor samples. */
  function MouseTrail(s: Look, samples: seq<(real, real)>): Look
    decreases |samples|
  {
    if samples == [] then s else MouseTrail(MouseLook(s, samples[0].0, samples[0].1), samples[1..])
  }

  /** After any non-empty trail, or any trail from a clamped start, pitch is within limits. */
  lemma {:induction false} TrailKeepsPitchClamped(s: Look, samples: seq<(real, real)>)
    requires |samples| > 0 || -PitchLimit <= s.pitch <= PitchLimit
    ensures -PitchLimit <= MouseTrail(s, samples).pitch <= PitchLimit
    decreases |samples|
  {
    if samples != [] {
      TrailKeepsPitchClamped(MouseLook(s, samples[0].0, samples[0].1), samples[1..]);
    }
  }

  /** Yaw is not clamped, so it telescopes: it grows by the sensitivity times the horizontal travel from the baseline to the last sample. */
  lemma {:induction false} TrailYawTelescopes(s: Look, samples: seq<(real, real)>)
    requires |samples| > 0
    ensures MouseTrail(s, samples).yaw ==
      s.yaw + Sensitivity * (samples[|samples| - 1].0 - (if s.firstMouse then samples[0].0 else s.lastX))
    decreases |samples|
  {
    var next := MouseLook(s, samples[0].0, samples[0].1);
    if |samples| > 1 {
      TrailYawTelescopes(next, samples[1..]);
      assert samples[1..][|samples[1..]| - 1] == samples[|samples| - 1];
    }
  }
}
