/** The spinning tree: its angle advances with wall-clock time and wraps once past a full turn. */
module TreeAnimation {
  /** Degrees per second. */
  const RotationSpeed: real := 30.0

  const FullTurn: real := 360.0

  /** The angle after `elapsed` seconds: advanced, then reduced by one turn if past 360. */
  function AdvanceAngle(angle: real, elapsed: real): (r: real)
    ensures r == angle + RotationSpeed * elapsed || r == angle + RotationSpeed * elapsed - FullTurn
    ensures r <= FullTurn <==> angle + RotationSpeed * elapsed <= 2.0 * FullTurn
    ensures 0.0 <= angle && 0.0 <= elapsed ==> 0.0 <= r
    ensures angle + RotationSpeed * elapsed <= FullTurn ==> r == angle + RotationSpeed * elapsed
    ensures angle + RotationSpeed * elapsed > FullTurn ==> r == angle + RotationSpeed * elapsed - FullTurn
  {
    var advanced := angle + RotationSpeed * elapsed;
    if advanced > FullTurn then advanced - FullTurn else advanced
  }

  /** The angle after a sequence of frames, given each frame's elapsed time. */
  function AngleAfter(angle: real, frames: seq<real>): real
    decreases |frames|
  {
    if frames == [] then angle else AngleAfter(AdvanceAngle(angle, frames[0]), frames[1..])
  }

  /** As long as no frame takes longer than 12 seconds (one full turn), the angle stays within [0, 360]. */
  lemma {:induction false} AngleStaysInOneTurn(angle: real, frames: seq<real>)
    requires 0.0 <= angle <= FullTurn
    requires forall i :: 0 <= i < |frames| ==> 0.0 <= frames[i] <= FullTurn / RotationSpeed
    ensures 0.0 <= AngleAfter(angle, frames) <= FullTurn
    decreases |frames|
  {
    if frames != [] {
      AngleStaysInOneTurn(AdvanceAngle(angle, frames[0]), frames[1..]);
    }
  }
}
