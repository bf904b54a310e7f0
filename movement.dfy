/**
 * The free-fly movement of one frame, as a function of the held keys: the level
 * basis read off the published view, and the sequence of camera rebuilds the
 * translation keys W, S, A, D cause, each starting from the previous one's position.
 */
module Movement {
  import opened Options
  import opened Geometry
  import opened Input

  /** Distance per frame per held translation key. */
  const CameraSpeed: real := 0.2

  /** Degrees per frame per held rotation key. */
  const RotationStep: real := 2.0

  /**
   * The forward axis glm::lookAt puts in the third row of the view matrix is
   * normalize(center - eye); its x and z, with y dropped, give the level front.
   */
  function LevelFront(view: View, num: Numerics): Vec3 {
    var forward := num.normalize(Sub(view.center, view.eye));
    num.normalize(Vec3(forward.x, 0.0, forward.z))
  }

  /** Moving the eye and the centre by the same offset leaves the level front as it was. */
  lemma LevelFrontIgnoresTranslation(view: View, d: Vec3, num: Numerics)
    ensures LevelFront(LookAt(Add(view.eye, d), Add(view.center, d), view.up), num) == LevelFront(view, num)
  {
    assert Sub(Add(view.center, d), Add(view.eye, d)) == Sub(view.center, view.eye);
  }

  function LevelRight(front: Vec3, num: Numerics): Vec3 {
    num.normalize(Cross(front, WorldUp))
  }

  /** The position and target a rebuilt camera is constructed with. */
  datatype Placement = Placement(position: Vec3, target: Vec3)

  /** `front` with its vertical part dropped. */
  function Flat(v: Vec3): Vec3 { Vec3(v.x, 0.0, v.z) }

  function Forward(p: Vec3, front: Vec3): Placement {
    var q := Add(p, Scale(front, CameraSpeed));
    Placement(q, Add(q, Flat(front)))
  }

  function Backward(p: Vec3, front: Vec3): Placement {
    var q := Sub(p, Scale(front, CameraSpeed));
    Placement(q, Add(q, Flat(front)))
  }

  function StrafeLeft(p: Vec3, front: Vec3, right: Vec3): Placement {
    var q := Sub(p, Scale(right, CameraSpeed));
    Placement(q, Add(q, front))
  }

  function StrafeRight(p: Vec3, front: Vec3, right: Vec3): Placement {
    var q := Add(p, Scale(right, CameraSpeed));
    Placement(q, Add(q, front))
  }

  /** A backward step undoes a forward step along the same front. */
  lemma BackwardUndoesForward(p: Vec3, front: Vec3)
    ensures Backward(Forward(p, front).position, front).position == p
  {
  }

  /** A step to the right undoes a step to the left along the same right axis. */
  lemma StrafeRightUndoesStrafeLeft(p: Vec3, front: Vec3, right: Vec3)
    ensures StrafeRight(StrafeLeft(p, front, right).position, front, right).position == p
  {
  }

  function PositionOf(o: Option<Placement>, p: Vec3): Vec3 {
    if o.Some? then o.value.position else p
  }

  /** The last rebuild W, S, A, D cause, in that order, or None if none is held. */
  function Translate(p: Vec3, keys: seq<bool>, front: Vec3, right: Vec3): Option<Placement>
    requires |keys| == KeyCount
  {
    var w := if keys[KeyW] then Some(Forward(p, front)) else None;
    var s := if keys[KeyS] then Some(Backward(PositionOf(w, p), front)) else w;
    var a := if keys[KeyA] then Some(StrafeLeft(PositionOf(s, p), front, right)) else s;
    if keys[KeyD] then Some(StrafeRight(PositionOf(a, p), front, right)) else a
  }

  /** Whether any key that moves or turns the camera is held. */
  predicate AnyMotion(keys: seq<bool>)
    requires |keys| == KeyCount
  {
    keys[KeyW] || keys[KeyS] || keys[KeyA] || keys[KeyD] || keys[KeyQ] || keys[KeyE]
  }

  function Indicator(b: bool): real { if b then 1.0 else 0.0 }

  /** The yaw change of the rotation keys: Q turns by -2, E by +2. */
  function YawChange(keys: seq<bool>): (d: real)
    requires |keys| == KeyCount
    ensures keys[KeyQ] == keys[KeyE] ==> d == 0.0
  {
    RotationStep * (Indicator(keys[KeyE]) - Indicator(keys[KeyQ]))
  }

  /** A rebuild happens exactly when a translation key is held. */
  lemma RebuildWhenTranslating(p: Vec3, keys: seq<bool>, front: Vec3, right: Vec3)
    requires |keys| == KeyCount
    ensures Translate(p, keys, front, right).Some? <==> keys[KeyW] || keys[KeyS] || keys[KeyA] || keys[KeyD]
  {
  }

  /**
   * The positions of the rebuilds add up: the final position is the start moved by
   * the speed along front for W minus S and along right for D minus A.
   */
  lemma NetDisplacement(p: Vec3, keys: seq<bool>, front: Vec3, right: Vec3)
    requires |keys| == KeyCount
    ensures PositionOf(Translate(p, keys, front, right), p) ==
      Add(p, Add(Scale(front, CameraSpeed * (Indicator(keys[KeyW]) - Indicator(keys[KeyS]))),
                 Scale(right, CameraSpeed * (Indicator(keys[KeyD]) - Indicator(keys[KeyA])))))
  {
  }

  /**
   * The target is whatever the last rebuild set: one level front ahead after W or S
   * alone, one front ahead once A or D is held; opposite keys cancel in position only.
   */
  lemma TargetFollowsLastRebuild(p: Vec3, keys: seq<bool>, front: Vec3, right: Vec3)
    requires |keys| == KeyCount
    requires Translate(p, keys, front, right).Some?
    ensures var r := Translate(p, keys, front, right).value;
      r.target == Add(r.position, if keys[KeyA] || keys[KeyD] then front else Flat(front))
  {
  }
}
