/**
 * The camera object: its fields, the two members whose bodies are in the header,
 * and the constructor, rotate and getViewMatrix, whose bodies are not part of
 * this model. Those three are modelled as: the constructor stores position and
 * target and derives the look angles and the basis from target - position; rotate
 * turns by the angles and rebuilds the basis from them; getViewMatrix looks from
 * the position along the front. Normalisation, trigonometry and the angles a new
 * camera takes are uninterpreted.
 */
module CameraModel {
  import opened Geometry

  class Camera {
    var yaw: real
    var pitch: real
    var cameraPosition: Vec3
    var cameraTarget: Vec3
    var cameraFrontDirection: Vec3
    var cameraRightDirection: Vec3
    var cameraUpDirection: Vec3

    /** The camera is as the constructor leaves it for these arguments. */
    ghost predicate Built(position: Vec3, target: Vec3, up: Vec3, num: Numerics)
      reads this
    {
      cameraPosition == position && cameraTarget == target &&
      (yaw, pitch) == num.angles(Sub(target, position)) &&
      cameraFrontDirection == num.normalize(Sub(target, position)) &&
      cameraRightDirection == num.normalize(Cross(cameraFrontDirection, up)) &&
      cameraUpDirection == num.normalize(Cross(cameraRightDirection, cameraFrontDirection))
    }

    /** Stores position and target and derives the angles and the basis from the viewing direction. */
    constructor (position: Vec3, target: Vec3, up: Vec3, num: Numerics)
      ensures Built(position, target, up, num)
    {
      var direction := Sub(target, position);
      yaw := num.angles(direction).0;
      pitch := num.angles(direction).1;
      cameraPosition := position;
      cameraTarget := target;
      var front := num.normalize(direction);
      var right := num.normalize(Cross(front, up));
      cameraFrontDirection := front;
      cameraRightDirection := right;
      cameraUpDirection := num.normalize(Cross(right, front));
    }

    /** The view from the position along the front direction. */
    function GetViewMatrix(): (v: View)
      reads this
      ensures v.eye == cameraPosition && v.up == cameraUpDirection
      ensures Sub(v.center, v.eye) == cameraFrontDirection
    {
      LookAt(cameraPosition, Add(cameraPosition, cameraFrontDirection), cameraUpDirection)
    }

    /** The basis is the one the camera's own angles give: front from yaw and pitch, then right and up from the front. */
    ghost predicate Oriented(num: Numerics)
      reads this
    {
      cameraFrontDirection == num.normalize(num.direction(yaw, pitch)) &&
      cameraRightDirection == num.normalize(Cross(cameraFrontDirection, WorldUp)) &&
      cameraUpDirection == num.normalize(Cross(cameraRightDirection, cameraFrontDirection))
    }

    /** Turns the camera by its own look angles and rebuilds the basis from them. */
    method Rotate(pitchDelta: real, yawDelta: real, num: Numerics)
      modifies this
      ensures yaw == old(yaw) + yawDelta && pitch == ClampPitch(old(pitch) + pitchDelta)
      ensures Oriented(num)
      ensures cameraPosition == old(cameraPosition) && cameraTarget == old(cameraTarget)
    {
      yaw := yaw + yawDelta;
      pitch := ClampPitch(pitch + pitchDelta);
      var front := num.normalize(num.direction(yaw, pitch));
      var right := num.normalize(Cross(front, WorldUp));
      cameraFrontDirection := front;
      cameraRightDirection := right;
      cameraUpDirection := num.normalize(Cross(right, front));
    }

    /** Overrides the front direction alone: the camera's yaw and pitch are left as they were. */
    method SetCameraFront(front: Vec3)
      modifies this`cameraFrontDirection
      ensures cameraFrontDirection == front
      ensures yaw == old(yaw) && pitch == old(pitch)
      ensures cameraPosition == old(cameraPosition) && cameraTarget == old(cameraTarget)
      ensures cameraRightDirection == old(cameraRightDirection) && cameraUpDirection == old(cameraUpDirection)
    {
      cameraFrontDirection := front;
    }

    method GetPosition() returns (p: Vec3)
      ensures p == cameraPosition
    {
      p := cameraPosition;
    }
  }

  /**
   * A front direction set from outside is discarded by the next rotation, which
   * rebuilds the front from the camera's own stale angles.
   */
  method OverriddenFrontIsLostOnRotate(c: Camera, front: Vec3, num: Numerics)
    modifies c
    ensures c.cameraFrontDirection == num.normalize(num.direction(old(c.yaw), ClampPitch(old(c.pitch))))
  {
    c.SetCameraFront(front);
    assert c.yaw == old(c.yaw) && c.pitch == old(c.pitch);
    c.Rotate(0.0, 0.0, num);
  }
}
