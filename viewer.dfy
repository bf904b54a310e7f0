/**
 * The viewer's process-wide state and the callbacks and per-frame updates that
 * change it. Each method does what the program does, step by step, and its
 * contract ties the new state to the pure transitions of ModeSwitch, Input,
 * Movement, Tour and TreeAnimation.
 */
module SceneViewer {
  import opened Options
  import opened Geometry
  import opened Easing
  import opened CameraModel
  import opened Input
  import opened Tour
  import opened ModeSwitch
  import opened Movement
  import opened TreeAnimation

  class Viewer {
    var currentMode: RenderMode
    /** Set when escape asks the window to close. */
    var closeRequested: bool
    /** The view matrix shared by input handling and rendering. */
    var view: View
    var myCamera: Camera
    var pressedKeys: array<bool>
    var firstMouse: bool
    var lastX: real
    var lastY: real
    var yaw: real
    var pitch: real
    var cinematic: bool
    var cinematicStartTime: real
    var treeRotationAngle: real
    var lastTimeStamp: real

    /** The mode flag, tour clock and cursor-look globals as one value. */
    ghost function State(): ControlState
      reads this`cinematic, this`cinematicStartTime, this`firstMouse, this`lastX, this`lastY, this`yaw, this`pitch
    {
      ControlState(cinematic, cinematicStartTime, Look(firstMouse, lastX, lastY, yaw, pitch))
    }

    /** The key table has one entry per key code; the tour re-arms the cursor; pitch is clamped. */
    ghost predicate Valid()
      reads this`pressedKeys, this`cinematic, this`cinematicStartTime, this`firstMouse, this`lastX, this`lastY, this`yaw, this`pitch
    {
      pressedKeys.Length == KeyCount && Invariant(State()) && PitchInRange(State())
    }

    /** Program start: the globals' initial values, then the first view taken from the camera. */
    constructor (num: Numerics, clock: real)
      ensures Valid() && fresh(pressedKeys) && fresh(myCamera)
      ensures State() == InitialState
      ensures forall k :: 0 <= k < pressedKeys.Length ==> !pressedKeys[k]
      ensures currentMode == Solid && !closeRequested
      ensures myCamera.Built(Vec3(0.0, 1.0, 5.0), Vec3(0.0, 1.0, 4.0), WorldUp, num)
      ensures view == myCamera.GetViewMatrix()
      ensures treeRotationAngle == 0.0 && lastTimeStamp == clock
    {
      currentMode := Solid;
      closeRequested := false;
      var camera := new Camera(Vec3(0.0, 1.0, 5.0), Vec3(0.0, 1.0, 4.0), Vec3(0.0, 1.0, 0.0), num);
      myCamera := camera;
      pressedKeys := new bool[KeyCount](_ => false);
      firstMouse := true;
      lastX := 512.0;
      lastY := 384.0;
      yaw := -90.0;
      pitch := 0.0;
      treeRotationAngle := 0.0;
      lastTimeStamp := clock;
      cinematic := true;
      cinematicStartTime := 0.0;
      view := camera.GetViewMatrix();
    }

    /** A key event: escape requests closing, the table records presses and releases, 1/2/3 pick the render mode. */
    method KeyboardCallback(key: int, action: int)
      requires Valid()
      modifies this`closeRequested, this`currentMode, pressedKeys
      ensures Valid()
      ensures pressedKeys[..] == KeyTable(old(pressedKeys[..]), key, action)
      ensures currentMode == ModeAfter(old(currentMode), key, action)
      ensures closeRequested == (old(closeRequested) || (key == KeyEscape && action == Press))
    {
      if key == KeyEscape && action == Press {
        closeRequested := true;
      }
      if 0 <= key < KeyCount {
        if action == Press {
          pressedKeys[key] := true;
        } else if action == Release {
          pressedKeys[key] := false;
        }
      }
      if action == Press {
        if key == Key1 {
          currentMode := Solid;
        }
        if key == Key2 {
          currentMode := Wireframe;
        }
        if key == Key3 {
          currentMode := Points;
        }
      }
    }

    /** A cursor sample: ignored during the tour; otherwise turns the look and installs it as the camera's front. */
    method MouseCallback(xpos: real, ypos: real, num: Numerics)
      requires Valid()
      modifies this`firstMouse, this`lastX, this`lastY, this`yaw, this`pitch, this`view, myCamera
      ensures Valid()
      ensures State() == OnCursor(old(State()), xpos, ypos)
      ensures old(cinematic) ==> view == old(view) && unchanged(myCamera)
      ensures !old(cinematic) ==>
        myCamera.cameraFrontDirection == num.normalize(num.direction(yaw, pitch)) &&
        myCamera.yaw == old(myCamera.yaw) && myCamera.pitch == old(myCamera.pitch) &&
        myCamera.cameraPosition == old(myCamera.cameraPosition) && myCamera.cameraTarget == old(myCamera.cameraTarget) &&
        myCamera.cameraRightDirection == old(myCamera.cameraRightDirection) &&
        myCamera.cameraUpDirection == old(myCamera.cameraUpDirection) &&
        view == myCamera.GetViewMatrix()
    {
      if cinematic {
        return;
      }
      if firstMouse {
        lastX := xpos;
        lastY := ypos;
        firstMouse := false;
      }
      var xoffset := xpos - lastX;
      var yoffset := lastY - ypos;
      lastX := xpos;
      lastY := ypos;
      xoffset := xoffset * Sensitivity;
      yoffset := yoffset * Sensitivity;
      yaw := yaw + xoffset;
      pitch := pitch + yoffset;
      if pitch > PitchLimit {
        pitch := PitchLimit;
      }
      if pitch < -PitchLimit {
        pitch := -PitchLimit;
      }
      var direction := num.direction(yaw, pitch);
      myCamera.SetCameraFront(num.normalize(direction));
      view := myCamera.GetViewMatrix();
    }

    /** Enters the tour with its clock unset and the cursor baseline re-armed. */
    method StartCinematicTour()
      modifies this`cinematic, this`cinematicStartTime, this`firstMouse
      ensures State() == StartTour(old(State()))
    {
      cinematic := true;
      cinematicStartTime := 0.0;
      firstMouse := true;
    }

    /** After the rebuilds `plan` describes, the camera is the last one built, or still `camera0` at `start` if none was. */
    ghost predicate Placed(plan: Option<Placement>, start: Vec3, camera0: Camera, num: Numerics)
      reads this, myCamera, camera0
    {
      if plan.Some? then
        myCamera != camera0 && myCamera.Built(plan.value.position, plan.value.target, WorldUp, num)
      else
        myCamera == camera0 && camera0.cameraPosition == start
    }

    /** Replaces the camera by a new one at the placement's position, looking at its target, with the world's up. */
    method Rebuild(placement: Placement, num: Numerics)
      modifies this`myCamera
      ensures fresh(myCamera)
      ensures myCamera.Built(placement.position, placement.target, WorldUp, num)
    {
      myCamera := new Camera(placement.position, placement.target, WorldUp, num);
    }

    /** The translation keys of one frame: W, S, A, D in turn each rebuild the camera one step further. */
    method MoveAlongKeys(front: Vec3, right: Vec3, num: Numerics) returns (moved: bool)
      requires pressedKeys.Length == KeyCount
      modifies this`myCamera
      ensures moved == (pressedKeys[KeyW] || pressedKeys[KeyS] || pressedKeys[KeyA] || pressedKeys[KeyD])
      ensures Placed(Translate(old(myCamera.cameraPosition), pressedKeys[..], front, right), old(myCamera.cameraPosition), old(myCamera), num)
      ensures myCamera == old(myCamera) || fresh(myCamera)
    {
      moved := false;
      ghost var start := myCamera.cameraPosition;
      ghost var camera0 := myCamera;
      var plan: Option<Placement> := None;
      if pressedKeys[KeyW] {
        var position := myCamera.GetPosition();
        plan := Some(Forward(position, front));
        Rebuild(plan.value, num);
        moved := true;
      }
      assert Placed(plan, start, camera0, num);
      if pressedKeys[KeyS] {
        var position := myCamera.GetPosition();
        plan := Some(Backward(position, front));
        Rebuild(plan.value, num);
        moved := true;
      }
      assert Placed(plan, start, camera0, num);
      if pressedKeys[KeyA] {
        var position := myCamera.GetPosition();
        plan := Some(StrafeLeft(position, front, right));
        Rebuild(plan.value, num);
        moved := true;
      }
      assert Placed(plan, start, camera0, num);
      if pressedKeys[KeyD] {
        var position := myCamera.GetPosition();
        plan := Some(StrafeRight(position, front, right));
        Rebuild(plan.value, num);
        moved := true;
      }
      assert plan == Translate(start, pressedKeys[..], front, right);
    }

    /** The rotation keys of one frame: Q turns the camera's yaw by -2 degrees, then E by +2. */
    method TurnAlongKeys(num: Numerics) returns (turned: bool)
      requires pressedKeys.Length == KeyCount
      modifies myCamera
      ensures turned == (pressedKeys[KeyQ] || pressedKeys[KeyE])
      ensures myCamera.yaw == old(myCamera.yaw) + YawChange(pressedKeys[..])
      ensures myCamera.cameraPosition == old(myCamera.cameraPosition) && myCamera.cameraTarget == old(myCamera.cameraTarget)
      ensures turned ==> myCamera.pitch == ClampPitch(old(myCamera.pitch)) && myCamera.Oriented(num)
      ensures !turned ==> unchanged(myCamera)
    {
      turned := false;
      if pressedKeys[KeyQ] {
        myCamera.Rotate(0.0, -RotationStep, num);
        turned := true;
      }
      if pressedKeys[KeyE] {
        myCamera.Rotate(0.0, RotationStep, num);
        turned := true;
      }
    }

    /** The T key: leave the tour, re-arming the cursor baseline, or enter it. */
    method ToggleCinematic()
      modifies this`cinematic, this`cinematicStartTime, this`firstMouse
      ensures State() == ToggleTour(old(State()))
    {
      if cinematic {
        cinematic := false;
        firstMouse := true;
      } else {
        StartCinematicTour();
      }
    }

    /** The camera part of processMovement: translate along the held keys, then turn along Q and E. */
    method SteerCamera(front: Vec3, right: Vec3, num: Numerics) returns (moved: bool)
      requires pressedKeys.Length == KeyCount
      modifies this`myCamera, myCamera
      ensures moved == AnyMotion(pressedKeys[..])
      ensures var plan := Translate(old(myCamera.cameraPosition), pressedKeys[..], front, right);
        (plan.None? ==> myCamera == old(myCamera) && myCamera.cameraPosition == old(myCamera.cameraPosition) &&
                        myCamera.cameraTarget == old(myCamera.cameraTarget)) &&
        (plan.Some? ==> fresh(myCamera) && myCamera.cameraPosition == plan.value.position &&
                        myCamera.cameraTarget == plan.value.target) &&
        (plan.Some? && !pressedKeys[KeyQ] && !pressedKeys[KeyE] ==>
                        myCamera.Built(plan.value.position, plan.value.target, WorldUp, num))
      ensures !pressedKeys[KeyQ] && !pressedKeys[KeyE] && myCamera == old(myCamera) ==> unchanged(myCamera)
      ensures var angles := if myCamera == old(myCamera) then (old(myCamera.yaw), old(myCamera.pitch))
                            else num.angles(Sub(myCamera.cameraTarget, myCamera.cameraPosition));
        myCamera.yaw == angles.0 + YawChange(pressedKeys[..]) &&
        (pressedKeys[KeyQ] || pressedKeys[KeyE] ==> myCamera.pitch == ClampPitch(angles.1) && myCamera.Oriented(num))
    {
      moved := MoveAlongKeys(front, right, num);
      var turned := TurnAlongKeys(num);
      moved := moved || turned;
    }

    /**
     * One free-fly frame: level basis from the current view, camera rebuilt for each
     * held translation key, turned for each held rotation key, the T key toggling
     * the tour, and the view refreshed if anything moved.
     */
    method ProcessMovement(num: Numerics)
      requires Valid()
      modifies this`myCamera, this`view, this`cinematic, this`cinematicStartTime, this`firstMouse, myCamera
      ensures Valid()
      ensures State() == if pressedKeys[KeyT] then ToggleTour(old(State())) else old(State())
      ensures var front := LevelFront(old(view), num);
        var plan := Translate(old(myCamera.cameraPosition), pressedKeys[..], front, LevelRight(front, num));
        (plan.None? ==> myCamera == old(myCamera) && myCamera.cameraPosition == old(myCamera.cameraPosition) &&
                        myCamera.cameraTarget == old(myCamera.cameraTarget)) &&
        (plan.Some? ==> fresh(myCamera) && myCamera.cameraPosition == plan.value.position &&
                        myCamera.cameraTarget == plan.value.target) &&
        (plan.Some? && !pressedKeys[KeyQ] && !pressedKeys[KeyE] ==>
                        myCamera.Built(plan.value.position, plan.value.target, WorldUp, num))
      ensures !pressedKeys[KeyQ] && !pressedKeys[KeyE] && myCamera == old(myCamera) ==> unchanged(myCamera)
      ensures var angles := if myCamera == old(myCamera) then (old(myCamera.yaw), old(myCamera.pitch))
                            else num.angles(Sub(myCamera.cameraTarget, myCamera.cameraPosition));
        myCamera.yaw == angles.0 + YawChange(pressedKeys[..]) &&
        (pressedKeys[KeyQ] || pressedKeys[KeyE] ==> myCamera.pitch == ClampPitch(angles.1) && myCamera.Oriented(num))
      ensures view == if AnyMotion(pressedKeys[..]) then myCamera.GetViewMatrix() else old(view)
    {
      // -view[0][2] and -view[2][2] are the x and z of the forward axis of glm::lookAt.
      var forward := num.normalize(Sub(view.center, view.eye));
      var front := num.normalize(Vec3(forward.x, 0.0, forward.z));
      var right := num.normalize(Cross(front, WorldUp));
      var moved := SteerCamera(front, right, num);

      if pressedKeys[KeyT] {
        ToggleCinematic();
      }

      if moved {
        view := myCamera.GetViewMatrix();
      }
    }

    /** Draws the flight at normalised time `t`: selects the leg, eases its local time and interpolates. */
    method ShowTourAt(t: real)
      modifies this`view
      ensures view == TourView(t)
    {
      var seg := t * 3.0;
      var i := TruncateToInt(seg);
      var localT := seg - i as real;
      localT := EaseInOut(localT);
      var camPos, lookAt;
      if i == 0 {
        camPos := LerpVec3(Positions[0], Positions[1], localT);
        lookAt := LerpVec3(Targets[0], Targets[1], localT);
        TourViewOnLeg(t, 0);
      } else if i == 1 {
        camPos := LerpVec3(Positions[1], Positions[2], localT);
        lookAt := LerpVec3(Targets[1], Targets[2], localT);
        TourViewOnLeg(t, 1);
      } else {
        camPos := LerpVec3(Positions[2], Positions[3], localT);
        lookAt := LerpVec3(Targets[2], Targets[3], localT);
        TourViewOnLeg(t, 2);
      }
      view := LookAt(camPos, lookAt, WorldUp);
    }

    /** The tour's clock for one frame: start it if unset, and end the tour once its duration has passed. */
    method AdvanceTourClock(now: real) returns (progress: Option<real>)
      requires Valid()
      modifies this`cinematic, this`cinematicStartTime
      ensures Valid()
      ensures TickOutcome(State(), progress) == Tick(old(State()), now)
    {
      progress := None;
      if !cinematic {
        return;
      }
      if cinematicStartTime == 0.0 {
        cinematicStartTime := now;
      }
      var elapsed := now - cinematicStartTime;
      var t := elapsed / CinematicDuration;
      if t >= 1.0 {
        cinematic := false;
        return;
      }
      progress := Some(t);
    }

    /** One tour frame at clock time `now`: advance the clock and, while the tour lasts, draw the eased pose. */
    method UpdateCinematicCamera(now: real)
      requires Valid()
      modifies this`cinematic, this`cinematicStartTime, this`view
      ensures Valid()
      ensures State() == Tick(old(State()), now).state
      ensures Tick(old(State()), now).progress.None? ==> view == old(view)
      ensures Tick(old(State()), now).progress.Some? ==> view == TourView(Tick(old(State()), now).progress.value)
    {
      var progress := AdvanceTourClock(now);
      if progress.Some? {
        ShowTourAt(progress.value);
      }
    }

    /** Advances the tree by the time since the previous frame. */
    method UpdateTreeRotation(now: real)
      modifies this`treeRotationAngle, this`lastTimeStamp
      ensures lastTimeStamp == now
      ensures treeRotationAngle == AdvanceAngle(old(treeRotationAngle), now - old(lastTimeStamp))
    {
      var elapsedSeconds := now - lastTimeStamp;
      lastTimeStamp := now;
      treeRotationAngle := treeRotationAngle + RotationSpeed * elapsedSeconds;
      if treeRotationAngle > FullTurn {
        treeRotationAngle := treeRotationAngle - FullTurn;
      }
    }
  }
}
