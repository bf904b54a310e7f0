# Medieval village viewer: camera, input and mode logic

This project models the interactive core of a small OpenGL scene viewer. The viewer has two modes.
- In free-fly mode, the W/S/A/D keys move the camera, Q/E turn it, and the cursor turns the look.
- In the opening cinematic tour, the view flies through four fixed keyframes over eighteen seconds, while the camera object stays where it was. It eases each of the three legs with smoothstep.

The T key starts the tour from free-fly mode. The tour ends only when its time runs out: the T key's exit branch is never reached (see below). The keys 1, 2 and 3 select solid, wireframe or point rendering. The model also covers:
- the tree whose angle advances with wall-clock time and wraps once past a full turn;
- the texture loader's warning for sizes that are not powers of two;
- the loader's in-place vertical flip of the RGBA pixel buffer.

This is how the model is laid out:
- `SceneViewer.Viewer` is a class holding the program's globals: the held-key table, the render mode, the cursor state, the mode flag, the tour clock, the camera, the view matrix and the tree's angle.
- Each callback and per-frame update of the program is one method of `Viewer`. Every method is proved against a pure transition in its own module:
  - `Input`: the key table and render mode;
  - `ModeSwitch`: the cursor look, the mode flag and the tour clock;
  - `Movement`: free-fly translation and rotation;
  - `Tour`: the keyframes and the scripted flight;
  - `Easing`: `clamp01`, `easeInOut` and `lerpVec3`;
  - `TreeAnimation`: the tree's angle.
- The lemmas about those transitions state what the program promises.
- `CameraModel.Camera` is the camera class: its fields, and the two members whose bodies are in the header.
- `Texture` holds the bit test and the flip loop. The flip runs over a Dafny `array`, swapping bytes through two moving indices.

Vectors are triples of reals, and the view matrix is the symbolic value `LookAt(eye, center, up)`.

The program reads its forward axis back out of the view matrix. The entries it reads, `-view[0][2]` and `-view[2][2]`, are the x and z of `normalize(center - eye)`. That is how glm::lookAt builds the matrix, and `Movement.LevelFront` states it.

Four pieces of numerics are parameters of the model:
- vector normalisation, in `Geometry.Numerics`;
- the spherical-to-Cartesian direction, in `Geometry.Numerics`;
- the yaw and pitch a new camera takes for its viewing direction, in `Geometry.Numerics`;
- the wall clock, as a `now` argument.

Behaviour worth noting:
- **The T key is level-triggered, not edge-triggered.** `processMovement` tests whether the key is held in each frame it runs.
- **The tour's timeout does not itself re-arm the first-sample flag.** The model proves that this flag is already set whenever the tour runs (`ModeSwitch.ReachableStatesAreValid`). So the first cursor sample after the tour ends still produces no offset (`ModeSwitch.LeavingTourGivesZeroOffset`).
- **The segment index is not clamped.** It is a C++ truncation toward zero of `t*3`. On `[0, 1)` it coincides with a clamped floor (`Tour.SegmentSelection`). Any other index selects the last leg (`Tour.LegOf`).
- **The tour's start-time sentinel is the value 0.0.** A clock that reads exactly 0.0 at the tour's first frame leaves the tour unstarted for that frame.
- **The cursor callback uploads its view only to the main shader, not to the sky shader.** Uploads are not modelled, so this shows only in the write-up here.
- **The tour moves only the view, not the camera.** The tour writes the view matrix (main.cpp:703) and never the camera, as the frame of `SceneViewer.Viewer.UpdateCinematicCamera` shows. So after the tour ends, the first cursor sample (main.cpp:206) or frame with a motion key held (main.cpp:284-285) snaps the view back to the camera the tour started from. A translation moves that camera one step along the level front of the tour's last view (`SceneViewer.Viewer.MouseCallback`, `SceneViewer.Viewer.ProcessMovement`).
- **The T key's exit branch is unreachable.** The main loop calls `processMovement` only when the tour is not running (main.cpp:737-742), so that branch of `processMovement` (main.cpp:275-278) is never taken. It is modelled as written, in `ModeSwitch.ToggleTour`.

## Model

| member | source | states |
|---|---|---|
| Geometry.ClampPitch | main.cpp:194-197 | the result is within [-89, 89]; values inside are kept; values above or below become 89 or -89 |
| Easing.Clamp01 | main.cpp:641-645 | the result is within [0, 1]; inputs inside are kept; inputs below 0 give 0 and inputs above 1 give 1 |
| Easing.Smoothstep | main.cpp:649 | no contract of its own: the polynomial u²(3-2u); `SmoothstepRange`, `EaseInOut` and `EaseInOutMonotone` state its range, its fixed points and its monotonicity |
| Easing.SmoothstepRange | main.cpp:649 | on [0, 1] the smoothstep polynomial u²(3-2u) stays within [0, 1] |
| Easing.EaseInOut | main.cpp:647-650 | the result is within [0, 1] for every input; t ≤ 0 gives 0, t ≥ 1 gives 1, and 0.5 gives 0.5 |
| Easing.EaseInOutMonotone | main.cpp:647-650 | easing is non-decreasing over all reals, including the clamped ranges |
| Easing.EaseInOutSymmetric | main.cpp:647-650 | easing is point-symmetric: easing 1-t gives 1 minus easing t |
| Easing.LerpScalarBetween | main.cpp:652-654 | for t in [0, 1] the interpolated coordinate lies between the two end coordinates |
| Easing.LerpVec3 | main.cpp:652-654 | t = 0 gives a and t = 1 gives b; for t in [0, 1] every coordinate lies between those of a and b |
| Tour.TruncateToInt | main.cpp:684 | the int conversion truncates toward zero: for x ≥ 0 it is the floor of x, for x ≤ 0 the ceiling |
| Tour.LegPose | main.cpp:688-701 | local time ≤ 0 is at the leg's start keyframe and ≥ 1 at its end keyframe, for both position and look-at |
| Tour.LegOf | main.cpp:690-701 | index 0 picks leg 0, index 1 picks leg 1, and every other index the last leg |
| Tour.SegmentSelection | main.cpp:682-701 | for t in [0, 1) the index is floor(3t) in {0, 1, 2}, and the pose is that leg's at local time 3t - index |
| Tour.TourHitsKeyframe | main.cpp:672-701 | at t = k/3, for k = 0, 1, 2, the position is p_k and the look-at is l_k |
| Tour.TourViewAtKeyframe | main.cpp:703 | at t = k/3 the view looks from p_k at l_k with the world's up |
| Tour.LegsJoin | main.cpp:688-701 | each leg ends where the next begins, and the last ends at p3 and l3 |
| Tour.LegStaysBetweenKeyframes | main.cpp:688-701 | within a leg the camera stays in the box spanned by the leg's two keyframe positions |
| Tour.TourPose | main.cpp:683-701 | no contract of its own: the leg the truncated segment index selects, at its eased local time; `SegmentSelection`, `TourHitsKeyframe`, `LegsJoin` and `LegStaysBetweenKeyframes` state its behaviour |
| Tour.TourView | main.cpp:683-703 | no contract of its own: lookAt from the tour pose with world up; `TourViewAtKeyframe` and `SixSecondsReachesSecondKeyframe` pin it at the keyframes, and `ShowTourAt` is proved equal to it |
| Input.KeyTable | main.cpp:150-157 | the table keeps 1024 entries; a press of an in-range key sets its entry and a release clears it; every other entry, every other action and every out-of-range key leave the table unchanged |
| Input.KeyTableTracksLatestEvent | main.cpp:150-157 | after any sequence of events, each key's entry is its latest press or release, or its initial value if it has none |
| Input.ModeAfter | main.cpp:159-169 | pressing 1, 2 or 3 selects solid, wireframe or points; any other key or action keeps the mode |
| ModeSwitch.MouseLook | main.cpp:176-197 | the first sample moves nothing; later samples add 0.1 times the horizontal travel to yaw and 0.1 times the inverted vertical travel to pitch, then clamp pitch; the sample becomes the new baseline |
| ModeSwitch.OnCursor | main.cpp:172-197 | while the tour runs nothing changes; the mode and the tour clock never change; the first-sample invariant and the pitch range are preserved |
| ModeSwitch.StartTour | main.cpp:211-215 | the tour runs with its clock unset and the first-sample flag set, and the rest of the look state is untouched |
| ModeSwitch.ToggleTour | main.cpp:274-282 | the mode flips and the first-sample flag is set; leaving keeps the clock and entering unsets it |
| ModeSwitch.Tick | main.cpp:656-669 | outside the tour nothing changes and nothing is drawn; the look state is kept; an unset clock starts at `now`; a frame is drawn exactly when the tour is still running; the first-sample invariant is preserved |
| ModeSwitch.TickTiming | main.cpp:663-669 | the tour keeps running exactly while fewer than 18 seconds have passed since its start; a drawn frame is at the elapsed fraction of 18 s, which lies in [0, 1) |
| ModeSwitch.RunKeepsInvariants | main.cpp:172-282 | after any sequence of cursor samples, tour starts, T-key presses and frames, the first-sample invariant and the pitch range still hold |
| ModeSwitch.ReachableStatesAreValid | main.cpp:75-107 | from the program's initial state, every reachable state has the first-sample flag set while the tour runs, and pitch within [-89, 89] |
| ModeSwitch.LeavingTourGivesZeroOffset | main.cpp:176-185 | whichever event ends the tour, the next cursor sample leaves yaw unchanged and pitch only clamped |
| ModeSwitch.RestartBeginsAtTimeZero | main.cpp:211-215 | after entering the tour, the first update starts the clock at `now` and draws time 0 |
| ModeSwitch.RestartShowsFirstKeyframe | main.cpp:660-703 | after entering the tour, the first frame drawn looks from p0 at l0 |
| ModeSwitch.SixSecondsIsOneThird | main.cpp:663-664 | six seconds after the start the frame drawn is at time 1/3 |
| ModeSwitch.SixSecondsReachesSecondKeyframe | main.cpp:663-703 | six seconds after the start the view looks from p1 at l1 |
| ModeSwitch.TrailKeepsPitchClamped | main.cpp:191-197 | after any non-empty sequence of cursor samples the pitch is within [-89, 89] |
| ModeSwitch.TrailYawTelescopes | main.cpp:182-191 | from an armed baseline, yaw grows by 0.1 times the total horizontal travel: last sample minus first |
| CameraModel.Camera.constructor | Camera.hpp:15 | the camera stores the position and target; yaw and pitch are the (uninterpreted) angles of the direction to the target; the front is the normalised direction to the target, and right and up derive from it (`Built`) |
| CameraModel.Camera.GetViewMatrix | Camera.hpp:17 | the view is from the camera's position along its front, with its up |
| CameraModel.Camera.Rotate | Camera.hpp:25 | yaw grows by the delta; pitch grows by its delta and is clamped; the front is rebuilt from the two angles, and right and up from the front; position and target are kept |
| CameraModel.Camera.SetCameraFront | Camera.hpp:27 | the front becomes the argument; yaw, pitch, position, target, right and up are all left as they were |
| CameraModel.Camera.GetPosition | Camera.hpp:29 | returns the stored position and changes nothing |
| CameraModel.OverriddenFrontIsLostOnRotate | Camera.hpp:20-27 | a front set from outside is replaced on the next rotation by the front of the camera's own, stale angles |
| Movement.YawChange | main.cpp:264-272 | with Q and E both held, or neither held, the yaw does not change |
| Movement.LevelFront | main.cpp:220-224 | no contract of its own: the forward axis of the view with its height dropped, renormalised; `LevelFrontIgnoresTranslation` states that it depends only on the viewing direction |
| Movement.LevelFrontIgnoresTranslation | main.cpp:220-224 | moving eye and centre by the same offset leaves the level front unchanged |
| Movement.LevelRight | main.cpp:226 | no contract of its own: the normalised cross product of the level front and world up; `ProcessMovement` states the camera against it |
| Movement.Forward | main.cpp:228-234 | no contract of its own: one speed step along the front, looking one level front ahead; `BackwardUndoesForward` and `NetDisplacement` are stated against it |
| Movement.Backward | main.cpp:237-243 | no contract of its own: one speed step back along the front, looking one level front ahead; `BackwardUndoesForward` states that it undoes `Forward` |
| Movement.BackwardUndoesForward | main.cpp:228-243 | a backward step from where a forward step ended returns to the start |
| Movement.StrafeLeft | main.cpp:246-252 | no contract of its own: one speed step against the right axis, looking one full front ahead; `StrafeRightUndoesStrafeLeft` and `NetDisplacement` are stated against it |
| Movement.StrafeRight | main.cpp:255-261 | no contract of its own: one speed step along the right axis, looking one full front ahead |
| Movement.StrafeRightUndoesStrafeLeft | main.cpp:246-261 | a step right from where a step left ended returns to the start |
| Movement.Translate | main.cpp:228-262 | no contract of its own: the last of the W, S, A, D rebuilds, each starting from the previous one's position; `RebuildWhenTranslating`, `NetDisplacement` and `TargetFollowsLastRebuild` state its behaviour |
| Movement.RebuildWhenTranslating | main.cpp:228-262 | the camera is rebuilt exactly when W, S, A or D is held |
| Movement.NetDisplacement | main.cpp:228-262 | the final position is the start moved by the speed along front for W minus S, and along right for D minus A |
| Movement.TargetFollowsLastRebuild | main.cpp:228-262 | the target is set by the last rebuild: one level front ahead after W or S alone, one front ahead once A or D is held |
| TreeAnimation.AdvanceAngle | main.cpp:465-475 | the angle advances by 30 degrees per second; an advance up to 360 is kept and one past 360 loses exactly one turn; so it stays at most 360 exactly when the advance did not pass 720, and is non-negative for non-negative inputs |
| TreeAnimation.AngleStaysInOneTurn | main.cpp:465-475 | when no frame is longer than 12 s, the angle stays within [0, 360] over any sequence of frames |
| Texture.BitAnd | main.cpp:412 | the bitwise AND is at most each operand |
| Texture.BitAndSelf | main.cpp:412 | n AND n is n |
| Texture.PowerOfTwoTest | main.cpp:412 | for n > 0, n AND (n - 1) is zero exactly when n is a power of two |
| Texture.NpotWarningExact | main.cpp:411-416 | for positive sides the warning fires exactly when a side is not a power of two |
| Texture.DimensionWarns | main.cpp:412 | no contract of its own: the test d & (d-1) != 0 for one side; `PowerOfTwoTest` states when it fires |
| Texture.NpotWarning | main.cpp:412 | no contract of its own: either side fails the test; `NpotWarningExact` states it for positive sides |
| Texture.Flipped | main.cpp:418-437 | the reference result of the flip: the rows in reverse order, of the same length; `FlippedAt`, `FlippedTwice` and `FlippedRowPair` state its contents, and `FlipVertically` is proved equal to it |
| Texture.FlippedAt | main.cpp:418-437 | in the flipped buffer, the byte at (row r, column c) is the original byte at (row y-1-r, column c) |
| Texture.FlippedKeepsMiddleRow | main.cpp:422-437 | for an odd number of rows the middle row is unchanged |
| Texture.FlippedTwice | main.cpp:418-437 | flipping twice gives the original buffer |
| Texture.FlippedRowPair | main.cpp:424-435 | each row of the upper half and its mirror row hold each other's original bytes |
| Texture.SwapRows | main.cpp:426-435 | the inner loop swaps the two rows byte by byte and leaves every other byte alone |
| Texture.FlipVertically | main.cpp:418-437 | the buffer becomes its vertical flip |
| Texture.PreparePixels | main.cpp:411-437 | the warning is the power-of-two test of both sides, and the buffer is flipped |
| SceneViewer.Viewer.constructor | main.cpp:64-108 | the initial globals: the tour is running with its clock unset; the first-sample flag is set; the baseline is (512, 384) and the angles are (-90, 0); no key is held; solid mode; the camera is built at (0,1,5) looking at (0,1,4) with world up, and carries that construction's angles and basis; the view is the camera's, as initUniforms sets it at main.cpp:349 |
| SceneViewer.Viewer.KeyboardCallback | main.cpp:144-170 | escape with a press requests closing; the key table and the render mode follow `KeyTable` and `ModeAfter` |
| SceneViewer.Viewer.MouseCallback | main.cpp:172-209 | the look state follows `OnCursor`; while the tour runs the camera and view are untouched; otherwise the camera's front is the normalised direction of the new angles while its own angles, position, target, right and up are kept, and the view is the camera's |
| SceneViewer.Viewer.StartCinematicTour | main.cpp:211-215 | the mode state follows `StartTour` |
| SceneViewer.Viewer.Rebuild | main.cpp:229-233 | the camera is replaced by a fresh one built at the given position and target with world up: its angles and whole basis are the constructor's |
| SceneViewer.Viewer.MoveAlongKeys | main.cpp:228-262 | moved is set exactly when a translation key is held; the camera is the old one when `Translate` plans nothing, and otherwise a fresh camera built at the planned position and target |
| SceneViewer.Viewer.TurnAlongKeys | main.cpp:264-272 | turned is set exactly when Q or E is held; yaw changes by `YawChange`; a turned camera has its pitch re-clamped and its front, right and up rebuilt from its angles; position and target are kept, and an unturned camera is unchanged |
| SceneViewer.Viewer.ToggleCinematic | main.cpp:274-282 | the mode state follows `ToggleTour` |
| SceneViewer.Viewer.SteerCamera | main.cpp:228-272 | moved is set exactly when a motion key is held; the camera is the old one or a fresh one built where `Translate` plans, then turned by `YawChange` with its pitch re-clamped and basis rebuilt when Q or E is held |
| SceneViewer.Viewer.ProcessMovement | main.cpp:217-294 | the level basis is computed once from the old view; the camera is the old one or a fresh one built where `Translate` plans; its yaw is its starting yaw plus `YawChange`, and when Q or E is held its pitch is re-clamped and its basis rebuilt from its angles, otherwise it is exactly as built or untouched; T toggles the tour; the view is refreshed, to the final camera's, exactly when a motion key is held |
| SceneViewer.Viewer.ShowTourAt | main.cpp:682-703 | the view becomes `TourView(t)` |
| SceneViewer.Viewer.AdvanceTourClock | main.cpp:657-669 | the mode state and the returned progress are those of `Tick` |
| SceneViewer.Viewer.UpdateCinematicCamera | main.cpp:656-711 | the mode state follows `Tick`; a drawn frame sets the view to `TourView` of its progress; otherwise the view is untouched |
| SceneViewer.Viewer.UpdateTreeRotation | main.cpp:465-475 | the time stamp becomes `now` and the angle follows `AdvanceAngle` for the elapsed time |

## Left out

- OpenGL and GLFW calls are not modelled: uniform uploads, shader selection, polygon modes, texture creation, window creation, callback registration and `renderScene`'s draw sequence. They are foreign graphics APIs. Closing the window is modelled as the flag `closeRequested`.
- The main loop's dispatch, which calls either the tour update or `processMovement` in each frame, is not modelled. It is a branch on the mode flag around those two calls (main.cpp:737-742). Its consequence for the T key is described above.
- `stbi_load` and its failure branch are not modelled: they are file I/O. The pixel work takes the loaded buffer and its sides as parameters.
- `Camera.cpp` is not part of this model. The constructor, `Rotate` and `GetViewMatrix` are modelled as a camera that derives its front from its target, rebuilds its basis from its clamped angles on rotation, and looks from its position along its front. The model leaves out `move`: it has neither a visible body nor a caller in the core.
- `CameraModel.Camera.constructor`: the angles a new camera takes are uninterpreted (`Numerics.angles` of the direction to the target). The header's initialisers of -90 and 0 (Camera.hpp:20-21) are one admissible choice, namely the one where the constructor leaves them alone.
- `CameraModel.Camera.constructor`, `CameraModel.Camera.Rotate` and `CameraModel.Camera.GetViewMatrix` do not state that the directions are unit vectors, because normalisation is uninterpreted.
- Normalisation, the sine/cosine direction and a new camera's angles are uninterpreted parameters. They are square roots and trigonometry.
- Floating-point rounding is not modelled; all arithmetic is over the reals. So `6/18*3` is exactly 1 here, and `SixSecondsReachesSecondKeyframe` holds only over the reals.
- `Texture.FlipVertically`: the model does not capture the 32-bit overflow of `x*4` and `(y-row-1)*width_in_bytes` for very large images.
- The program assigns a fresh camera by value copy. The model instead replaces the viewer's reference with a new object. Nothing else holds the camera, so aliasing cannot be observed.
- `SceneViewer.Viewer.MouseCallback`, `SceneViewer.Viewer.ProcessMovement` and `SceneViewer.Viewer.UpdateCinematicCamera` do not state the shader uploads they perform, since uploads are not modelled.
- Structure: in `processMovement`, the translation keys, the rotation keys and the T key are each a helper method (`MoveAlongKeys`, `TurnAlongKeys`, `ToggleCinematic`), and `SteerCamera` runs the first two in order. In `updateCinematicCamera`, the clock step and the drawing are each a helper (`AdvanceTourClock`, `ShowTourAt`). Each helper holds its branch's code unchanged, in the same order.
