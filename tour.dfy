/** The scripted opening flight: three eased legs through four fixed keyframes. */
module Tour {
  import opened Geometry
  import opened Easing

  /** Length of the whole flight, in seconds. */
  const CinematicDuration: real := 18.0

  /** Number of legs between consecutive keyframes. */
  const LegCount: nat := 3

  /** Camera positions p0..p3. */
  const Positions: seq<Vec3> :=
    [Vec3(0.0, 2.0, 12.0), Vec3(10.0, 3.0, 0.0), Vec3(45.0, 6.0, -60.0), Vec3(80.0, 4.0, -30.0)]

  /** Look-at points l0..l3. */
  const Targets: seq<Vec3> :=
    [Vec3(20.0, -3.0, -20.0), Vec3(50.0, -3.0, -10.0), Vec3(40.0, -3.0, -100.0), Vec3(80.0, -3.0, -40.0)]

  /** A C++ conversion of a floating value to int: truncation toward zero. */
  function TruncateToInt(x: real): (i: int)
    ensures 0.0 <= x ==> 0 <= i && i as real <= x < i as real + 1.0
    ensures x <= 0.0 ==> i <= 0 && i as real - 1.0 < x <= i as real
  {
    if x >= 0.0 then x.Floor else -((-x).Floor)
  }

  /** Where the camera is and what it looks at. */
  datatype Pose = Pose(position: Vec3, lookAt: Vec3)

  /** The pose at eased parameter `u` of leg `leg`, which runs from keyframe `leg` to `leg + 1`. */
  function LegPose(leg: nat, u: real): (p: Pose)
    requires leg < LegCount
    ensures u <= 0.0 ==> p == Pose(Positions[leg], Targets[leg])
    ensures u >= 1.0 ==> p == Pose(Positions[leg + 1], Targets[leg + 1])
  {
    var e := EaseInOut(u);
    Pose(LerpVec3(Positions[leg], Positions[leg + 1], e), LerpVec3(Targets[leg], Targets[leg + 1], e))
  }

  /** The leg the flight selects for the truncated segment number `i`: 0, 1, or leg 2 for anything else. */
  function LegOf(i: int): (leg: nat)
    ensures leg < LegCount
    ensures 0 <= i < LegCount ==> leg == i
    ensures !(0 <= i < LegCount) ==> leg == LegCount - 1
  {
    if i == 0 then 0 else if i == 1 then 1 else 2
  }

  /** The pose at normalised flight time `t`. */
  function TourPose(t: real): Pose {
    var seg := t * 3.0;
    var i := TruncateToInt(seg);
    LegPose(LegOf(i), seg - i as real)
  }

  /** The view the flight publishes at normalised time `t`. */
  function TourView(t: real): View {
    var p := TourPose(t);
    LookAt(p.position, p.lookAt, WorldUp)
  }

  /** The published view at `t`, written out for the leg that `t` selects. */
  lemma TourViewOnLeg(t: real, leg: nat)
    requires leg == LegOf(TruncateToInt(t * 3.0))
    ensures var u := EaseInOut(t * 3.0 - TruncateToInt(t * 3.0) as real);
      TourView(t) == LookAt(LerpVec3(Positions[leg], Positions[leg + 1], u), LerpVec3(Targets[leg], Targets[leg + 1], u), WorldUp)
  {
  }

  /** On [0, 1) the segment number is floor(3t): leg k covers [k/3, (k+1)/3) with local time 3t - k. */
  lemma SegmentSelection(t: real)
    requires 0.0 <= t < 1.0
    ensures var i := TruncateToInt(t * 3.0);
      0 <= i < LegCount && i as real <= t * 3.0 < i as real + 1.0 &&
      TourPose(t) == LegPose(i, t * 3.0 - i as real)
  {
    var i := TruncateToInt(t * 3.0);
    assert i < 3 by {
      assert i as real <= t * 3.0 < 3.0;
    }
  }

  /** At t = k/3 the flight is exactly at keyframe k. */
  lemma TourHitsKeyframe(t: real, k: nat)
    requires k < LegCount && t == k as real / 3.0
    ensures TourPose(t) == Pose(Positions[k], Targets[k])
  {
    assert t * 3.0 == k as real;
    assert TruncateToInt(t * 3.0) == k;
    assert LegOf(k) == k;
  }

  /** The published view at t = k/3 looks from keyframe k at look-at point k. */
  lemma TourViewAtKeyframe(t: real, k: nat)
    requires k < LegCount && t == k as real / 3.0
    ensures TourView(t) == LookAt(Positions[k], Targets[k], WorldUp)
  {
    TourHitsKeyframe(t, k);
  }

  /** Consecutive legs meet: the end of one leg is the start of the next, and the last ends at p3/l3. */
  lemma LegsJoin(leg: nat)
    requires leg < LegCount
    ensures LegPose(leg, 1.0) == Pose(Positions[leg + 1], Targets[leg + 1])
    ensures leg + 1 < LegCount ==> LegPose(leg, 1.0) == LegPose(leg + 1, 0.0)
  {
  }

  /** Within a leg the camera stays inside the box spanned by the leg's two keyframes. */
  lemma LegStaysBetweenKeyframes(leg: nat, u: real)
    requires leg < LegCount
    ensures var p := LegPose(leg, u).position;
      Between(Positions[leg].x, Positions[leg + 1].x, p.x) &&
      Between(Positions[leg].y, Positions[leg + 1].y, p.y) &&
      Between(Positions[leg].z, Positions[leg + 1].z, p.z)
  {
  }
}
