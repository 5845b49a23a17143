/** The three-joint chain the render loop places every frame from the
    smoothed channels (`updateScene`), and the straight curve laid between
    joints 0 and 1. */
module Kinematics {
  import opened Linear
  import opened Externals
  import opened Smoothing

  /** Initial offsets of the joints, before any rotation. */
  const P0 := Vec3(0.0, 10.0, 0.0)
  const P1 := Vec3(0.0, 0.0, 0.0)
  const P2Initial := Vec3(7.0, 0.0, 0.0)

  /** A joint's axis helper: where it sits and how it is turned. */
  datatype AxisPose = AxisPose(position: Vec3, rotation: Mat3)

  /** makeRotationY of a channel value in degrees. */
  function RotY(lib: Library, degrees: real): Mat3
  {
    var t := lib.degToRad(degrees);
    RotationY(lib.cos(t), lib.sin(t))
  }

  /** makeRotationX of a channel value in degrees. */
  function RotX(lib: Library, degrees: real): Mat3
  {
    var t := lib.degToRad(degrees);
    RotationX(lib.cos(t), lib.sin(t))
  }

  /** The `rotations` array: joint 0 turns by r0y about Y, joint 1 by r1y about
      Y, joint 2 by makeRotationX(r2x).multiply(makeRotationY(r2y)). */
  function JointRotation(lib: Library, a: Angles, i: nat): Mat3
    requires i < 3
  {
    if i == 0 then RotY(lib, a.r0y)
    else if i == 1 then RotY(lib, a.r1y)
    else Mul(RotX(lib, a.r2x), RotY(lib, a.r2y))
  }

  function InitialPoint(i: nat): Vec3
    requires i < 3
  {
    if i == 0 then P0 else if i == 1 then P1 else P2Initial
  }

  /** Where the render loop puts joint i. */
  function JointPosition(lib: Library, a: Angles, i: nat): Vec3
    requires i < 3
  {
    Apply(JointRotation(lib, a, i), InitialPoint(i))
  }

  /** The six coordinates uploaded for curve 0: joint 0, then joint 1. */
  function CurvePoints(lib: Library, a: Angles): seq<real>
  {
    var p, q := JointPosition(lib, a, 0), JointPosition(lib, a, 1);
    [p.x, p.y, p.z, q.x, q.y, q.z]
  }

  /** Joint 0 lies on the Y axis, so its Y rotation never moves it. */
  lemma JointZeroIsFixed(lib: Library, a: Angles)
    ensures JointPosition(lib, a, 0) == Vec3(0.0, 10.0, 0.0)
  {
    var t := lib.degToRad(a.r0y);
    RotationYFixesYAxis(lib.cos(t), lib.sin(t), 10.0);
  }

  /** Joint 1 starts at the origin, which every rotation fixes. */
  lemma JointOneIsAtOrigin(lib: Library, a: Angles)
    ensures JointPosition(lib, a, 1) == Origin
  {
    LinearFixesOrigin(JointRotation(lib, a, 1));
  }

  /** Joint 2 is its offset turned about Y by r2y first and then about X by
      r2x, which puts it at (7 cos y, 7 sin x sin y, -7 cos x sin y). */
  lemma JointTwoPlacement(lib: Library, a: Angles)
    ensures JointPosition(lib, a, 2) == Apply(RotX(lib, a.r2x), Apply(RotY(lib, a.r2y), P2Initial))
    ensures var cx, sx := lib.cos(lib.degToRad(a.r2x)), lib.sin(lib.degToRad(a.r2x));
            var cy, sy := lib.cos(lib.degToRad(a.r2y)), lib.sin(lib.degToRad(a.r2y));
            JointPosition(lib, a, 2) == Vec3(7.0 * cy, 7.0 * (sx * sy), -7.0 * (cx * sy))
  {
    ApplyMul(RotX(lib, a.r2x), RotY(lib, a.r2y), P2Initial);
    var cx, sx := lib.cos(lib.degToRad(a.r2x)), lib.sin(lib.degToRad(a.r2x));
    var cy, sy := lib.cos(lib.degToRad(a.r2y)), lib.sin(lib.degToRad(a.r2y));
    var q := Apply(RotY(lib, a.r2y), P2Initial);
    assert q == Vec3(7.0 * cy, 0.0, -7.0 * sy);
    var r := Apply(RotX(lib, a.r2x), q);
    assert r.y == cx * 0.0 - sx * (-7.0 * sy);
    assert r.z == sx * 0.0 + cx * (-7.0 * sy);
  }

  /** When the library's cosine and sine lie on the unit circle, joint 2 stays
      at distance 7 from joint 1, whatever r2x and r2y are. */
  lemma JointTwoStaysAtArmLength(lib: Library, a: Angles)
    requires TrigUnit(lib)
    ensures NormSq(JointPosition(lib, a, 2)) == 49.0
  {
    var tx, ty := lib.degToRad(a.r2x), lib.degToRad(a.r2y);
    JointTwoPlacement(lib, a);
    var q := Apply(RotY(lib, a.r2y), P2Initial);
    RotationYPreservesNorm(lib.cos(ty), lib.sin(ty), P2Initial);
    RotationXPreservesNorm(lib.cos(tx), lib.sin(tx), q);
  }

  /** Curve 0 runs from joint 0 to joint 1, and since neither of them moves it
      is the same segment from (0, 10, 0) to the origin in every frame. */
  lemma CurveIsFixedSegment(lib: Library, a: Angles)
    ensures CurvePoints(lib, a)[..3] == [JointPosition(lib, a, 0).x, JointPosition(lib, a, 0).y, JointPosition(lib, a, 0).z]
    ensures CurvePoints(lib, a)[3..] == [JointPosition(lib, a, 1).x, JointPosition(lib, a, 1).y, JointPosition(lib, a, 1).z]
    ensures CurvePoints(lib, a) == [0.0, 10.0, 0.0, 0.0, 0.0, 0.0]
  {
    JointZeroIsFixed(lib, a);
    JointOneIsAtOrigin(lib, a);
  }

  /** The scene objects `updateScene` writes: the meshes of the three points,
      their axis helpers, and the coordinates of curve 0. */
  class Scene {
    const points: array<Vec3>
    const axes: array<AxisPose>
    var curve: seq<real>

    ghost predicate Valid()
      reads this
    {
      points.Length == 3 && axes.Length == 3
    }

    /** `initThreeJS`: three meshes and three axis helpers at the origin,
        unrotated, and an empty curve geometry. */
    constructor ()
      ensures Valid() && fresh(points) && fresh(axes)
      ensures forall i :: 0 <= i < 3 ==> points[i] == Origin && axes[i] == AxisPose(Origin, Identity)
      ensures curve == []
    {
      points := new Vec3[3](_ => Origin);
      axes := new AxisPose[3](_ => AxisPose(Origin, Identity));
      curve := [];
    }

    /** `updateScene()`, reading the channels it is given. What it writes is
        a function of the channels alone, so running it again with the same
        channels leaves the same scene. */
    method UpdateScene(lib: Library, smoothedAngles: Angles)
      requires Valid()
      modifies points, axes, this`curve
      ensures Valid()
      ensures forall i :: 0 <= i < 3 ==>
                points[i] == JointPosition(lib, smoothedAngles, i)
                && axes[i] == AxisPose(JointPosition(lib, smoothedAngles, i), JointRotation(lib, smoothedAngles, i))
      ensures curve == CurvePoints(lib, smoothedAngles)
    {
      var rotations := [RotY(lib, smoothedAngles.r0y),
                        RotY(lib, smoothedAngles.r1y),
                        Mul(RotX(lib, smoothedAngles.r2x), RotY(lib, smoothedAngles.r2y))];
      for i := 0 to 3
        invariant forall j :: 0 <= j < i ==>
                    points[j] == JointPosition(lib, smoothedAngles, j)
                    && axes[j] == AxisPose(JointPosition(lib, smoothedAngles, j), JointRotation(lib, smoothedAngles, j))
      {
        var point := if i == 0 then P0 else if i == 1 then P1 else P2Initial;
        if i < 2 {
          point := Apply(rotations[i], point);
        } else {
          point := Apply(rotations[2], point);
        }
        points[i] := point;
        axes[i] := AxisPose(point, rotations[i]);
      }
      curve := [points[0].x, points[0].y, points[0].z, points[1].x, points[1].y, points[1].z];
    }
  }
}
