/** The exact-arithmetic skeleton of the Delta6 kinematics engine: the joint
    and torque state with its linear spring law, the coordinate remaps and
    angle offsets around forward and inverse kinematics, the failure
    propagation of inverse kinematics, and the change of frame of a wrench.
    Trigonometry, square roots, scipy's Euler conversions and `fsolve` are
    supplied from outside as the functions of a `Numerics` value. */
module Kinematics {
  import opened Wrappers

  datatype Vec3 = Vec3(x: real, y: real, z: real)

  /** A 3x3 matrix by rows. */
  datatype Mat3 = Mat3(r0: Vec3, r1: Vec3, r2: Vec3)

  /** Six joint values: the angles theta1..theta6 or the torques torque1..torque6. */
  datatype Joints = Joints(j1: real, j2: real, j3: real, j4: real, j5: real, j6: real)

  /** An end-effector pose: position in metres, roll/pitch/yaw in radians. */
  datatype Pose = Pose(x: real, y: real, z: real, roll: real, pitch: real, yaw: real)

  /** A force and a moment. */
  datatype Wrench = Wrench(force: Vec3, moment: Vec3)

  /** Coefficients of the quadratic a*z^2 + b*z + c = 0 whose root is the
      end-effector height in forward kinematics. */
  datatype Quadratic = Quadratic(a: real, b: real, c: real)

  /** Why a computation raises: a transform of the wrong length, a zero
      spring coefficient to divide by, no pose to index (from the arm-only
      forward kinematics of `calculate_force_xyz`, or the robot's own). */
  datatype KinematicsError = TransformLength | ZeroSpring | NoArmPose | NoPose

  /** The floating-point and library parts of the engine:
      - `quadratic`: lines 114-148 of forward kinematics, from the three
        offset short-arm angles;
      - `centre`: the root and back-substitution of lines 156-158;
      - `zxyToXyz` / `xyzToZxy`: scipy's Euler conversions;
      - `legAngle`: `_calculate_angle_yz`, `None` when that leg cannot reach;
      - `cos120`, `sin120`: `math.cos`/`math.sin` of 2*pi/3;
      - `forceXyz`: `calculate_force_xyz` after its forward kinematics, from
        the three arm torques and the position that forward kinematics found;
      - `rotation`: `R.from_euler('XYZ', ...).as_matrix()`;
      - `solveTorques`: `calculate_torques`, the `fsolve` search. */
  datatype Numerics = Numerics(
    quadratic: (real, real, real) -> Quadratic,
    centre: (real, real, real) -> Vec3,
    zxyToXyz: (real, real, real) -> (real, real, real),
    xyzToZxy: (real, real, real) -> (real, real, real),
    legAngle: (real, real, real) -> Option<real>,
    cos120: real,
    sin120: real,
    forceXyz: (real, real, real, Vec3) -> Vec3,
    rotation: (real, real, real) -> Mat3,
    solveTorques: Wrench -> Joints)

  const DoubleSprings := "double-springs-roll-pitch"

  // ---------------------------------------------------------------------------
  // Vectors

  function Sub(a: Vec3, b: Vec3): Vec3
  {
    Vec3(a.x - b.x, a.y - b.y, a.z - b.z)
  }

  const Zero := Vec3(0.0, 0.0, 0.0)

  /** `np.cross`. */
  function Cross(a: Vec3, b: Vec3): Vec3
  {
    Vec3(a.y * b.z - a.z * b.y, a.z * b.x - a.x * b.z, a.x * b.y - a.y * b.x)
  }

  /** `R.T @ v`. */
  function TransposeTimes(r: Mat3, v: Vec3): Vec3
  {
    Vec3(r.r0.x * v.x + r.r1.x * v.y + r.r2.x * v.z,
         r.r0.y * v.x + r.r1.y * v.y + r.r2.y * v.z,
         r.r0.z * v.x + r.r1.z * v.y + r.r2.z * v.z)
  }

  lemma TransposeTimesZero(r: Mat3)
    ensures TransposeTimes(r, Zero) == Zero
  {
  }

  // ---------------------------------------------------------------------------
  // The spring law and its inversion

  /** `update_torques`: every torque is its angle times the spring
      coefficient, except that roll and pitch (joints 4 and 5) have two
      springs in the "double-springs-roll-pitch" version. */
  function SpringTorques(version: string, k: real, a: Joints): (t: Joints)
    ensures t.j1 == a.j1 * k && t.j2 == a.j2 * k && t.j3 == a.j3 * k && t.j6 == a.j6 * k
    ensures t.j4 == (if version == DoubleSprings then 2.0 * a.j4 * k else a.j4 * k)
    ensures t.j5 == (if version == DoubleSprings then 2.0 * a.j5 * k else a.j5 * k)
  {
    if version == DoubleSprings then
      Joints(a.j1 * k, a.j2 * k, a.j3 * k, 2.0 * a.j4 * k, 2.0 * a.j5 * k, a.j6 * k)
    else
      Joints(a.j1 * k, a.j2 * k, a.j3 * k, a.j4 * k, a.j5 * k, a.j6 * k)
  }

  /** The torque-to-angle divisions of `calculate_euler_pose` as written: in
      the double-springs version joint 6 is divided by 2k as well. */
  function EulerJointsAsWritten(version: string, k: real, t: Joints): (a: Joints)
    requires k != 0.0
    ensures SpringTorques(version, k, a) == if version == DoubleSprings then t.(j6 := t.j6 / 2.0) else t
  {
    if version == DoubleSprings then
      Joints(t.j1 / k, t.j2 / k, t.j3 / k, t.j4 / (2.0 * k), t.j5 / (2.0 * k), t.j6 / (2.0 * k))
    else
      Joints(t.j1 / k, t.j2 / k, t.j3 / k, t.j4 / k, t.j5 / k, t.j6 / k)
  }

  /** The divisions that undo `update_torques`: only joints 4 and 5 carry
      two springs. */
  function EulerJoints(version: string, k: real, t: Joints): (a: Joints)
    requires k != 0.0
    ensures SpringTorques(version, k, a) == t
  {
    if version == DoubleSprings then
      Joints(t.j1 / k, t.j2 / k, t.j3 / k, t.j4 / (2.0 * k), t.j5 / (2.0 * k), t.j6 / k)
    else
      Joints(t.j1 / k, t.j2 / k, t.j3 / k, t.j4 / k, t.j5 / k, t.j6 / k)
  }

  /** The corrected divisions recover every angle from the spring torques, in
      both versions. */
  lemma SpringInversion(version: string, k: real, a: Joints)
    requires k != 0.0
    ensures EulerJoints(version, k, SpringTorques(version, k, a)) == a
  {
    var t := SpringTorques(version, k, a);
    assert t.j1 / k == a.j1 && t.j2 / k == a.j2 && t.j3 / k == a.j3 && t.j6 / k == a.j6;
    if version == DoubleSprings {
      assert t.j4 / (2.0 * k) == a.j4 && t.j5 / (2.0 * k) == a.j5;
    } else {
      assert t.j4 / k == a.j4 && t.j5 / k == a.j5;
    }
  }

  /** As written, the divisions recover joints 1-5 in both versions but
      joint 6 only in the original version: with double springs it comes
      back halved. */
  lemma SpringInversionAsWritten(version: string, k: real, a: Joints)
    requires k != 0.0
    ensures var back := EulerJointsAsWritten(version, k, SpringTorques(version, k, a));
            && back.(j6 := a.j6) == a
            && back.j6 == (if version == DoubleSprings then a.j6 / 2.0 else a.j6)
  {
    SpringInversion(version, k, a);
    var t := SpringTorques(version, k, a);
    if version == DoubleSprings {
      assert t.j6 / (2.0 * k) == (t.j6 / k) / 2.0;
    }
  }

  /** A yaw of 1 rad with double springs and the default spring coefficient
      is read back as 0.5 rad. */
  lemma YawHalvedExample()
    ensures var a := Joints(0.0, 0.0, 0.0, 0.0, 0.0, 1.0);
            EulerJointsAsWritten(DoubleSprings, 0.639236, SpringTorques(DoubleSprings, 0.639236, a)).j6 == 0.5
  {
    SpringInversionAsWritten(DoubleSprings, 0.639236, Joints(0.0, 0.0, 0.0, 0.0, 0.0, 1.0));
  }

  lemma Cancel(x: real, y: real, k: real)
    requires k != 0.0 && x * k == y * k
    ensures x == y
  {
    assert (x - y) * k == 0.0;
  }

  // ---------------------------------------------------------------------------
  // Coordinate remaps and offsets

  /** Forward kinematics' output remap: solver coordinates in millimetres,
      z measured down from the base, to the pose frame in metres. */
  function FkRemap(c: Vec3, zOffset: real): (p: Vec3)
    ensures IkRemap(p, zOffset) == c
  {
    Vec3(-c.y / 1000.0, c.x / 1000.0, -(c.z - zOffset) / 1000.0)
  }

  /** Inverse kinematics' input remap, from the pose frame to solver
      coordinates. */
  function IkRemap(p: Vec3, zOffset: real): (c: Vec3)
    ensures c.z - zOffset == -1000.0 * p.z
    ensures c.x * c.x + c.y * c.y == 1000000.0 * (p.x * p.x + p.y * p.y)
  {
    Vec3(p.y * 1000.0, -p.x * 1000.0, -p.z * 1000.0 + zOffset)
  }

  /** The two remaps are inverse to each other, both ways round. */
  lemma RemapsInverse(c: Vec3, p: Vec3, zOffset: real)
    ensures IkRemap(FkRemap(c, zOffset), zOffset) == c
    ensures FkRemap(IkRemap(p, zOffset), zOffset) == p
  {
  }

  /** The three points `inverse_kinematics` hands to the per-leg solver: the
      point itself and the point rotated by +120 and -120 degrees. */
  function LegPoints(num: Numerics, s: Vec3): (legs: seq<Vec3>)
    ensures |legs| == 3 && legs[0] == s
    ensures forall i :: 0 <= i < 3 ==> legs[i].z == s.z
    ensures num.cos120 * num.cos120 + num.sin120 * num.sin120 == 1.0 ==>
              forall i :: 0 <= i < 3 ==> legs[i].x * legs[i].x + legs[i].y * legs[i].y == s.x * s.x + s.y * s.y
  {
    [s,
     Vec3(s.x * num.cos120 + s.y * num.sin120, s.y * num.cos120 - s.x * num.sin120, s.z),
     Vec3(s.x * num.cos120 - s.y * num.sin120, s.y * num.cos120 + s.x * num.sin120, s.z)]
  }

  // ---------------------------------------------------------------------------
  // Wrenches

  /** The rotation block `T[:3, :3]`. */
  function RotationOf(m: seq<seq<real>>): Mat3
    requires |m| == 4 && forall i :: 0 <= i < 4 ==> |m[i]| == 4
  {
    Mat3(Vec3(m[0][0], m[0][1], m[0][2]), Vec3(m[1][0], m[1][1], m[1][2]), Vec3(m[2][0], m[2][1], m[2][2]))
  }

  /** The translation column `T[:3, 3]`. */
  function TranslationOf(m: seq<seq<real>>): Vec3
    requires |m| == 4 && forall i :: 0 <= i < 4 ==> |m[i]| == 4
  {
    Vec3(m[0][3], m[1][3], m[2][3])
  }

  /** `position_to_trans_matrix`: the 4x4 homogeneous transform of
      [x, y, z, roll, pitch, yaw]; any other length raises. */
  function PositionToTransMatrix(num: Numerics, transform: seq<real>): (r: Result<seq<seq<real>>, KinematicsError>)
    ensures r.Success? <==> |transform| == 6
    ensures r.Failure? ==> r.error == TransformLength
    ensures r.Success? ==>
              var m := r.value;
              var rot := num.rotation(transform[3], transform[4], transform[5]);
              && |m| == 4 && (forall i :: 0 <= i < 4 ==> |m[i]| == 4)
              && m[3] == [0.0, 0.0, 0.0, 1.0]
              && RotationOf(m) == rot
              && TranslationOf(m) == Vec3(transform[0], transform[1], transform[2])
  {
    if |transform| != 6 then Failure(TransformLength)
    else
      var rot := num.rotation(transform[3], transform[4], transform[5]);
      Success([[rot.r0.x, rot.r0.y, rot.r0.z, transform[0]],
               [rot.r1.x, rot.r1.y, rot.r1.z, transform[1]],
               [rot.r2.x, rot.r2.y, rot.r2.z, transform[2]],
               [0.0, 0.0, 0.0, 1.0]])
  }

  /** `represent_wrench_to_B` as written: `f_b = R^T f - R^T (t x tau)`,
      `tau_b = R^T tau`. */
  function RepresentWrenchToBAsWritten(num: Numerics, w: Wrench, transform: seq<real>): (r: Result<Wrench, KinematicsError>)
    ensures r.Success? <==> |transform| == 6
  {
    match PositionToTransMatrix(num, transform)
    case Failure(e) => Failure(e)
    case Success(m) =>
      var rot, t := RotationOf(m), TranslationOf(m);
      var crossTerm := Cross(t, w.moment);
      Success(Wrench(Sub(TransposeTimes(rot, w.force), TransposeTimes(rot, crossTerm)),
                     TransposeTimes(rot, w.moment)))
  }

  /** The change of reference point and frame of a wrench: moving the point
      of reference by t leaves the force and subtracts `t x f` from the
      moment; then both halves are rotated by R^T. */
  function RepresentWrenchToB(num: Numerics, w: Wrench, transform: seq<real>): (r: Result<Wrench, KinematicsError>)
    ensures r.Success? <==> |transform| == 6
  {
    match PositionToTransMatrix(num, transform)
    case Failure(e) => Failure(e)
    case Success(m) =>
      var rot, t := RotationOf(m), TranslationOf(m);
      Success(Wrench(TransposeTimes(rot, w.force), TransposeTimes(rot, Sub(w.moment, Cross(t, w.force)))))
  }

  /** With zero translation both are a pure rotation of the two halves, and
      they agree. */
  lemma WrenchZeroTranslation(num: Numerics, w: Wrench, roll: real, pitch: real, yaw: real)
    ensures var transform := [0.0, 0.0, 0.0, roll, pitch, yaw];
            var rot := num.rotation(roll, pitch, yaw);
            && RepresentWrenchToB(num, w, transform)
                 == Success(Wrench(TransposeTimes(rot, w.force), TransposeTimes(rot, w.moment)))
            && RepresentWrenchToBAsWritten(num, w, transform) == RepresentWrenchToB(num, w, transform)
  {
    var transform := [0.0, 0.0, 0.0, roll, pitch, yaw];
    var m := PositionToTransMatrix(num, transform).value;
    var rot := num.rotation(roll, pitch, yaw);
    assert RotationOf(m) == rot;
    assert TranslationOf(m) == Zero;
    assert Sub(w.moment, Cross(Zero, w.force)) == w.moment;
    TransposeTimesZero(rot);
    assert Sub(TransposeTimes(rot, w.force), Zero) == TransposeTimes(rot, w.force);
  }

  /** The zero wrench stays zero under either transform. */
  lemma ZeroWrench(num: Numerics, transform: seq<real>)
    requires |transform| == 6
    ensures RepresentWrenchToBAsWritten(num, Wrench(Zero, Zero), transform) == Success(Wrench(Zero, Zero))
    ensures RepresentWrenchToB(num, Wrench(Zero, Zero), transform) == Success(Wrench(Zero, Zero))
  {
    var m := PositionToTransMatrix(num, transform).value;
    var rot := RotationOf(m);
    TransposeTimesZero(rot);
    assert Cross(TranslationOf(m), Zero) == Zero;
    assert Sub(Zero, Zero) == Zero;
  }

  /** The corrected transform's force does not depend on the moment. */
  lemma ForceIndependentOfMoment(num: Numerics, f: Vec3, tau1: Vec3, tau2: Vec3, transform: seq<real>)
    requires |transform| == 6
    ensures RepresentWrenchToB(num, Wrench(f, tau1), transform).value.force
         == RepresentWrenchToB(num, Wrench(f, tau2), transform).value.force
  {
  }

  const Identity := Mat3(Vec3(1.0, 0.0, 0.0), Vec3(0.0, 1.0, 0.0), Vec3(0.0, 0.0, 1.0))

  lemma TransposeTimesIdentity(v: Vec3)
    ensures TransposeTimes(Identity, v) == v
  {
  }

  /** Without rotation the corrected transform is exactly the change of
      reference point, `(f, tau - t x f)`; as written it is
      `(f - t x tau, tau)`. */
  lemma WrenchTranslationOnly(num: Numerics, w: Wrench, t: Vec3)
    requires num.rotation(0.0, 0.0, 0.0) == Identity
    ensures var transform := [t.x, t.y, t.z, 0.0, 0.0, 0.0];
            && RepresentWrenchToB(num, w, transform) == Success(Wrench(w.force, Sub(w.moment, Cross(t, w.force))))
            && RepresentWrenchToBAsWritten(num, w, transform) == Success(Wrench(Sub(w.force, Cross(t, w.moment)), w.moment))
  {
    var transform := [t.x, t.y, t.z, 0.0, 0.0, 0.0];
    var m := PositionToTransMatrix(num, transform).value;
    assert RotationOf(m) == Identity;
    assert TranslationOf(m) == t;
    TransposeTimesIdentity(w.force);
    TransposeTimesIdentity(w.moment);
    TransposeTimesIdentity(Cross(t, w.moment));
    TransposeTimesIdentity(Sub(w.moment, Cross(t, w.force)));
  }

  /** Under the corrected transform a pure moment stays a pure moment,
      wherever the new reference point is. */
  lemma PureMomentStaysPure(num: Numerics, tau: Vec3, t: Vec3)
    requires num.rotation(0.0, 0.0, 0.0) == Identity
    ensures RepresentWrenchToB(num, Wrench(Zero, tau), [t.x, t.y, t.z, 0.0, 0.0, 0.0]) == Success(Wrench(Zero, tau))
  {
    WrenchTranslationOnly(num, Wrench(Zero, tau), t);
    assert Cross(t, Zero) == Zero;
  }

  /** As written, a pure moment of 1 about z, moved by 1 along x without
      rotation, turns into a force of 1 along y. */
  lemma PureMomentBecomesForce(num: Numerics)
    requires num.rotation(0.0, 0.0, 0.0) == Identity
    ensures RepresentWrenchToBAsWritten(num, Wrench(Zero, Vec3(0.0, 0.0, 1.0)), [1.0, 0.0, 0.0, 0.0, 0.0, 0.0])
         == Success(Wrench(Vec3(0.0, 1.0, 0.0), Vec3(0.0, 0.0, 1.0)))
  {
    var t, tau := Vec3(1.0, 0.0, 0.0), Vec3(0.0, 0.0, 1.0);
    PureMomentAsWritten(num, tau, t);
    UnitMomentArm();
  }

  /** As written, moving a pure moment by t without rotation creates the
      force `-(t x tau)`. */
  lemma PureMomentAsWritten(num: Numerics, tau: Vec3, t: Vec3)
    requires num.rotation(0.0, 0.0, 0.0) == Identity
    ensures RepresentWrenchToBAsWritten(num, Wrench(Zero, tau), [t.x, t.y, t.z, 0.0, 0.0, 0.0])
         == Success(Wrench(Sub(Zero, Cross(t, tau)), tau))
  {
    WrenchTranslationOnly(num, Wrench(Zero, tau), t);
  }

  /** -(x x z) == y for the unit vectors. */
  lemma UnitMomentArm()
    ensures Sub(Zero, Cross(Vec3(1.0, 0.0, 0.0), Vec3(0.0, 0.0, 1.0))) == Vec3(0.0, 1.0, 0.0)
  {
    UnitCross();
  }

  /** x x z == -y. */
  lemma UnitCross()
    ensures Cross(Vec3(1.0, 0.0, 0.0), Vec3(0.0, 0.0, 1.0)) == Vec3(0.0, -1.0, 0.0)
  {
  }

  // ---------------------------------------------------------------------------
  // The robot

  class DeltaRobot {
    /** End-effector radius, base radius, parallel and short arm lengths (mm). */
    const e: real
    const f: real
    const re: real
    const rf: real
    const zOffsetUpper: real := 33.0
    const zOffsetLower: real := 30.0
    const zOffset: real := zOffsetUpper + zOffsetLower
    /** Radians added to the short-arm angles before forward kinematics. */
    const thetaOffset: real
    const version: string
    const springCoef: real

    var theta1: real
    var theta2: real
    var theta3: real
    var theta4: real
    var theta5: real
    var theta6: real
    var torque1: real
    var torque2: real
    var torque3: real
    var torque4: real
    var torque5: real
    var torque6: real

    function Angles(): Joints
      reads this
    {
      Joints(theta1, theta2, theta3, theta4, theta5, theta6)
    }

    function Torques(): Joints
      reads this
    {
      Joints(torque1, torque2, torque3, torque4, torque5, torque6)
    }

    /** `__init__`: the dimensions and constants as given, all angles and
        torques 0. */
    constructor (shortArmLength: real, parallelArmLength: real, baseRadius: real, endEffectorRadius: real,
                 thetaOffset: real, springCoef: real, version: string)
      ensures e == endEffectorRadius && f == baseRadius && re == parallelArmLength && rf == shortArmLength
      ensures this.thetaOffset == thetaOffset && this.springCoef == springCoef && this.version == version
      ensures zOffset == 63.0
      ensures Angles() == Joints(0.0, 0.0, 0.0, 0.0, 0.0, 0.0) && Torques() == Joints(0.0, 0.0, 0.0, 0.0, 0.0, 0.0)
    {
      e := endEffectorRadius;
      f := baseRadius;
      re := parallelArmLength;
      rf := shortArmLength;
      this.thetaOffset := thetaOffset;
      this.version := version;
      theta1, theta2, theta3, theta4, theta5, theta6 := 0.0, 0.0, 0.0, 0.0, 0.0, 0.0;
      torque1, torque2, torque3, torque4, torque5, torque6 := 0.0, 0.0, 0.0, 0.0, 0.0, 0.0;
      this.springCoef := springCoef;
    }

    /** `update_angles`. */
    method UpdateAngles(theta1: real, theta2: real, theta3: real, theta4: real, theta5: real, theta6: real)
      modifies this
      ensures Angles() == Joints(theta1, theta2, theta3, theta4, theta5, theta6)
      ensures Torques() == old(Torques())
    {
      this.theta1 := theta1;
      this.theta2 := theta2;
      this.theta3 := theta3;
      this.theta4 := theta4;
      this.theta5 := theta5;
      this.theta6 := theta6;
    }

    /** `update_torques`: the spring law of this robot's version. */
    method UpdateTorques(theta1: real, theta2: real, theta3: real, theta4: real, theta5: real, theta6: real)
      modifies this
      ensures Torques() == SpringTorques(version, springCoef, Joints(theta1, theta2, theta3, theta4, theta5, theta6))
      ensures Angles() == old(Angles())
    {
      torque1 := theta1 * springCoef;
      torque2 := theta2 * springCoef;
      torque3 := theta3 * springCoef;
      torque6 := theta6 * springCoef;
      if version == DoubleSprings {
        torque4 := 2.0 * theta4 * springCoef;
        torque5 := 2.0 * theta5 * springCoef;
      } else {
        torque4 := theta4 * springCoef;
        torque5 := theta5 * springCoef;
      }
    }

    /** `update`: the angles, then the torques the springs exert at them. */
    method Update(theta1: real, theta2: real, theta3: real, theta4: real, theta5: real, theta6: real)
      modifies this
      ensures Angles() == Joints(theta1, theta2, theta3, theta4, theta5, theta6)
      ensures Torques() == SpringTorques(version, springCoef, Angles())
      ensures springCoef != 0.0 ==> EulerJoints(version, springCoef, Torques()) == Angles()
    {
      UpdateAngles(theta1, theta2, theta3, theta4, theta5, theta6);
      UpdateTorques(theta1, theta2, theta3, theta4, theta5, theta6);
      if springCoef != 0.0 {
        SpringInversion(version, springCoef, Angles());
      }
    }

    /** `forward_kinematics`: offset the short-arm angles, solve the
        quadratic for the height (no pose when its discriminant is
        negative), remap to the pose frame, convert the wrist angles. */
    function ForwardKinematics(num: Numerics, a: Joints): (r: Option<Pose>)
      ensures var q := num.quadratic(a.j1 + thetaOffset, a.j2 + thetaOffset, a.j3 + thetaOffset);
              r.None? <==> q.b * q.b - 4.0 * q.a * q.c < 0.0
      ensures r.Some? ==>
                var c := num.centre(a.j1 + thetaOffset, a.j2 + thetaOffset, a.j3 + thetaOffset);
                && IkRemap(Vec3(r.value.x, r.value.y, r.value.z), zOffset) == c
                && (r.value.roll, r.value.pitch, r.value.yaw) == num.zxyToXyz(a.j6, a.j4, a.j5)
    {
      var s1, s2, s3 := a.j1 + thetaOffset, a.j2 + thetaOffset, a.j3 + thetaOffset;
      var q := num.quadratic(s1, s2, s3);
      if q.b * q.b - 4.0 * q.a * q.c < 0.0 then None
      else
        var c := num.centre(s1, s2, s3);
        var p := FkRemap(c, zOffset);
        RemapsInverse(c, p, zOffset);
        var (roll, pitch, yaw) := num.zxyToXyz(a.j6, a.j4, a.j5);
        Some(Pose(p.x, p.y, p.z, roll, pitch, yaw))
    }

    /** `inverse_kinematics`: remap to solver coordinates, solve the three
        legs, failing as soon as one leg fails, remove the offset, convert the
        wrist angles. */
    function InverseKinematics(num: Numerics, p: Pose): (r: Option<Joints>)
      ensures var legs := LegPoints(num, IkRemap(Vec3(p.x, p.y, p.z), zOffset));
              r.Some? <==> (forall i :: 0 <= i < 3 ==> num.legAngle(legs[i].x, legs[i].y, legs[i].z).Some?)
    {
      var s := IkRemap(Vec3(p.x, p.y, p.z), zOffset);
      var legs := LegPoints(num, s);
      var t1 := num.legAngle(legs[0].x, legs[0].y, legs[0].z);
      if t1.None? then None
      else
        var t2 := num.legAngle(legs[1].x, legs[1].y, legs[1].z);
        if t2.None? then None
        else
          var t3 := num.legAngle(legs[2].x, legs[2].y, legs[2].z);
          if t3.None? then None
          else
            var (t6, t4, t5) := num.xyzToZxy(p.roll, p.pitch, p.yaw);
            Some(Joints(t1.value - thetaOffset, t2.value - thetaOffset, t3.value - thetaOffset, t4, t5, t6))
    }

    /** Inverse kinematics removes exactly the offset forward kinematics adds:
        the offset short-arm angles of its result are the leg solutions. */
    lemma OffsetsCancel(num: Numerics, p: Pose)
      requires InverseKinematics(num, p).Some?
      ensures var a := InverseKinematics(num, p).value;
              var legs := LegPoints(num, IkRemap(Vec3(p.x, p.y, p.z), zOffset));
              && Some(a.j1 + thetaOffset) == num.legAngle(legs[0].x, legs[0].y, legs[0].z)
              && Some(a.j2 + thetaOffset) == num.legAngle(legs[1].x, legs[1].y, legs[1].z)
              && Some(a.j3 + thetaOffset) == num.legAngle(legs[2].x, legs[2].y, legs[2].z)
    {
    }

    /** The round trip of the module's self-test: when the sphere
        intersection at the leg angles inverse kinematics found lands on the
        point it started from, and the two Euler conversions are inverse,
        forward kinematics returns the requested pose. */
    lemma FkIkRoundTrip(num: Numerics, p: Pose)
      requires InverseKinematics(num, p).Some?
      requires var a := InverseKinematics(num, p).value;
               var s1, s2, s3 := a.j1 + thetaOffset, a.j2 + thetaOffset, a.j3 + thetaOffset;
               var q := num.quadratic(s1, s2, s3);
               && q.b * q.b - 4.0 * q.a * q.c >= 0.0
               && num.centre(s1, s2, s3) == IkRemap(Vec3(p.x, p.y, p.z), zOffset)
      requires var (t6, t4, t5) := num.xyzToZxy(p.roll, p.pitch, p.yaw);
               num.zxyToXyz(t6, t4, t5) == (p.roll, p.pitch, p.yaw)
      ensures ForwardKinematics(num, InverseKinematics(num, p).value) == Some(p)
    {
      var a := InverseKinematics(num, p).value;
      var r := ForwardKinematics(num, a);
      var v := Vec3(r.value.x, r.value.y, r.value.z);
      RemapsInverse(IkRemap(v, zOffset), Vec3(p.x, p.y, p.z), zOffset);
      assert v == Vec3(p.x, p.y, p.z);
    }

    /** The position of a pose. */
    static function Position(p: Pose): Vec3
    {
      Vec3(p.x, p.y, p.z)
    }

    /** Forward kinematics depends on the arm angles alone for whether it has
        a pose and where that pose is; the wrist angles only set the
        orientation. */
    lemma FkArmOnly(num: Numerics, a: Joints, b: Joints)
      requires a.j1 == b.j1 && a.j2 == b.j2 && a.j3 == b.j3
      ensures ForwardKinematics(num, a).None? == ForwardKinematics(num, b).None?
      ensures ForwardKinematics(num, a).Some? ==>
                Position(ForwardKinematics(num, a).value) == Position(ForwardKinematics(num, b).value)
    {
    }

    /** The arm angles `calculate_force_xyz` hands to forward kinematics:
        the arm torques through one spring each, the wrist angles 0. */
    function ArmAngles(t: Joints): (a: Joints)
      requires springCoef != 0.0
      ensures a.j1 * springCoef == t.j1 && a.j2 * springCoef == t.j2 && a.j3 * springCoef == t.j3
      ensures a.j4 == 0.0 && a.j5 == 0.0 && a.j6 == 0.0
    {
      Joints(t.j1 / springCoef, t.j2 / springCoef, t.j3 / springCoef, 0.0, 0.0, 0.0)
    }

    /** `calculate_end_force`: the force from the three arm torques at the
        position forward kinematics finds for them, the moment passed through
        from the wrist torques, both moved into the frame of the robot's own
        forward-kinematics pose with zero translation. The source raises on a
        zero spring coefficient (division), and on either forward kinematics
        without a solution (unpacking or indexing `None`), in that order. */
    function CalculateEndForce(num: Numerics, t: Joints): (r: Result<Wrench, KinematicsError>)
      reads this
      ensures springCoef == 0.0 <==> r == Failure(ZeroSpring)
      ensures springCoef != 0.0 ==>
                var arm := ForwardKinematics(num, ArmAngles(t));
                var pose := GetFkResult(num);
                && (arm.None? ==> r == Failure(NoArmPose))
                && (arm.Some? && pose.None? ==> r == Failure(NoPose))
                && (arm.Some? && pose.Some? ==>
                      var rot := num.rotation(pose.value.roll, pose.value.pitch, pose.value.yaw);
                      r == Success(Wrench(TransposeTimes(rot, num.forceXyz(t.j1, t.j2, t.j3, Position(arm.value))),
                                          TransposeTimes(rot, Vec3(t.j4, t.j5, t.j6)))))
    {
      if springCoef == 0.0 then Failure(ZeroSpring)
      else
        var arm := ForwardKinematics(num, ArmAngles(t));
        if arm.None? then Failure(NoArmPose)
        else
          var force := num.forceXyz(t.j1, t.j2, t.j3, Position(arm.value));
          var moment := Vec3(t.j4, t.j5, t.j6);
          var pose := GetFkResult(num);
          if pose.None? then Failure(NoPose)
          else
            var rotateTrans := [0.0, 0.0, 0.0, pose.value.roll, pose.value.pitch, pose.value.yaw];
            WrenchZeroTranslation(num, Wrench(force, moment), pose.value.roll, pose.value.pitch, pose.value.yaw);
            RepresentWrenchToB(num, Wrench(force, moment), rotateTrans)
    }

    /** `get_FK_result`: forward kinematics of the robot's present angles. */
    function GetFkResult(num: Numerics): (r: Option<Pose>)
      reads this
      ensures var q := num.quadratic(theta1 + thetaOffset, theta2 + thetaOffset, theta3 + thetaOffset);
              r.None? <==> q.b * q.b - 4.0 * q.a * q.c < 0.0
      ensures r.Some? ==> (r.value.roll, r.value.pitch, r.value.yaw) == num.zxyToXyz(theta6, theta4, theta5)
    {
      ForwardKinematics(num, Angles())
    }

    /** `get_end_force`. After `update`, whose torques follow the spring law,
        the arm-only forward kinematics inside `calculate_force_xyz` fails
        exactly when the robot's own does, and the force is evaluated at the
        robot's own position. */
    function GetEndForce(num: Numerics): (r: Result<Wrench, KinematicsError>)
      reads this
      ensures springCoef != 0.0 && Torques() == SpringTorques(version, springCoef, Angles()) ==>
                && (r.Failure? <==> GetFkResult(num).None?)
                && (r.Success? ==>
                      var pose := GetFkResult(num).value;
                      var rot := num.rotation(pose.roll, pose.pitch, pose.yaw);
                      r.value.force == TransposeTimes(rot, num.forceXyz(torque1, torque2, torque3, Position(pose))))
    {
      var r := CalculateEndForce(num, Torques());
      if springCoef != 0.0 && Torques() == SpringTorques(version, springCoef, Angles()) then
        EndForceAtOwnPose(num);
        r
      else r
    }

    /** With spring-law torques the arm-only forward kinematics runs on the
        robot's own arm angles. */
    lemma EndForceAtOwnPose(num: Numerics)
      requires springCoef != 0.0 && Torques() == SpringTorques(version, springCoef, Angles())
      ensures var r := CalculateEndForce(num, Torques());
              && (r.Failure? <==> GetFkResult(num).None?)
              && (r.Success? ==>
                    var pose := GetFkResult(num).value;
                    var rot := num.rotation(pose.roll, pose.pitch, pose.yaw);
                    r.value.force == TransposeTimes(rot, num.forceXyz(torque1, torque2, torque3, Position(pose))))
    {
      var arm := ArmAngles(Torques());
      Cancel(arm.j1, theta1, springCoef);
      Cancel(arm.j2, theta2, springCoef);
      Cancel(arm.j3, theta3, springCoef);
      FkArmOnly(num, arm, Angles());
    }

    /** `calculate_euler_pose`: solve for the torques, turn them into angles
        through the springs, and run forward kinematics on those angles. */
    function CalculateEulerPose(num: Numerics, w: Wrench): (r: Option<Pose>)
      requires springCoef != 0.0
      ensures forall a: Joints :: num.solveTorques(w) == SpringTorques(version, springCoef, a) ==>
                r == ForwardKinematics(num, a)
    {
      var t := num.solveTorques(w);
      var a := EulerJoints(version, springCoef, t);
      EulerPoseInverts(num, w);
      ForwardKinematics(num, a)
    }

    /** `calculate_euler_pose` with the divisions as written: with double
        springs the pose is forward kinematics of the angles with the yaw
        halved. */
    function CalculateEulerPoseAsWritten(num: Numerics, w: Wrench): (r: Option<Pose>)
      requires springCoef != 0.0
      ensures forall a: Joints :: num.solveTorques(w) == SpringTorques(version, springCoef, a) ==>
                r == ForwardKinematics(num, if version == DoubleSprings then a.(j6 := a.j6 / 2.0) else a)
    {
      var t := num.solveTorques(w);
      var a := EulerJointsAsWritten(version, springCoef, t);
      AsWrittenPoseAngles(num, w);
      ForwardKinematics(num, a)
    }

    lemma AsWrittenPoseAngles(num: Numerics, w: Wrench)
      requires springCoef != 0.0
      ensures forall a: Joints :: num.solveTorques(w) == SpringTorques(version, springCoef, a) ==>
                EulerJointsAsWritten(version, springCoef, num.solveTorques(w))
                  == if version == DoubleSprings then a.(j6 := a.j6 / 2.0) else a
    {
      forall a: Joints | num.solveTorques(w) == SpringTorques(version, springCoef, a)
        ensures EulerJointsAsWritten(version, springCoef, num.solveTorques(w))
                  == if version == DoubleSprings then a.(j6 := a.j6 / 2.0) else a
      {
        SpringInversionAsWritten(version, springCoef, a);
      }
    }

    lemma EulerPoseInverts(num: Numerics, w: Wrench)
      requires springCoef != 0.0
      ensures forall a: Joints :: num.solveTorques(w) == SpringTorques(version, springCoef, a) ==>
                EulerJoints(version, springCoef, num.solveTorques(w)) == a
    {
      forall a: Joints | num.solveTorques(w) == SpringTorques(version, springCoef, a)
        ensures EulerJoints(version, springCoef, num.solveTorques(w)) == a
      {
        SpringInversion(version, springCoef, a);
      }
    }
  }
}
