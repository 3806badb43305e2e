/**
 * What the robot action mappers share: the simulator readings they consume,
 * the simulator calls they issue, and the small pieces of numpy arithmetic
 * (clip, scale, add, slice, floor of the height) they are built from.
 *
 * Numbers are reals; float32/float64 rounding is not modelled.
 */
module RobotCore {

  datatype Option<T> = None | Some(value: T)

  /** Why a call raises: numpy could not broadcast two shapes together, or
      Python looked up an attribute the object does not have. */
  datatype Error = BroadcastError | MissingAttribute(name: string)

  datatype Result<T> = Ok(value: T) | Err(error: Error)

  /** What `set_action` reports: it returns nothing, or it raises. */
  datatype Outcome = Pass | Fail(error: Error)

  /** A snapshot of what the simulator answers while one action is applied.
      Nothing the mappers do between two queries changes the simulator, so
      one snapshot per call is exact. */
  datatype Simulator = Simulator(
    eePosition: seq<real>,     // position of the end-effector link, (x, y, z)
    jointAngle: nat -> real,   // angle of a joint, by its number in the URDF
    fingersWidth: real,        // current opening of the gripper
    inverseKinematics: (nat, seq<real>, seq<real>) -> seq<real>)  // (link, position, orientation) -> joint angles

  /** A call that changes the simulated robot: motor targets for the
      controlled joints (control_joints), or an immediate reset of their
      angles (set_joint_angles). */
  datatype Command =
    | ControlJoints(joints: seq<nat>, targetAngles: seq<real>, forces: seq<real>)
    | SetJointAngles(joints: seq<nat>, angles: seq<real>)

  /** Every bound of every action space is [-1, 1]. */
  const ActionLow: real := -1.0
  const ActionHigh: real := 1.0

  /** The decimal repr of math.radians(90). */
  const HalfPi: real := 1.5707963267948966

  function Max(a: real, b: real): real { if a >= b then a else b }

  predicate InActionBox(v: seq<real>) {
    forall i :: 0 <= i < |v| ==> ActionLow <= v[i] <= ActionHigh
  }

  /** One component of np.clip(x, -1, 1). */
  function Clip(x: real): (r: real)
    ensures ActionLow <= r <= ActionHigh
    ensures ActionLow <= x <= ActionHigh ==> r == x
    ensures x < ActionLow ==> r == ActionLow
    ensures x > ActionHigh ==> r == ActionHigh
  {
    if x < ActionLow then ActionLow else if x > ActionHigh then ActionHigh else x
  }

  /** np.clip(action, low, high) where low and high have shape (n,): numpy
      broadcasts a one-element action to n copies and refuses every other
      length that differs from n. */
  function ClipToActionSpace(action: seq<real>, n: nat): (r: Option<seq<real>>)
    ensures r.Some? <==> |action| == n || |action| == 1
    ensures r.Some? ==> |r.value| == n && InActionBox(r.value)
    ensures r.Some? && |action| == n ==> forall i :: 0 <= i < n ==> r.value[i] == Clip(action[i])
    ensures r.Some? && |action| == 1 ==> forall i :: 0 <= i < n ==> r.value[i] == Clip(action[0])
  {
    if |action| == n then Some(seq(n, i requires 0 <= i < n => Clip(action[i])))
    else if |action| == 1 then Some(seq(n, _ => Clip(action[0])))
    else None
  }

  /** An action already inside the box comes back unchanged. */
  lemma ClipKeepsInBoxAction(action: seq<real>)
    requires InActionBox(action)
    ensures ClipToActionSpace(action, |action|) == Some(action)
  {
    var r := ClipToActionSpace(action, |action|).value;
    assert forall i :: 0 <= i < |action| ==> r[i] == action[i];
    assert r == action;
  }

  /** Clipping twice is clipping once. */
  lemma ClipIdempotent(action: seq<real>, n: nat)
    requires ClipToActionSpace(action, n).Some?
    ensures ClipToActionSpace(ClipToActionSpace(action, n).value, n) == ClipToActionSpace(action, n)
  {
    ClipKeepsInBoxAction(ClipToActionSpace(action, n).value);
  }

  /** Python's slice s[:n]. */
  function Take<T>(s: seq<T>, n: nat): (r: seq<T>)
    ensures |r| == if |s| < n then |s| else n
    ensures r <= s
  {
    if |s| < n then s else s[..n]
  }

  /** Elementwise v * k. */
  function Scale(v: seq<real>, k: real): (r: seq<real>)
    ensures |r| == |v|
    ensures forall i :: 0 <= i < |v| ==> r[i] == v[i] * k
  {
    seq(|v|, i requires 0 <= i < |v| => v[i] * k)
  }

  /** Elementwise a + b for arrays of one shape. */
  function Add(a: seq<real>, b: seq<real>): (r: seq<real>)
    requires |a| == |b|
    ensures |r| == |a|
    ensures forall i :: 0 <= i < |a| ==> r[i] == a[i] + b[i]
  {
    seq(|a|, i requires 0 <= i < |a| => a[i] + b[i])
  }

  /** The height clip `p[2] = max(0, p[2])`: the target never lies below
      the floor, x and y are left alone, and a target already above the
      floor is not touched. */
  function FloorZ(p: seq<real>): (r: seq<real>)
    requires |p| == 3
    ensures |r| == 3 && r[0] == p[0] && r[1] == p[1]
    ensures r[2] >= 0.0
    ensures p[2] >= 0.0 ==> r == p
    ensures p[2] < 0.0 ==> r[2] == 0.0
  {
    p[2 := Max(0.0, p[2])]
  }

  lemma FloorZIdempotent(p: seq<real>)
    requires |p| == 3
    ensures FloorZ(FloorZ(p)) == FloorZ(p)
  {
  }

  /** The position an end-effector mapper hands to the IK solver: the
      current position moved by the scaled displacement, then floored. */
  function EeTargetPosition(ee: seq<real>, displacement: seq<real>, scale: real): (r: seq<real>)
    requires |ee| == 3 && |displacement| == 3
    ensures |r| == 3
  {
    FloorZ(Add(ee, Scale(displacement, scale)))
  }

  /** Before the floor the target is ee + displacement * scale; the floor
      only ever raises z to 0. */
  lemma EeTargetPositionComponents(ee: seq<real>, d: seq<real>, scale: real)
    requires |ee| == 3 && |d| == 3
    ensures EeTargetPosition(ee, d, scale)[0] == ee[0] + d[0] * scale
    ensures EeTargetPosition(ee, d, scale)[1] == ee[1] + d[1] * scale
    ensures EeTargetPosition(ee, d, scale)[2] == Max(0.0, ee[2] + d[2] * scale)
    ensures ee[2] + d[2] * scale < 0.0 ==> EeTargetPosition(ee, d, scale)[2] == 0.0
  {
    var pre := Add(ee, Scale(d, scale));
    assert pre[2] == ee[2] + d[2] * scale;
    assert EeTargetPosition(ee, d, scale) == pre[2 := Max(0.0, pre[2])];
  }

  lemma MulNonNegative(a: real, b: real)
    requires a >= 0.0 && b >= 0.0
    ensures a * b >= 0.0
  {
  }

  /** A component in [-1, 1] scaled by a non-negative factor lies within
      that factor of 0. */
  lemma ScaledComponentBounded(c: real, scale: real)
    requires ActionLow <= c <= ActionHigh && scale >= 0.0
    ensures -scale <= c * scale <= scale
  {
    MulNonNegative(1.0 - c, scale);
    MulNonNegative(1.0 + c, scale);
    assert (1.0 - c) * scale == scale - c * scale;
    assert (1.0 + c) * scale == scale + c * scale;
  }

  /** A coordinate moved by a scaled component in [-1, 1] stays within
      `scale` of where it was; so does one that is then floored at 0, when
      it started on or above the floor. */
  lemma AxisStepBounded(e: real, c: real, scale: real, t: real, floored: bool)
    requires ActionLow <= c <= ActionHigh && scale >= 0.0
    requires t == if floored then Max(0.0, e + c * scale) else e + c * scale
    requires floored ==> e >= 0.0
    ensures e - scale <= t <= e + scale
  {
    ScaledComponentBounded(c, scale);
  }

  /** The displacement limit: with a clipped action and a non-negative
      scale, the IK target lies within `scale` of the current x and y, and
      within `scale` of the current z when the end effector is not below
      the floor. */
  lemma EeTargetStepBounded(ee: seq<real>, d: seq<real>, scale: real)
    requires |ee| == 3 && |d| == 3 && InActionBox(d) && scale >= 0.0
    ensures forall i :: 0 <= i < 2 ==>
      ee[i] - scale <= EeTargetPosition(ee, d, scale)[i] <= ee[i] + scale
    ensures ee[2] >= 0.0 ==>
      ee[2] - scale <= EeTargetPosition(ee, d, scale)[2] <= ee[2] + scale
  {
    var t := EeTargetPosition(ee, d, scale);
    EeTargetPositionComponents(ee, d, scale);
    AxisStepBounded(ee[0], d[0], scale, t[0], false);
    AxisStepBounded(ee[1], d[1], scale, t[1], false);
    if ee[2] >= 0.0 {
      AxisStepBounded(ee[2], d[2], scale, t[2], true);
    }
  }

  /** The joint-space mapper: the current angle of joint i (by URDF joint
      number i) plus the scaled control of joint i. */
  function JointDeltaTargets(jointAngle: nat -> real, ctrl: seq<real>, scale: real): (r: seq<real>)
    ensures |r| == |ctrl|
    ensures forall i :: 0 <= i < |r| ==> r[i] - jointAngle(i) == ctrl[i] * scale
  {
    seq(|ctrl|, i requires 0 <= i < |ctrl| => jointAngle(i) + ctrl[i] * scale)
  }

  /** With a clipped control and a non-negative scale, no joint target is
      farther than `scale` from that joint's current angle. */
  lemma JointStepBounded(jointAngle: nat -> real, ctrl: seq<real>, scale: real)
    requires InActionBox(ctrl) && scale >= 0.0
    ensures forall i :: 0 <= i < |ctrl| ==>
      jointAngle(i) - scale <= JointDeltaTargets(jointAngle, ctrl, scale)[i] <= jointAngle(i) + scale
  {
    forall i | 0 <= i < |ctrl|
      ensures jointAngle(i) - scale <= JointDeltaTargets(jointAngle, ctrl, scale)[i] <= jointAngle(i) + scale
    {
      AxisStepBounded(jointAngle(i), ctrl[i], scale, JointDeltaTargets(jointAngle, ctrl, scale)[i], false);
    }
  }
}
