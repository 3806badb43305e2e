/**
 * The Mitsubishi RV-7F arm (class Rv7f): six joints, end-effector or
 * joint-space control, a displacement scale of 0.15 by default.
 */
module MitsubishiRv7f {
  import opened RobotCore

  /** The six arm joints as numbered in rv7f.urdf, and the force cap of each (Nm). */
  const JointIndices: seq<nat> := [0, 1, 2, 3, 4, 5]
  const JointForces: seq<real> := [2000.0, 2000.0, 2000.0, 2000.0, 2000.0, 2000.0]
  const ArmJointCount: nat := 6

  /** The rest pose: [0, -90 degrees, 90 degrees, 0, 0, 0] in radians. */
  const NeutralJointValues: seq<real> := [0.0, -HalfPi, HalfPi, 0.0, 0.0, 0.0]

  const EeLink: nat := 6

  /** The quaternion (x, y, z, w) the end effector is asked to hold. */
  const EeOrientation: seq<real> := [0.0, 0.7071068, 0.0, 0.7071068]

  const DefaultDisplacementScale: real := 0.15

  class Rv7f {
    /** "ee" selects end-effector control; any other value selects joint control. */
    const controlType: string
    const displacementScale: real
    /** Length of the action space, whose every bound is [-1, 1]. */
    const nAction: nat := if controlType == "ee" then 3 else ArmJointCount
    /** The simulator calls this robot has issued, oldest first. */
    var commands: seq<Command>

    constructor (controlType: string := "ee", displacementScale: real := DefaultDisplacementScale)
      ensures this.controlType == controlType && this.displacementScale == displacementScale
      ensures nAction == 3 <==> controlType == "ee"
      ensures controlType != "ee" ==> nAction == 6
      ensures commands == []
    {
      this.controlType := controlType;
      this.displacementScale := displacementScale;
      commands := [];
    }

    /** What the end-effector mapper asks of the IK solver, and what it keeps. */
    function EeArmAngles(eeDisplacement: seq<real>, sim: Simulator): (r: seq<real>)
      requires |eeDisplacement| >= 3 && |sim.eePosition| == 3
      ensures |r| <= ArmJointCount
    {
      var target := EeTargetPosition(sim.eePosition, eeDisplacement[..3], displacementScale);
      Take(sim.inverseKinematics(EeLink, target, EeOrientation), ArmJointCount)
    }

    /** ee_displacement_to_target_arm_angles: move the current end-effector
        position by the scaled displacement, clip its height in place, solve
        IK for link 6 at the fixed orientation and keep the first six angles. */
    method EeDisplacementToTargetArmAngles(eeDisplacement: seq<real>, sim: Simulator) returns (targetArmAngles: seq<real>)
      requires |eeDisplacement| >= 3 && |sim.eePosition| == 3
      ensures targetArmAngles == EeArmAngles(eeDisplacement, sim)
    {
      var d := Scale(eeDisplacement[..3], displacementScale);
      var ee := sim.eePosition;
      var targetEePosition := new real[3];
      targetEePosition[0], targetEePosition[1], targetEePosition[2] := ee[0] + d[0], ee[1] + d[1], ee[2] + d[2];
      assert targetEePosition[..] == Add(ee, d);
      targetEePosition[2] := Max(0.0, targetEePosition[2]);
      var angles := sim.inverseKinematics(EeLink, targetEePosition[..], EeOrientation);
      targetArmAngles := Take(angles, ArmJointCount);
    }

    /** arm_joint_ctrl_to_target_arm_angles: delta control on joints 0..5;
        each target differs from the current angle by the scaled control. */
    function ArmJointCtrlToTargetArmAngles(armJointCtrl: seq<real>, sim: Simulator): (r: seq<real>)
      requires |armJointCtrl| == ArmJointCount
      ensures |r| == ArmJointCount
      ensures forall i :: 0 <= i < ArmJointCount ==>
        r[i] - sim.jointAngle(i) == armJointCtrl[i] * displacementScale
    {
      JointDeltaTargets(sim.jointAngle, armJointCtrl, displacementScale)
    }

    /** The joint targets set_action commands for an action, or what it raises:
        an action numpy cannot clip against the action space is refused. */
    function TargetAngles(action: seq<real>, sim: Simulator): (r: Result<seq<real>>)
      requires |sim.eePosition| == 3
      ensures r.Err? <==> |action| != nAction && |action| != 1
      ensures r.Err? ==> r.error == BroadcastError
      ensures r.Ok? ==> |r.value| <= ArmJointCount
    {
      match ClipToActionSpace(action, nAction)
      case None => Err(BroadcastError)
      case Some(a) =>
        if controlType == "ee" then Ok(EeArmAngles(a[..3], sim))
        else Ok(ArmJointCtrlToTargetArmAngles(a[..ArmJointCount], sim))
    }

    /** set_action: clip a copy of the action, map it, command the six arm
        joints. The caller's array is left as it was. */
    method SetAction(action: array<real>, sim: Simulator) returns (outcome: Outcome)
      requires |sim.eePosition| == 3
      modifies this
      ensures action[..] == old(action[..])
      ensures TargetAngles(action[..], sim).Err? ==>
        outcome == Fail(TargetAngles(action[..], sim).error) && commands == old(commands)
      ensures TargetAngles(action[..], sim).Ok? ==>
        outcome == Pass &&
        commands == old(commands) + [ControlJoints(JointIndices, TargetAngles(action[..], sim).value, JointForces)]
    {
      var clipped := ClipToActionSpace(action[..], nAction);
      if clipped.None? {
        return Fail(BroadcastError);
      }
      var a := clipped.value;
      var targetArmAngles;
      if controlType == "ee" {
        targetArmAngles := EeDisplacementToTargetArmAngles(a[..3], sim);
      } else {
        targetArmAngles := ArmJointCtrlToTargetArmAngles(a[..ArmJointCount], sim);
      }
      commands := commands + [ControlJoints(JointIndices, targetArmAngles, JointForces)];
      outcome := Pass;
    }

    /** reset: put the arm in its neutral pose, whatever came before. */
    method Reset()
      modifies this
      ensures commands == old(commands) + [SetJointAngles(JointIndices, NeutralJointValues)]
    {
      SetJointNeutral();
    }

    method SetJointNeutral()
      modifies this
      ensures commands == old(commands) + [SetJointAngles(JointIndices, NeutralJointValues)]
    {
      commands := commands + [SetJointAngles(JointIndices, NeutralJointValues)];
    }

    /** Out-of-range components are clipped, so an action and its clipped
        copy command the same targets. */
    lemma TargetAnglesIgnoreClipping(action: seq<real>, sim: Simulator)
      requires |sim.eePosition| == 3 && ClipToActionSpace(action, nAction).Some?
      ensures TargetAngles(ClipToActionSpace(action, nAction).value, sim) == TargetAngles(action, sim)
    {
      ClipIdempotent(action, nAction);
    }

    /** End-effector mode: the IK solver is asked for link 6 at the fixed
        orientation, at a target on or above the floor that lies within one
        displacement step of the current x and y, and of the current z when
        the end effector is not below the floor; its first six angles are
        commanded. */
    lemma EeModeTarget(action: seq<real>, sim: Simulator)
      requires controlType == "ee" && |sim.eePosition| == 3 && |action| == nAction
      requires displacementScale >= 0.0
      ensures
        var ee, a := sim.eePosition, ClipToActionSpace(action, nAction).value;
        var p := EeTargetPosition(ee, a[..3], displacementScale);
        && TargetAngles(action, sim) == Ok(Take(sim.inverseKinematics(EeLink, p, EeOrientation), ArmJointCount))
        && p[0] == ee[0] + Clip(action[0]) * displacementScale
        && p[1] == ee[1] + Clip(action[1]) * displacementScale
        && p[2] == Max(0.0, ee[2] + Clip(action[2]) * displacementScale)
        && (forall i :: 0 <= i < 2 ==> ee[i] - displacementScale <= p[i] <= ee[i] + displacementScale)
        && (ee[2] >= 0.0 ==> ee[2] - displacementScale <= p[2] <= ee[2] + displacementScale)
    {
      var a := ClipToActionSpace(action, nAction).value;
      var d := a[..3];
      assert d[0] == Clip(action[0]) && d[1] == Clip(action[1]) && d[2] == Clip(action[2]);
      EeTargetPositionComponents(sim.eePosition, d, displacementScale);
      EeTargetStepBounded(sim.eePosition, d, displacementScale);
      var p := EeTargetPosition(sim.eePosition, d, displacementScale);
      assert d[..3] == d;
    }

    /** Joint mode: joint i (for i in 0..5) is sent to its current angle
        plus the clipped control times the scale, so no target is more than
        one step from where the joint is. */
    lemma JointModeTarget(action: seq<real>, sim: Simulator)
      requires controlType != "ee" && |sim.eePosition| == 3 && |action| == nAction
      requires displacementScale >= 0.0
      ensures TargetAngles(action, sim).Ok?
      ensures var r := TargetAngles(action, sim).value;
        && |r| == ArmJointCount
        && (forall i :: 0 <= i < ArmJointCount ==>
              r[i] == sim.jointAngle(i) + Clip(action[i]) * displacementScale)
        && (forall i :: 0 <= i < ArmJointCount ==>
              sim.jointAngle(i) - displacementScale <= r[i] <= sim.jointAngle(i) + displacementScale)
    {
      var a := ClipToActionSpace(action, nAction).value;
      JointStepBounded(sim.jointAngle, a[..ArmJointCount], displacementScale);
    }
  }
}
