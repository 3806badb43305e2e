/**
 * The KUKA KR 300 R2500 ultra arm of the rccn_panda_gym examples (class
 * Kr300R2500Ultra): six joints, a fixed displacement scale of 0.05, an IK
 * answer passed on whole, and two finger targets appended to every command.
 *
 * Of its two set_action definitions the second one is the one Python keeps,
 * so it is the one modelled. In joint mode that definition calls
 * arm_joint_ctrl_to_target_arm_angles, which the class does not define: the
 * call raises. The class also never assigns block_gripper and has no
 * get_fingers_width; here the first is a constructor parameter and the
 * second a simulator reading.
 */
module KukaKr300Ultra {
  import opened RobotCore

  /** The six arm joints as numbered in kr300r2500ultra.urdf, and the force cap of each (Nm). */
  const JointIndices: seq<nat> := [0, 1, 2, 3, 4, 5]
  const JointForces: seq<real> := [2000.0, 2000.0, 2000.0, 2000.0, 2000.0, 2000.0]

  /** The rest pose: [0, -90 degrees, 90 degrees, 0, 0, 0] in radians. */
  const NeutralJointValues: seq<real> := [0.0, -HalfPi, HalfPi, 0.0, 0.0, 0.0]

  /** The tool0 link. */
  const EeLink: nat := 7

  /** The quaternion (x, y, z, w) the end effector is asked to hold. */
  const EeOrientation: seq<real> := [1.0, 0.0, 0.0, 0.0]

  /** Largest end-effector move per action component (a literal in the class). */
  const DisplacementScale: real := 0.05

  /** Largest change of the finger opening per action. */
  const FingersScale: real := 0.2

  /** The joint helper joint mode looks up and does not find. */
  const MissingJointHelper: string := "arm_joint_ctrl_to_target_arm_angles"

  /** The opening the fingers are driven to: closed when the gripper is
      blocked, otherwise the current opening moved by the scaled control. */
  function TargetFingersWidth(blockGripper: bool, fingersCtrl: real, fingersWidth: real): (w: real)
    ensures blockGripper ==> w == 0.0
    ensures !blockGripper ==> w - fingersWidth == fingersCtrl * FingersScale
  {
    if blockGripper then 0.0 else fingersWidth + fingersCtrl * FingersScale
  }

  /** With a control in [-1, 1] the opening changes by at most FingersScale. */
  lemma FingersStepBounded(fingersCtrl: real, fingersWidth: real)
    requires ActionLow <= fingersCtrl <= ActionHigh
    ensures fingersWidth - FingersScale <= TargetFingersWidth(false, fingersCtrl, fingersWidth) <= fingersWidth + FingersScale
  {
    ScaledComponentBounded(fingersCtrl, FingersScale);
  }

  /** The two finger targets: equal halves of the opening. */
  function FingerTargets(width: real): (r: seq<real>)
    ensures |r| == 2 && r[0] == r[1] && r[0] + r[1] == width
  {
    [width / 2.0, width / 2.0]
  }

  class Kr300R2500Ultra {
    /** "ee" selects end-effector control; any other value selects joint control. */
    const controlType: string
    const blockGripper: bool
    /** Length of the action space, whose every bound is [-1, 1]. */
    const nAction: nat := if controlType == "ee" then 3 else 6
    /** The simulator calls this robot has issued, oldest first. */
    var commands: seq<Command>

    constructor (controlType: string := "ee", blockGripper: bool := false)
      ensures this.controlType == controlType && this.blockGripper == blockGripper
      ensures nAction == 3 <==> controlType == "ee"
      ensures controlType != "ee" ==> nAction == 6
      ensures commands == []
    {
      this.controlType := controlType;
      this.blockGripper := blockGripper;
      commands := [];
    }

    /** The joint angles the IK solver returns, all of them, for link 7 at
        the fixed orientation and the target moved by 0.05 times the
        displacement with its height floored at 0. */
    function EeArmAngles(eeDisplacement: seq<real>, sim: Simulator): (r: seq<real>)
      requires |eeDisplacement| >= 3 && |sim.eePosition| == 3
      ensures var ee, d := sim.eePosition, eeDisplacement;
        r == sim.inverseKinematics(EeLink,
               [ee[0] + d[0] * DisplacementScale, ee[1] + d[1] * DisplacementScale,
                Max(0.0, ee[2] + d[2] * DisplacementScale)],
               EeOrientation)
    {
      var d := eeDisplacement[..3];
      var target := EeTargetPosition(sim.eePosition, d, DisplacementScale);
      EeTargetPositionComponents(sim.eePosition, d, DisplacementScale);
      assert target == [target[0], target[1], target[2]];
      sim.inverseKinematics(EeLink, target, EeOrientation)
    }

    /** ee_displacement_to_target_arm_angles: move the current end-effector
        position by 0.05 times the displacement, clip its height in place and
        return everything IK answers for link 7 at the fixed orientation. */
    method EeDisplacementToTargetArmAngles(eeDisplacement: seq<real>, sim: Simulator) returns (targetArmAngles: seq<real>)
      requires |eeDisplacement| >= 3 && |sim.eePosition| == 3
      ensures targetArmAngles == EeArmAngles(eeDisplacement, sim)
    {
      var d := Scale(eeDisplacement[..3], DisplacementScale);
      var ee := sim.eePosition;
      var targetEePosition := new real[3];
      targetEePosition[0], targetEePosition[1], targetEePosition[2] := ee[0] + d[0], ee[1] + d[1], ee[2] + d[2];
      assert targetEePosition[..] == Add(ee, d);
      targetEePosition[2] := Max(0.0, targetEePosition[2]);
      targetArmAngles := sim.inverseKinematics(EeLink, targetEePosition[..], EeOrientation);
    }

    /** The targets set_action commands for an action, or what it raises: a
        shape numpy cannot clip, or joint mode's missing helper. Every
        command ends in two equal finger targets, zero when the gripper is
        blocked. */
    function TargetAngles(action: seq<real>, sim: Simulator): (r: Result<seq<real>>)
      requires |sim.eePosition| == 3
      ensures r.Ok? <==> (|action| == nAction || |action| == 1) && controlType == "ee"
      ensures |action| != nAction && |action| != 1 ==> r == Err(BroadcastError)
      ensures (|action| == nAction || |action| == 1) && controlType != "ee" ==>
        r == Err(MissingAttribute(MissingJointHelper))
      ensures r.Ok? ==> |r.value| >= 2 && r.value[|r.value| - 1] == r.value[|r.value| - 2]
      ensures r.Ok? && blockGripper ==> r.value[|r.value| - 1] == 0.0
    {
      match ClipToActionSpace(action, nAction)
      case None => Err(BroadcastError)
      case Some(a) =>
        if controlType != "ee" then Err(MissingAttribute(MissingJointHelper))
        else
          var width := TargetFingersWidth(blockGripper, a[|a| - 1], sim.fingersWidth);
          Ok(EeArmAngles(a[..3], sim) + FingerTargets(width))
    }

    /** set_action (the second definition): clip a copy of the action, map
        it, append the finger targets and command the result. The caller's
        array is left as it was. */
    method SetAction(action: array<real>, sim: Simulator) returns (outcome: Outcome)
      requires |sim.eePosition| == 3
      modifies this
      ensures action[..] == old(action[..])
      ensures TargetAngles(action[..], sim).Err? ==>
        outcome == Fail(TargetAngles(action[..], sim).error) && commands == old(commands)
      ensures TargetAngles(action[..], sim).Ok? ==>
        outcome == Pass &&
        commands == old(commands) + [ControlJoints(JointIndices, TargetAngles(action[..], sim).value, JointForces)]
    {
      var clipped := ClipToActionSpace(action[..], nAction);
      if clipped.None? {
        return Fail(BroadcastError);
      }
      var a := clipped.value;
      var targetArmAngles;
      if controlType == "ee" {
        targetArmAngles := EeDisplacementToTargetArmAngles(a[..3], sim);
      } else {
        return Fail(MissingAttribute(MissingJointHelper));
      }
      var targetFingersWidth;
      if blockGripper {
        targetFingersWidth := 0.0;
      } else {
        var fingersCtrl := a[|a| - 1] * FingersScale;
        targetFingersWidth := sim.fingersWidth + fingersCtrl;
      }
      var targetAngles := targetArmAngles + [targetFingersWidth / 2.0, targetFingersWidth / 2.0];
      commands := commands + [ControlJoints(JointIndices, targetAngles, JointForces)];
      outcome := Pass;
    }

    /** reset: put the arm in its neutral pose, whatever came before. */
    method Reset()
      modifies this
      ensures commands == old(commands) + [SetJointAngles(JointIndices, NeutralJointValues)]
    {
      SetJointNeutral();
    }

    method SetJointNeutral()
      modifies this
      ensures commands == old(commands) + [SetJointAngles(JointIndices, NeutralJointValues)]
    {
      commands := commands + [SetJointAngles(JointIndices, NeutralJointValues)];
    }

    /** Out-of-range components are clipped, so an action and its clipped
        copy command the same targets. */
    lemma TargetAnglesIgnoreClipping(action: seq<real>, sim: Simulator)
      requires |sim.eePosition| == 3 && ClipToActionSpace(action, nAction).Some?
      ensures TargetAngles(ClipToActionSpace(action, nAction).value, sim) == TargetAngles(action, sim)
    {
      ClipIdempotent(action, nAction);
    }

    /** End-effector mode: the whole IK answer for link 7 at the fixed
        orientation, for a target on or above the floor within 0.05 of the
        current x and y, and of the current z when the end effector is not
        below the floor, followed by the two finger targets.
        The last action component is the z displacement, so it also drives
        the fingers. */
    lemma EeModeTarget(action: seq<real>, sim: Simulator)
      requires controlType == "ee" && |sim.eePosition| == 3 && |action| == nAction
      ensures
        var ee := sim.eePosition;
        var p := EeTargetPosition(ee, ClipToActionSpace(action, nAction).value, DisplacementScale);
        var w := if blockGripper then 0.0 else sim.fingersWidth + Clip(action[2]) * FingersScale;
        && TargetAngles(action, sim) == Ok(sim.inverseKinematics(EeLink, p, EeOrientation) + [w / 2.0, w / 2.0])
        && |TargetAngles(action, sim).value| == |sim.inverseKinematics(EeLink, p, EeOrientation)| + 2
        && p[0] == ee[0] + Clip(action[0]) * DisplacementScale
        && p[1] == ee[1] + Clip(action[1]) * DisplacementScale
        && p[2] == Max(0.0, ee[2] + Clip(action[2]) * DisplacementScale)
        && (forall i :: 0 <= i < 2 ==> ee[i] - DisplacementScale <= p[i] <= ee[i] + DisplacementScale)
        && (ee[2] >= 0.0 ==> ee[2] - DisplacementScale <= p[2] <= ee[2] + DisplacementScale)
    {
      var a := ClipToActionSpace(action, nAction).value;
      assert a[..3] == a;
      assert a[0] == Clip(action[0]) && a[1] == Clip(action[1]) && a[2] == Clip(action[2]);
      EeTargetPositionComponents(sim.eePosition, a, DisplacementScale);
      EeTargetStepBounded(sim.eePosition, a, DisplacementScale);
    }
  }

  /** The worked case: from (0.3, 0, 0.2), the action (1, 0, 0) asks IK for (0.35, 0, 0.2). */
  lemma EeTargetExample()
    ensures EeTargetPosition([0.3, 0.0, 0.2], [1.0, 0.0, 0.0], DisplacementScale) == [0.35, 0.0, 0.2]
  {
    EeTargetPositionComponents([0.3, 0.0, 0.2], [1.0, 0.0, 0.0], DisplacementScale);
  }
}
