/**
 * The first KUKA KR 300 R2500 adapter of the rccn_panda_gym examples (class
 * KUKAKR300R2500Robot). Its set_action forwards the action as joint targets
 * untouched; its end-effector mapper exists but set_action never calls it;
 * its reset commands six zeros rather than the nine stored neutral values.
 */
module CustomKukaRobot {
  import opened RobotCore

  /** The six controlled joints as numbered in kr300r2500ultra.urdf, and the force cap of each (Nm). */
  const JointIndices: seq<nat> := [1, 2, 3, 4, 5, 6]
  const JointForces: seq<real> := [2000.0, 2000.0, 2000.0, 2000.0, 2000.0, 2000.0]

  /** Stored by the constructor; nothing in the class reads it. */
  const NeutralJointValues: seq<real> := [0.0, 0.41, 0.0, -1.85, 0.0, 2.26, 0.79, 0.0, 0.0]

  /** What reset commands instead. */
  const ResetAngles: seq<real> := [0.0, 0.0, 0.0, 0.0, 0.0, 0.0]

  const EeLink: nat := 7

  /** The quaternion (x, y, z, w) the end effector is asked to hold. */
  const EeOrientation: seq<real> := [1.0, 0.0, 0.0, 0.0]

  /** Largest end-effector move per displacement component (a literal in the class). */
  const DisplacementScale: real := 0.05

  /** How many IK angles the end-effector mapper keeps. */
  const KeptAngles: nat := 7

  class KUKAKR300R2500Robot {
    const blockGripper: bool
    /** "ee" selects end-effector control; any other value selects joint control. */
    const controlType: string
    /** Length of the action space, whose every bound is [-1, 1]. */
    const nAction: nat := if controlType == "ee" then 3 else 7
    /** The simulator calls this robot has issued, oldest first. */
    var commands: seq<Command>

    constructor (blockGripper: bool := false, controlType: string := "ee")
      ensures this.blockGripper == blockGripper && this.controlType == controlType
      ensures nAction == 3 <==> controlType == "ee"
      ensures controlType != "ee" ==> nAction == 7
      ensures commands == []
    {
      this.blockGripper := blockGripper;
      this.controlType := controlType;
      commands := [];
    }

    /** set_action: the action itself, not clipped and not scaled, becomes
        the joint target, whatever its length or its values. */
    method SetAction(action: array<real>)
      modifies this
      ensures action[..] == old(action[..])
      ensures commands == old(commands) + [ControlJoints(JointIndices, action[..], JointForces)]
    {
      commands := commands + [ControlJoints(JointIndices, action[..], JointForces)];
    }

    /** What the end-effector mapper asks of the IK solver, and what it keeps. */
    function EeArmAngles(eeDisplacement: seq<real>, sim: Simulator): (r: seq<real>)
      requires |eeDisplacement| >= 3 && |sim.eePosition| == 3
      ensures |r| <= KeptAngles
    {
      var target := EeTargetPosition(sim.eePosition, eeDisplacement[..3], DisplacementScale);
      Take(sim.inverseKinematics(EeLink, target, EeOrientation), KeptAngles)
    }

    /** ee_displacement_to_target_arm_angles: move the current end-effector
        position by 0.05 times the displacement, clip its height in place,
        solve IK for link 7 at the fixed orientation and keep at most the
        first seven angles. */
    method EeDisplacementToTargetArmAngles(eeDisplacement: seq<real>, sim: Simulator) returns (targetArmAngles: seq<real>)
      requires |eeDisplacement| >= 3 && |sim.eePosition| == 3
      ensures targetArmAngles == EeArmAngles(eeDisplacement, sim)
    {
      var d := Scale(eeDisplacement[..3], DisplacementScale);
      var ee := sim.eePosition;
      var targetEePosition := new real[3];
      targetEePosition[0], targetEePosition[1], targetEePosition[2] := ee[0] + d[0], ee[1] + d[1], ee[2] + d[2];
      assert targetEePosition[..] == Add(ee, d);
      targetEePosition[2] := Max(0.0, targetEePosition[2]);
      var angles := sim.inverseKinematics(EeLink, targetEePosition[..], EeOrientation);
      targetArmAngles := Take(angles, KeptAngles);
    }

    /** reset: six zero angles, whatever came before. */
    method Reset()
      modifies this
      ensures commands == old(commands) + [SetJointAngles(JointIndices, ResetAngles)]
    {
      commands := commands + [SetJointAngles(JointIndices, ResetAngles)];
    }

    /** reset does not command the stored neutral pose: that pose has nine
        values, one for each of nine joints, while reset sends six zeros to
        the six controlled joints. */
    lemma ResetIgnoresNeutralPose()
      ensures |ResetAngles| == |JointIndices| && |NeutralJointValues| != |JointIndices|
      ensures forall i :: 0 <= i < |ResetAngles| ==> ResetAngles[i] == 0.0
      ensures SetJointAngles(JointIndices, ResetAngles) != SetJointAngles(JointIndices, NeutralJointValues)
    {
    }

    /** The end-effector mapper keeps the first min(7, n) of the n IK
        angles, computed for a target on or above the floor that, when the
        displacement is in [-1, 1], lies within 0.05 of the current x and y.
        Nothing in this class clips the displacement. */
    lemma EeArmAnglesSpec(eeDisplacement: seq<real>, sim: Simulator)
      requires |eeDisplacement| >= 3 && |sim.eePosition| == 3
      ensures
        var ee, d := sim.eePosition, eeDisplacement[..3];
        var p := EeTargetPosition(ee, d, DisplacementScale);
        var angles := sim.inverseKinematics(EeLink, p, EeOrientation);
        && EeArmAngles(eeDisplacement, sim) <= angles
        && |EeArmAngles(eeDisplacement, sim)| == (if |angles| < KeptAngles then |angles| else KeptAngles)
        && p[2] >= 0.0
        && (InActionBox(d) ==> forall i :: 0 <= i < 2 ==> ee[i] - DisplacementScale <= p[i] <= ee[i] + DisplacementScale)
    {
      var d := eeDisplacement[..3];
      if InActionBox(d) {
        EeTargetStepBounded(sim.eePosition, d, DisplacementScale);
      }
    }
  }
}
