# raccoon-gym robot action mappers and environment registration, in Dafny

This project models the code of the raccoon-gym workshop repository that is
its own logic rather than a call into gymnasium, panda-gym or pybullet:

- **The robot action mappers.** Each robot class turns an agent's action
  into joint targets and commands them to the simulator. Three of the four
  classes clip the action to the action space [-1, 1]. In `"ee"` mode the first three
  components move the current end-effector position by a displacement
  scale. The height is then floored at 0, and an inverse-kinematics
  solver is asked for the joint angles at a fixed orientation. In joint
  mode the scaled action is added to the current joint angles.
- **The four robot classes:**
  - `Rv7f`: six joints, scale 0.15 by default, IK output truncated to 6.
  - `RCCNWestRobot`: seven joints, scale 0.15, truncated to 7.
  - `Kr300R2500Ultra`: scale 0.05, untruncated IK output, and a gripper
    branch that appends two finger targets.
  - `KUKAKR300R2500Robot`: its `set_action` forwards the raw action.
- **Environment registration.** Importing `raccoon_gym` runs two triply
  nested loops (task, reward type, control type). Each pass builds an
  environment ID and registers it with gymnasium. It also appends the ID
  to `ENV_IDS`.

Files:

- `robot_core.dfy` (module `RobotCore`) holds what the mappers share:
  - the simulator snapshot they read;
  - the commands they issue;
  - numpy's `clip` with its broadcasting rule, slices, elementwise scale
    and add;
  - the floored end-effector target and the step bounds proved about it.
- Each robot is a class in its own module. Its fields are the
  configuration the constructor stores and the log of simulator commands
  (`commands`). `set_action` and `reset` append to that log.
- The simulator's answers are one `Simulator` value per call:
  - end-effector position;
  - joint angle by URDF number;
  - finger width;
  - the IK solver as an uninterpreted function.

  Nothing the mappers do between two queries changes the simulator, so one
  snapshot per call is exact.
- `registration.dfy` (module `RaccoonGymRegistry`) models the loops as a
  method over `ENV_IDS` and the sequence of `register` calls made so far.
  The method is proved equal to a recursive specification. The eight IDs,
  their order, their distinctness and their kwargs are proved about that
  specification.

Four behaviours of the code are easy to miss, and the model keeps each of them:

- **Action length.** An action of the wrong length does not always raise.
  `np.clip` against the `(n,)` box broadcasts a one-element action to all
  n components, and only other lengths raise numpy's broadcast error.
  `ClipToActionSpace` models exactly that.
- **Displacement scale.** `Rv7f` and `RCCNWestRobot` take it as a
  constructor argument with default 0.15. `Kr300R2500Ultra` and
  `KUKAKR300R2500Robot` hard-code 0.05.
- **Joints read by the West mapper.** `RCCNWestRobot`'s joint mapper reads
  the angles of joints 0..6. It commands joints [1, 3, 4, 5, 6, 7, 8].
- **KR300 joint mode.** `Kr300R2500Ultra`'s joint mode calls a method the
  class does not define, so it raises. The model returns
  `Err(MissingAttribute("arm_joint_ctrl_to_target_arm_angles"))`.

## Model

| member | source | states |
|---|---|---|
| RobotCore.Clip | src/raccoon-gym/raccoon_gym/envs/robots/mitsubishi_rv7f.py:47 | a clipped component lies in [-1, 1]; a component already there is unchanged; one below or above becomes the nearer bound |
| RobotCore.ClipToActionSpace | src/raccoon-gym/raccoon_gym/envs/robots/mitsubishi_rv7f.py:30-31 | clipping against the (n,) action box succeeds iff the action has n components or one; the result has n components, all inside the box, each the clip of its own component or of the single broadcast one |
| RobotCore.ClipKeepsInBoxAction | src/raccoon-gym/raccoon_gym/envs/robots/mitsubishi_rv7f.py:47 | an action already inside the box comes back unchanged |
| RobotCore.ClipIdempotent | src/raccoon-gym/raccoon_gym/envs/robots/mitsubishi_rv7f.py:47 | clipping a clipped action changes nothing |
| RobotCore.Take | src/raccoon-gym/raccoon_gym/envs/robots/mitsubishi_rv7f.py:77 | the slice s[:n] is a prefix of s of length min(n, len(s)) |
| RobotCore.Scale | src/raccoon-gym/raccoon_gym/envs/robots/mitsubishi_rv7f.py:67 | each component is multiplied by the factor, and the length is kept |
| RobotCore.Add | src/raccoon-gym/raccoon_gym/envs/robots/mitsubishi_rv7f.py:70 | each component is the sum of the two inputs' components |
| RobotCore.FloorZ | src/raccoon-gym/raccoon_gym/envs/robots/mitsubishi_rv7f.py:72 | the height becomes non-negative; x and y are unchanged; a target on or above the floor is untouched; one below is raised to 0 |
| RobotCore.FloorZIdempotent | src/raccoon-gym/raccoon_gym/envs/robots/mitsubishi_rv7f.py:72 | flooring twice is flooring once |
| RobotCore.EeTargetPosition | src/raccoon-gym/raccoon_gym/envs/robots/mitsubishi_rv7f.py:67-72 | the IK target is a three-component position |
| RobotCore.EeTargetPositionComponents | src/raccoon-gym/raccoon_gym/envs/robots/mitsubishi_rv7f.py:67-72 | the target's x and y are the current ones plus displacement times scale; its z is max(0, z + dz times scale), so 0 when that would be below the floor |
| RobotCore.ScaledComponentBounded | src/raccoon-gym/raccoon_gym/envs/robots/mitsubishi_rv7f.py:67 | a component in [-1, 1] times a non-negative scale lies in [-scale, scale], the "limit maximum change" of the source |
| RobotCore.AxisStepBounded | src/raccoon-gym/raccoon_gym/envs/robots/mitsubishi_rv7f.py:67-72 | one coordinate moved by a clipped, scaled component stays within scale of where it was, also after the floor when it started on or above it |
| RobotCore.EeTargetStepBounded | src/raccoon-gym/raccoon_gym/envs/robots/mitsubishi_rv7f.py:67-72 | with a clipped displacement the IK target lies within scale of the current position on x and y, and on z when the end effector is not below the floor |
| RobotCore.JointDeltaTargets | src/raccoon-gym/raccoon_gym/envs/robots/mitsubishi_rv7f.py:89-92 | delta control: target i minus the angle of joint i equals control i times the scale, one target per control |
| RobotCore.JointStepBounded | src/raccoon-gym/raccoon_gym/envs/robots/mitsubishi_rv7f.py:89-92 | with a clipped control no joint target is farther than the scale from that joint's current angle |
| MitsubishiRv7f.Rv7f.constructor | src/raccoon-gym/raccoon_gym/envs/robots/mitsubishi_rv7f.py:21-43 | the action dimension is 3 exactly in "ee" mode and 6 otherwise; the control type and scale (default 0.15) are stored; nothing has been commanded yet |
| MitsubishiRv7f.Rv7f.EeArmAngles | src/raccoon-gym/raccoon_gym/envs/robots/mitsubishi_rv7f.py:67-77 | the end-effector mapper returns at most six angles |
| MitsubishiRv7f.Rv7f.EeDisplacementToTargetArmAngles | src/raccoon-gym/raccoon_gym/envs/robots/mitsubishi_rv7f.py:58-78 | the in-place computation (a three-element target array whose z is overwritten by max(0, z)) yields the first six IK angles for link 6 at the floored, displaced target |
| MitsubishiRv7f.Rv7f.ArmJointCtrlToTargetArmAngles | src/raccoon-gym/raccoon_gym/envs/robots/mitsubishi_rv7f.py:80-93 | six targets, each the current angle of joint i (i in 0..5) plus control i times the scale |
| MitsubishiRv7f.Rv7f.TargetAngles | src/raccoon-gym/raccoon_gym/envs/robots/mitsubishi_rv7f.py:45-55 | set_action raises exactly when the action length is neither the action dimension nor 1, and then with numpy's broadcast error; otherwise at most six targets |
| MitsubishiRv7f.Rv7f.SetAction | src/raccoon-gym/raccoon_gym/envs/robots/mitsubishi_rv7f.py:45-56 | the caller's action is left unchanged; on a raise nothing is commanded; otherwise exactly one control_joints command for joints 0..5 at 2000 Nm with the mapped targets is appended |
| MitsubishiRv7f.Rv7f.Reset | src/raccoon-gym/raccoon_gym/envs/robots/mitsubishi_rv7f.py:103-104 | reset appends exactly one command setting joints 0..5 to [0, -pi/2, pi/2, 0, 0, 0], whatever came before |
| MitsubishiRv7f.Rv7f.SetJointNeutral | src/raccoon-gym/raccoon_gym/envs/robots/mitsubishi_rv7f.py:106-108 | appends the neutral-pose command and nothing else |
| MitsubishiRv7f.Rv7f.TargetAnglesIgnoreClipping | src/raccoon-gym/raccoon_gym/envs/robots/mitsubishi_rv7f.py:46-47 | an action and its clipped copy command the same targets |
| MitsubishiRv7f.Rv7f.EeModeTarget | src/raccoon-gym/raccoon_gym/envs/robots/mitsubishi_rv7f.py:45-78 | in "ee" mode the command is the first six IK angles for link 6 at orientation (0, 0.7071068, 0, 0.7071068); the IK target is current position plus clipped action times scale with z floored; it lies within one scale step of the current x and y, and of the current z only when the end effector is not below the floor |
| MitsubishiRv7f.Rv7f.JointModeTarget | src/raccoon-gym/raccoon_gym/envs/robots/mitsubishi_rv7f.py:45-93 | in joint mode the command has six targets, target i = angle of joint i + clip(action i) times scale, each within one scale step of the current angle |
| RccnWestRobot.RCCNWestRobot.constructor | src/raccoon-gym/raccoon_gym/envs/robots/rccn_west_robot.py:19-40 | the action dimension is 3 exactly in "ee" mode and 7 otherwise; the control type and scale (default 0.15) are stored; nothing has been commanded yet |
| RccnWestRobot.RCCNWestRobot.EeArmAngles | src/raccoon-gym/raccoon_gym/envs/robots/rccn_west_robot.py:64-74 | the end-effector mapper returns at most seven angles |
| RccnWestRobot.RCCNWestRobot.EeDisplacementToTargetArmAngles | src/raccoon-gym/raccoon_gym/envs/robots/rccn_west_robot.py:55-75 | the in-place computation yields the first seven IK angles for link 10 at the floored, displaced target |
| RccnWestRobot.RCCNWestRobot.ArmJointCtrlToTargetArmAngles | src/raccoon-gym/raccoon_gym/envs/robots/rccn_west_robot.py:77-90 | seven targets, each the current angle of joint i for i in 0..6 (raw joint numbers, not the commanded indices) plus control i times the scale |
| RccnWestRobot.RCCNWestRobot.TargetAngles | src/raccoon-gym/raccoon_gym/envs/robots/rccn_west_robot.py:42-52 | set_action raises exactly when the action length is neither the action dimension nor 1, with numpy's broadcast error; otherwise at most seven targets |
| RccnWestRobot.RCCNWestRobot.SetAction | src/raccoon-gym/raccoon_gym/envs/robots/rccn_west_robot.py:42-53 | the caller's action is left unchanged; on a raise nothing is commanded; otherwise exactly one control_joints command for joints [1, 3, 4, 5, 6, 7, 8] with the mapper's output is appended |
| RccnWestRobot.RCCNWestRobot.Reset | src/raccoon-gym/raccoon_gym/envs/robots/rccn_west_robot.py:100-101 | reset appends exactly one command setting the joints to [2, 1.57, -1.57, 1.57, 0, 0, 0] |
| RccnWestRobot.RCCNWestRobot.SetJointNeutral | src/raccoon-gym/raccoon_gym/envs/robots/rccn_west_robot.py:103-105 | appends the neutral-pose command and nothing else |
| RccnWestRobot.RCCNWestRobot.TargetAnglesIgnoreClipping | src/raccoon-gym/raccoon_gym/envs/robots/rccn_west_robot.py:43-44 | an action and its clipped copy command the same targets |
| RccnWestRobot.RCCNWestRobot.EeModeTarget | src/raccoon-gym/raccoon_gym/envs/robots/rccn_west_robot.py:42-75 | in "ee" mode the command is the first seven IK angles for link 10 at orientation (0, 0.7071078, 0, 0.7071078); the IK target is current position plus clipped action times scale with z floored; it lies within one scale step of the current x and y, and of the current z only when the end effector is not below the floor |
| RccnWestRobot.RCCNWestRobot.JointModeTarget | src/raccoon-gym/raccoon_gym/envs/robots/rccn_west_robot.py:42-90 | in joint mode the command has seven targets, target i = angle of joint i + clip(action i) times scale, each within one scale step of the current angle |
| KukaKr300Ultra.TargetFingersWidth | examples/rccn_panda_gym/kuka_kr300r2500ultra.py:70-75 | a blocked gripper is driven to width 0; otherwise the width changes from the current one by the last action component times 0.2 |
| KukaKr300Ultra.FingersStepBounded | examples/rccn_panda_gym/kuka_kr300r2500ultra.py:73 | when the gripper is not blocked, a clipped control changes the finger opening by at most 0.2 (a blocked gripper goes to 0 from any width) |
| KukaKr300Ultra.FingerTargets | examples/rccn_panda_gym/kuka_kr300r2500ultra.py:77 | two equal finger targets that together make up the width |
| KukaKr300Ultra.Kr300R2500Ultra.constructor | examples/rccn_panda_gym/kuka_kr300r2500ultra.py:21-48 | the action dimension is 3 exactly in "ee" mode and 6 otherwise; nothing has been commanded yet |
| KukaKr300Ultra.Kr300R2500Ultra.EeArmAngles | examples/rccn_panda_gym/kuka_kr300r2500ultra.py:89-98 | the end-effector mapper returns the IK answer untruncated, for link 7 at orientation (1, 0, 0, 0) and the target (x + 0.05 dx, y + 0.05 dy, max(0, z + 0.05 dz)) |
| KukaKr300Ultra.Kr300R2500Ultra.EeDisplacementToTargetArmAngles | examples/rccn_panda_gym/kuka_kr300r2500ultra.py:80-99 | the in-place computation yields the whole IK answer for link 7 at the target displaced by 0.05 times the displacement, z floored |
| KukaKr300Ultra.Kr300R2500Ultra.TargetAngles | examples/rccn_panda_gym/kuka_kr300r2500ultra.py:60-77 | set_action (the second definition, the one Python keeps) succeeds iff the length is clippable and the mode is "ee", given a block_gripper value and a finger width that the class itself lacks; a bad length raises numpy's broadcast error; joint mode raises the missing-attribute error; every command ends in two equal finger targets, 0 when the gripper is blocked |
| KukaKr300Ultra.Kr300R2500Ultra.SetAction | examples/rccn_panda_gym/kuka_kr300r2500ultra.py:60-78 | the caller's action is left unchanged; on a raise nothing is commanded; otherwise exactly one control_joints command for joints 0..5 with the arm angles followed by the finger targets is appended |
| KukaKr300Ultra.Kr300R2500Ultra.Reset | examples/rccn_panda_gym/kuka_kr300r2500ultra.py:109-110 | reset appends exactly one command setting joints 0..5 to [0, -pi/2, pi/2, 0, 0, 0] |
| KukaKr300Ultra.Kr300R2500Ultra.SetJointNeutral | examples/rccn_panda_gym/kuka_kr300r2500ultra.py:112-114 | appends the neutral-pose command and nothing else |
| KukaKr300Ultra.Kr300R2500Ultra.TargetAnglesIgnoreClipping | examples/rccn_panda_gym/kuka_kr300r2500ultra.py:61-62 | an action and its clipped copy command the same targets |
| KukaKr300Ultra.Kr300R2500Ultra.EeModeTarget | examples/rccn_panda_gym/kuka_kr300r2500ultra.py:60-99 | in "ee" mode the command is the untruncated IK answer for link 7 at orientation (1, 0, 0, 0) followed by [w/2, w/2], so two longer than the IK answer; w uses the clipped z component; the IK target lies within 0.05 of the current x and y, and of the current z only when the end effector is not below the floor |
| KukaKr300Ultra.EeTargetExample | examples/rccn_panda_gym/kuka_kr300r2500ultra.py:89-94 | from (0.3, 0, 0.2) the action (1, 0, 0) asks IK for (0.35, 0, 0.2) |
| CustomKukaRobot.KUKAKR300R2500Robot.constructor | examples/rccn_panda_gym/custom_robot.py:21-43 | the action dimension is 3 exactly in "ee" mode and 7 otherwise; nothing has been commanded yet |
| CustomKukaRobot.KUKAKR300R2500Robot.SetAction | examples/rccn_panda_gym/custom_robot.py:45-53 | the raw action, neither clipped nor scaled and of any length, becomes the target of one control_joints command for joints 1..6; the action array is left unchanged |
| CustomKukaRobot.KUKAKR300R2500Robot.EeArmAngles | examples/rccn_panda_gym/custom_robot.py:64-74 | the end-effector mapper returns at most seven angles |
| CustomKukaRobot.KUKAKR300R2500Robot.EeDisplacementToTargetArmAngles | examples/rccn_panda_gym/custom_robot.py:55-75 | the in-place computation yields the first seven IK angles for link 7 at the floored, displaced target |
| CustomKukaRobot.KUKAKR300R2500Robot.Reset | examples/rccn_panda_gym/custom_robot.py:80-82 | reset appends one command setting joints 1..6 to six zeros, not the stored nine neutral values |
| CustomKukaRobot.KUKAKR300R2500Robot.ResetIgnoresNeutralPose | examples/rccn_panda_gym/custom_robot.py:42 | the stored neutral pose has nine values for six controlled joints; reset commands six zeros instead, a different command |
| CustomKukaRobot.KUKAKR300R2500Robot.EeArmAnglesSpec | examples/rccn_panda_gym/custom_robot.py:64-74 | the mapper keeps a prefix of length min(7, n) of the n IK angles; the IK target is on or above the floor and, for a displacement in [-1, 1], within 0.05 of the current x and y (this class never clips, so larger displacements move it further) |
| RaccoonGymRegistry.RewardSuffix | src/raccoon-gym/raccoon_gym/__init__.py:13 | the reward suffix is "Dense" exactly for the dense reward, and empty otherwise |
| RaccoonGymRegistry.ControlSuffix | src/raccoon-gym/raccoon_gym/__init__.py:14 | the control suffix is "Joints" exactly for joint control, and empty otherwise |
| RaccoonGymRegistry.EnvId | src/raccoon-gym/raccoon_gym/__init__.py:15 | an ID starts with the robot prefix and the task and ends in "-v1"; its length adds 6 for joint control and 5 for the dense reward, so the length tells the suffixes apart |
| RaccoonGymRegistry.EntryPoint | src/raccoon-gym/raccoon_gym/__init__.py:19 | the entry point names, in module raccoon_gym.envs, the class built from the robot stem, the task and "Env" |
| RaccoonGymRegistry.Registration | src/raccoon-gym/raccoon_gym/__init__.py:13-22 | a registration carries the ID built from its own reward and control types, those types as kwargs, and a 100-step episode limit |
| RaccoonGymRegistry.ControlBlock | src/raccoon-gym/raccoon_gym/__init__.py:12-24 | the innermost loop registers one environment per control type |
| RaccoonGymRegistry.ControlBlockElements | src/raccoon-gym/raccoon_gym/__init__.py:12-24 | the innermost loop's k-th registration is the one for the k-th control type |
| RaccoonGymRegistry.RewardBlock | src/raccoon-gym/raccoon_gym/__init__.py:11-24 | the reward loop registers two environments per reward type |
| RaccoonGymRegistry.RewardBlockElements | src/raccoon-gym/raccoon_gym/__init__.py:11-24 | the reward loop's registration at position 2j + k is the one for reward type j and control type k |
| RaccoonGymRegistry.TaskBlock | src/raccoon-gym/raccoon_gym/__init__.py:10-24 | the task loop registers four environments per task |
| RaccoonGymRegistry.TaskBlockElements | src/raccoon-gym/raccoon_gym/__init__.py:10-24 | the task loop's registration at position 4i + 2j + k is the one for task i, reward type j and control type k |
| RaccoonGymRegistry.AllRegistrations | src/raccoon-gym/raccoon_gym/__init__.py:7-41 | importing the package makes eight registrations (their order is AllRegistrationsInOrder) |
| RaccoonGymRegistry.Ids | src/raccoon-gym/raccoon_gym/__init__.py:24 | ENV_IDS holds, in order, the ID of every registration made |
| RaccoonGymRegistry.IdsAppend | src/raccoon-gym/raccoon_gym/__init__.py:17-24 | registering one more environment appends exactly its ID to ENV_IDS |
| RaccoonGymRegistry.RegisterRobot | src/raccoon-gym/raccoon_gym/__init__.py:10-24 | the three nested loops append one robot's block of registrations, and ENV_IDS stays the list of IDs registered so far |
| RaccoonGymRegistry.ImportPackage | src/raccoon-gym/raccoon_gym/__init__.py:7-41 | after import the registrations are the KR300 block followed by the West block, and ENV_IDS lists their IDs |
| RaccoonGymRegistry.AllRegistrationsInOrder | src/raccoon-gym/raccoon_gym/__init__.py:10-41 | the eight registrations in order: KR300 then West, each (sparse, ee), (sparse, joints), (dense, ee), (dense, joints) |
| RaccoonGymRegistry.RobotBlockInOrder | src/raccoon-gym/raccoon_gym/__init__.py:10-24 | one robot's block is its four registrations in loop order |
| RaccoonGymRegistry.Kr300EnvIds | src/raccoon-gym/raccoon_gym/__init__.py:13-15 | the four KR300 IDs spelled out |
| RaccoonGymRegistry.WestEnvIds | src/raccoon-gym/raccoon_gym/__init__.py:30-32 | the four West IDs spelled out |
| RaccoonGymRegistry.EnvIdsAfterImport | src/raccoon-gym/raccoon_gym/__init__.py:7-41 | ENV_IDS after import is exactly the eight IDs, four for KR300 then four for West |
| RaccoonGymRegistry.EnvIdsDistinct | src/raccoon-gym/raccoon_gym/__init__.py:15-32 | no ID is registered twice |
| RaccoonGymRegistry.RegistrationsMatchTheirKwargs | src/raccoon-gym/raccoon_gym/__init__.py:10-41 | eight registrations; each has a 100-step limit, kwargs from the loop lists, an ID whose suffixes ("Joints", "Dense") match those kwargs, and its robot's entry point |
| RaccoonGymRegistry.EnvIdInjective | src/raccoon-gym/raccoon_gym/__init__.py:13-15 | the ID determines the robot, the reward type and the control type |

## Left out

- The simulator and the IK solver (pybullet through panda-gym) are not
  modelled. Their answers are the inputs bundled in `Simulator`. The IK
  solver is an uninterpreted function.
- `control_joints` and `set_joint_angles` are recorded as commands in
  `commands`, not executed.
- `get_obs`, `get_ee_position`, `get_ee_velocity` and the `__main__` demo
  loops only read external state or drive the GUI.
- `base_position`, `body_name`, `file_name` and the URDF loading are
  handed to panda-gym's constructor and are not modelled.
- Floating point: numbers are reals. float32 action spaces and IEEE
  rounding are not modelled. `math.radians(90)` is the real
  1.5707963267948966.
- gymnasium's `register` is external. A registration is the record of the
  call, appended to a sequence.
- `raccoon_env.py`, the training, evaluation and demo scripts, and
  `setup.py` are not part of this model.
- The first `set_action` of `Kr300R2500Ultra` (line 50) is not modelled.
  Python replaces it with the second definition.
- `Kr300R2500Ultra` has no `get_fingers_width` and never assigns
  `block_gripper`. The finger width is a simulator reading, and
  `block_gripper` is a constructor parameter.
- KukaKr300Ultra.Kr300R2500Ultra.TargetAngles: as written, every
  `set_action` of `Kr300R2500Ultra` that gets past the mode branch raises
  AttributeError at line 70, because `self.block_gripper` is never
  assigned. `get_fingers_width` at line 74 would raise the same way. The
  model takes both as given so that the gripper arithmetic can be stated.
  Its ee-mode success is therefore conditional on those two attributes
  existing. The missing joint helper, by contrast, is modelled as a raise.
- The joint helper `Kr300R2500Ultra`'s joint mode calls does not exist, so
  only the raise is modelled.
- MitsubishiRv7f.Rv7f.EeDisplacementToTargetArmAngles: requires at least
  three displacement components. `set_action`, its only caller, always
  passes three, so numpy broadcasting of a shorter array passed directly
  is not modelled. The same holds for the `EeArmAngles` functions and the
  `EeDisplacementToTargetArmAngles` methods of `RCCNWestRobot` and
  `Kr300R2500Ultra`.
- CustomKukaRobot.KUKAKR300R2500Robot.EeDisplacementToTargetArmAngles:
  requires at least three displacement components, and so does
  `EeArmAngles`. The class never calls this method: the call in
  `set_action` is commented out. The requirement is therefore an
  assumption about direct callers. A one- or two-element displacement,
  which numpy would broadcast at line 67, is not modelled.
- MitsubishiRv7f.Rv7f.ArmJointCtrlToTargetArmAngles: requires exactly six
  controls, which is what `set_action` passes. Other lengths, reachable
  only by a direct call, are not modelled. The same holds for
  `RccnWestRobot.RCCNWestRobot.ArmJointCtrlToTargetArmAngles` with seven.
- The simulator's reaction to a `control_joints` target list whose length
  differs from the joint list is outside the model. One example is the
  unclipped action of `KUKAKR300R2500Robot.SetAction`. Another is the
  arm angles plus two fingers of `Kr300R2500Ultra`. The command is
  recorded as issued.
