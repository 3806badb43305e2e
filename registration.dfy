/**
 * Importing raccoon_gym registers its environments: for each of two robots,
 * three nested loops (task, reward type, control type) build an environment
 * ID from string rules, register it with gymnasium and append it to the
 * package's ENV_IDS list.
 *
 * gymnasium's register is external; here a registration is the record of
 * the call (ID, entry point, keyword arguments, episode limit) appended to
 * the sequence of registrations made so far.
 */
module RaccoonGymRegistry {

  /** The keyword arguments an environment is created with. */
  datatype Kwargs = Kwargs(rewardType: string, controlType: string)

  /** One call of register. */
  datatype EnvSpec = EnvSpec(id: string, entryPoint: string, kwargs: Kwargs, maxEpisodeSteps: nat)

  /** A robot block: the prefix of its IDs, and the class-name stem of its environment. */
  datatype RobotEnv = RobotEnv(idPrefix: string, envStem: string)

  const Kr300Env: RobotEnv := RobotEnv("RaccoonKr300R2500Ultra", "Kr300R2500Ultra")
  const WestEnv: RobotEnv := RobotEnv("RCCNWestRobot", "RCCNWestRobot")

  /** What each loop runs over, in order. */
  const Tasks: seq<string> := ["Reach"]
  const RewardTypes: seq<string> := ["sparse", "dense"]
  const ControlTypes: seq<string> := ["ee", "joints"]

  const MaxEpisodeSteps: nat := 100

  /** "Dense" names the dense reward; the sparse one adds nothing. */
  function RewardSuffix(rewardType: string): (r: string)
    ensures r == "Dense" <==> rewardType == "dense"
    ensures r != "Dense" ==> r == ""
  {
    if rewardType == "dense" then "Dense" else ""
  }

  /** "Joints" names joint control; end-effector control adds nothing. */
  function ControlSuffix(controlType: string): (r: string)
    ensures r == "Joints" <==> controlType == "joints"
    ensures r != "Joints" ==> r == ""
  {
    if controlType == "joints" then "Joints" else ""
  }

  /** The ID rule: robot prefix, task, "Joints" for joint control, "Dense"
      for dense reward, then the version. Each suffix has its own length,
      so the length alone tells which suffixes an ID carries. */
  function EnvId(robot: RobotEnv, task: string, rewardType: string, controlType: string): (r: string)
    ensures robot.idPrefix + task <= r
    ensures |r| == |robot.idPrefix| + |task| + (if controlType == "joints" then 6 else 0)
                   + (if rewardType == "dense" then 5 else 0) + 3
    ensures r[|r| - 3..] == "-v1"
  {
    robot.idPrefix + task + ControlSuffix(controlType) + RewardSuffix(rewardType) + "-v1"
  }

  /** The environment class: `<stem><task>Env` in module raccoon_gym.envs. */
  function EntryPoint(robot: RobotEnv, task: string): (r: string)
    ensures "raccoon_gym.envs:" <= r
    ensures r[|"raccoon_gym.envs:"|..] == robot.envStem + task + "Env"
  {
    "raccoon_gym.envs:" + robot.envStem + task + "Env"
  }

  /** The registration the loops make for one combination. */
  function Registration(robot: RobotEnv, task: string, rewardType: string, controlType: string): (s: EnvSpec)
    ensures s.kwargs == Kwargs(rewardType, controlType) && s.maxEpisodeSteps == MaxEpisodeSteps
    ensures s.id == EnvId(robot, task, rewardType, controlType)
  {
    EnvSpec(EnvId(robot, task, rewardType, controlType), EntryPoint(robot, task),
            Kwargs(rewardType, controlType), MaxEpisodeSteps)
  }

  /** The innermost loop's registrations: one per control type, in order. */
  function ControlBlock(robot: RobotEnv, task: string, rewardType: string, controls: seq<string>): (r: seq<EnvSpec>)
    ensures |r| == |controls|
    decreases |controls|
  {
    if controls == [] then []
    else ControlBlock(robot, task, rewardType, controls[..|controls| - 1])
         + [Registration(robot, task, rewardType, controls[|controls| - 1])]
  }

  /** The reward loop's registrations: for reward type j, the control
      types in order, at positions 2j and 2j + 1. */
  function RewardBlock(robot: RobotEnv, task: string, rewards: seq<string>): (r: seq<EnvSpec>)
    ensures |r| == 2 * |rewards|
    decreases |rewards|
  {
    if rewards == [] then []
    else RewardBlock(robot, task, rewards[..|rewards| - 1])
         + ControlBlock(robot, task, rewards[|rewards| - 1], ControlTypes)
  }

  /** The task loop's registrations: for task i, reward type j and control
      type k, the registration at position 4i + 2j + k. */
  function TaskBlock(robot: RobotEnv, tasks: seq<string>): (r: seq<EnvSpec>)
    ensures |r| == 4 * |tasks|
    decreases |tasks|
  {
    if tasks == [] then []
    else TaskBlock(robot, tasks[..|tasks| - 1]) + RewardBlock(robot, tasks[|tasks| - 1], RewardTypes)
  }

  /** Everything importing the package registers: the four KR300
      registrations, then the four West ones. */
  function AllRegistrations(): (r: seq<EnvSpec>)
    ensures |r| == 8
  {
    TaskBlock(Kr300Env, Tasks) + TaskBlock(WestEnv, Tasks)
  }

  /** The innermost loop registers one environment per control type, in order. */
  lemma {:induction false} ControlBlockElements(robot: RobotEnv, task: string, rewardType: string, controls: seq<string>)
    ensures forall k :: 0 <= k < |controls| ==>
      ControlBlock(robot, task, rewardType, controls)[k] == Registration(robot, task, rewardType, controls[k])
    decreases |controls|
  {
    if controls != [] {
      var init := controls[..|controls| - 1];
      ControlBlockElements(robot, task, rewardType, init);
      assert forall k :: 0 <= k < |init| ==> controls[k] == init[k];
    }
  }

  /** The reward loop: for reward type j, the control types in order, at
      positions 2j and 2j + 1. */
  lemma {:induction false} RewardBlockElements(robot: RobotEnv, task: string, rewards: seq<string>)
    ensures forall j, k :: 0 <= j < |rewards| && 0 <= k < |ControlTypes| ==>
      RewardBlock(robot, task, rewards)[2 * j + k] == Registration(robot, task, rewards[j], ControlTypes[k])
    decreases |rewards|
  {
    if rewards != [] {
      var init := rewards[..|rewards| - 1];
      var last := rewards[|rewards| - 1];
      RewardBlockElements(robot, task, init);
      ControlBlockElements(robot, task, last, ControlTypes);
      var front, back := RewardBlock(robot, task, init), ControlBlock(robot, task, last, ControlTypes);
      assert RewardBlock(robot, task, rewards) == front + back;
      forall j, k | 0 <= j < |rewards| && 0 <= k < |ControlTypes|
        ensures RewardBlock(robot, task, rewards)[2 * j + k] == Registration(robot, task, rewards[j], ControlTypes[k])
      {
        if j < |init| {
          assert rewards[j] == init[j];
          assert (front + back)[2 * j + k] == front[2 * j + k];
        } else {
          assert (front + back)[2 * j + k] == back[k];
        }
      }
    }
  }

  /** The task loop: for task i, reward type j and control type k, the
      registration at position 4i + 2j + k. */
  lemma {:induction false} TaskBlockElements(robot: RobotEnv, tasks: seq<string>)
    ensures forall i, j, k :: 0 <= i < |tasks| && 0 <= j < |RewardTypes| && 0 <= k < |ControlTypes| ==>
      TaskBlock(robot, tasks)[4 * i + 2 * j + k] == Registration(robot, tasks[i], RewardTypes[j], ControlTypes[k])
    decreases |tasks|
  {
    if tasks != [] {
      var init := tasks[..|tasks| - 1];
      var last := tasks[|tasks| - 1];
      TaskBlockElements(robot, init);
      RewardBlockElements(robot, last, RewardTypes);
      var front, back := TaskBlock(robot, init), RewardBlock(robot, last, RewardTypes);
      assert TaskBlock(robot, tasks) == front + back;
      forall i, j, k | 0 <= i < |tasks| && 0 <= j < |RewardTypes| && 0 <= k < |ControlTypes|
        ensures TaskBlock(robot, tasks)[4 * i + 2 * j + k] == Registration(robot, tasks[i], RewardTypes[j], ControlTypes[k])
      {
        if i < |init| {
          assert tasks[i] == init[i];
          assert (front + back)[4 * i + 2 * j + k] == front[4 * i + 2 * j + k];
        } else {
          assert (front + back)[4 * i + 2 * j + k] == back[2 * j + k];
        }
      }
    }
  }

  function Ids(specs: seq<EnvSpec>): (ids: seq<string>)
    ensures |ids| == |specs| && forall i :: 0 <= i < |specs| ==> ids[i] == specs[i].id
  {
    seq(|specs|, i requires 0 <= i < |specs| => specs[i].id)
  }

  lemma IdsAppend(specs: seq<EnvSpec>, s: EnvSpec)
    ensures Ids(specs + [s]) == Ids(specs) + [s.id]
  {
    assert forall i :: 0 <= i < |specs| ==> (specs + [s])[i] == specs[i];
  }

  /** One robot block of the package's import: the three nested loops,
      each pass registering one environment and appending its ID. */
  method RegisterRobot(robot: RobotEnv, envIds0: seq<string>, registry0: seq<EnvSpec>)
    returns (envIds: seq<string>, registry: seq<EnvSpec>)
    requires envIds0 == Ids(registry0)
    ensures registry == registry0 + TaskBlock(robot, Tasks)
    ensures envIds == Ids(registry)
  {
    envIds, registry := envIds0, registry0;
    for t := 0 to |Tasks|
      invariant registry == registry0 + TaskBlock(robot, Tasks[..t])
      invariant envIds == Ids(registry)
    {
      var task := Tasks[t];
      ghost var before := registry;
      for r := 0 to |RewardTypes|
        invariant registry == before + RewardBlock(robot, task, RewardTypes[..r])
        invariant envIds == Ids(registry)
      {
        var rewardType := RewardTypes[r];
        ghost var start := registry;
        for c := 0 to |ControlTypes|
          invariant registry == start + ControlBlock(robot, task, rewardType, ControlTypes[..c])
          invariant envIds == Ids(registry)
        {
          var controlType := ControlTypes[c];
          var rewardSuffix := RewardSuffix(rewardType);
          var controlSuffix := ControlSuffix(controlType);
          var envId := robot.idPrefix + task + controlSuffix + rewardSuffix + "-v1";
          var spec := EnvSpec(envId, EntryPoint(robot, task), Kwargs(rewardType, controlType), MaxEpisodeSteps);
          assert spec == Registration(robot, task, rewardType, controlType);
          IdsAppend(registry, spec);
          registry := registry + [spec];
          envIds := envIds + [envId];
          assert ControlTypes[..c + 1][..c] == ControlTypes[..c];
        }
        assert ControlTypes[..|ControlTypes|] == ControlTypes;
        assert RewardTypes[..r + 1][..r] == RewardTypes[..r];
      }
      assert RewardTypes[..|RewardTypes|] == RewardTypes;
      assert Tasks[..t + 1][..t] == Tasks[..t];
    }
    assert Tasks[..|Tasks|] == Tasks;
  }

  /** Importing the package: ENV_IDS starts empty and both robot blocks run. */
  method ImportPackage() returns (envIds: seq<string>, registry: seq<EnvSpec>)
    ensures registry == AllRegistrations()
    ensures envIds == Ids(registry)
  {
    envIds, registry := [], [];
    envIds, registry := RegisterRobot(Kr300Env, envIds, registry);
    envIds, registry := RegisterRobot(WestEnv, envIds, registry);
  }

  /** The order of registration: per robot, (sparse, ee), (sparse, joints),
      (dense, ee), (dense, joints); KR300 first, West second. */
  lemma AllRegistrationsInOrder()
    ensures AllRegistrations() == [
      Registration(Kr300Env, "Reach", "sparse", "ee"),
      Registration(Kr300Env, "Reach", "sparse", "joints"),
      Registration(Kr300Env, "Reach", "dense", "ee"),
      Registration(Kr300Env, "Reach", "dense", "joints"),
      Registration(WestEnv, "Reach", "sparse", "ee"),
      Registration(WestEnv, "Reach", "sparse", "joints"),
      Registration(WestEnv, "Reach", "dense", "ee"),
      Registration(WestEnv, "Reach", "dense", "joints")]
  {
    forall robot: RobotEnv
      ensures TaskBlock(robot, Tasks) == [
        Registration(robot, "Reach", "sparse", "ee"),
        Registration(robot, "Reach", "sparse", "joints"),
        Registration(robot, "Reach", "dense", "ee"),
        Registration(robot, "Reach", "dense", "joints")]
    {
      RobotBlockInOrder(robot);
    }
  }

  lemma RobotBlockInOrder(robot: RobotEnv)
    ensures TaskBlock(robot, Tasks) == [
      Registration(robot, "Reach", "sparse", "ee"),
      Registration(robot, "Reach", "sparse", "joints"),
      Registration(robot, "Reach", "dense", "ee"),
      Registration(robot, "Reach", "dense", "joints")]
  {
    forall rewardType: string
      ensures ControlBlock(robot, "Reach", rewardType, ControlTypes) ==
        [Registration(robot, "Reach", rewardType, "ee"), Registration(robot, "Reach", rewardType, "joints")]
    {
      assert ControlTypes[..1] == ["ee"] && ["ee"][..0] == [];
    }
    assert RewardTypes[..1] == ["sparse"] && ["sparse"][..0] == [];
    assert Tasks[..0] == [];
  }

  /** The IDs the KR300 block builds. */
  lemma Kr300EnvIds()
    ensures EnvId(Kr300Env, "Reach", "sparse", "ee") == "RaccoonKr300R2500UltraReach-v1"
    ensures EnvId(Kr300Env, "Reach", "sparse", "joints") == "RaccoonKr300R2500UltraReachJoints-v1"
    ensures EnvId(Kr300Env, "Reach", "dense", "ee") == "RaccoonKr300R2500UltraReachDense-v1"
    ensures EnvId(Kr300Env, "Reach", "dense", "joints") == "RaccoonKr300R2500UltraReachJointsDense-v1"
  {
  }

  /** The IDs the West block builds. */
  lemma WestEnvIds()
    ensures EnvId(WestEnv, "Reach", "sparse", "ee") == "RCCNWestRobotReach-v1"
    ensures EnvId(WestEnv, "Reach", "sparse", "joints") == "RCCNWestRobotReachJoints-v1"
    ensures EnvId(WestEnv, "Reach", "dense", "ee") == "RCCNWestRobotReachDense-v1"
    ensures EnvId(WestEnv, "Reach", "dense", "joints") == "RCCNWestRobotReachJointsDense-v1"
  {
  }

  /** ENV_IDS after import: exactly these eight IDs, in this order. */
  lemma EnvIdsAfterImport()
    ensures Ids(AllRegistrations()) == [
      "RaccoonKr300R2500UltraReach-v1",
      "RaccoonKr300R2500UltraReachJoints-v1",
      "RaccoonKr300R2500UltraReachDense-v1",
      "RaccoonKr300R2500UltraReachJointsDense-v1",
      "RCCNWestRobotReach-v1",
      "RCCNWestRobotReachJoints-v1",
      "RCCNWestRobotReachDense-v1",
      "RCCNWestRobotReachJointsDense-v1"]
  {
    AllRegistrationsInOrder();
    Kr300EnvIds();
    WestEnvIds();
  }

  /** No ID is registered twice. */
  lemma EnvIdsDistinct()
    ensures forall i, j :: 0 <= i < j < |Ids(AllRegistrations())| ==>
      Ids(AllRegistrations())[i] != Ids(AllRegistrations())[j]
  {
    EnvIdsAfterImport();
    var ids := Ids(AllRegistrations());
    forall i, j | 0 <= i < j < |ids| ensures ids[i] != ids[j] {
      assert |ids[i]| != |ids[j]|;
    }
  }

  /** Every registration runs 100 steps per episode, and its ID carries the
      suffixes of the very reward and control types in its kwargs. */
  lemma RegistrationsMatchTheirKwargs()
    ensures |AllRegistrations()| == 8
    ensures forall k :: 0 <= k < |AllRegistrations()| ==>
      var s := AllRegistrations()[k];
      var robot := if k < 4 then Kr300Env else WestEnv;
      && s.maxEpisodeSteps == 100
      && s.kwargs.rewardType in RewardTypes && s.kwargs.controlType in ControlTypes
      && s.id == robot.idPrefix + "Reach" + ControlSuffix(s.kwargs.controlType) + RewardSuffix(s.kwargs.rewardType) + "-v1"
      && s.entryPoint == "raccoon_gym.envs:" + robot.envStem + "ReachEnv"
  {
    AllRegistrationsInOrder();
  }

  /** The ID rule is one-to-one over the two robots, the reward types and
      the control types: the ID determines all three. */
  lemma EnvIdInjective(r1: RobotEnv, rt1: string, ct1: string, r2: RobotEnv, rt2: string, ct2: string)
    requires r1 in [Kr300Env, WestEnv] && r2 in [Kr300Env, WestEnv]
    requires rt1 in RewardTypes && rt2 in RewardTypes && ct1 in ControlTypes && ct2 in ControlTypes
    requires EnvId(r1, "Reach", rt1, ct1) == EnvId(r2, "Reach", rt2, ct2)
    ensures r1 == r2 && rt1 == rt2 && ct1 == ct2
  {
  }
}
