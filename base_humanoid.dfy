/**
 * The plain-computation glue of the humanoid base environment
 * (mushroom_rl/environments/mujoco_envs/humanoids/base_humanoid.py): the
 * goal-reward dispatch, the rescaling of actions from [-1, 1] to the
 * simulator's bounds, the observation vector and its bounds, the count of
 * position and velocity keys, and the trajectory-dependent operations.
 *
 * The goal rewards the base environment selects come from a module that is
 * not part of this model; their observation is taken as a parameter and
 * their observation bounds are the interface default.
 */
module Humanoid {
  import opened PySemantics
  import Trajectories
  import RewardGoals

  /** The number of ground-reaction-force entries (three per foot contact, four contacts). */
  const GRF_SIZE: nat := 12
  /** The ground forces enter the observation divided by this scale. */
  const GRF_SCALE: real := 1000.0
  /** The leading observation entries that are dropped (the horizontal position). */
  const DROPPED_ENTRIES: nat := 2

  // ---------------------------------------------------------------------------
  // Goal-reward dispatch
  // ---------------------------------------------------------------------------

  datatype GoalRewardChoice = NoGoalReward | CustomReward

  /**
   * The `goal_reward` argument: "custom" selects CustomReward, which is
   * built from the keyword arguments `goal_reward_params` (unpacking a
   * missing dict raises TypeError); no name selects NoGoalReward; any other
   * name raises NotImplementedError.
   */
  function SelectGoalReward(goalReward: Option<string>, hasParams: bool): (r: Result<GoalRewardChoice>)
    ensures r == Ok(CustomReward) <==> goalReward == Some("custom") && hasParams
    ensures r == Ok(NoGoalReward) <==> goalReward.None?
    ensures r == Err(TypeError) <==> goalReward == Some("custom") && !hasParams
    ensures r == Err(NotImplementedError) <==> goalReward.Some? && goalReward.value != "custom"
  {
    match goalReward
    case Some(name) =>
      if name == "custom" then (if hasParams then Ok(CustomReward) else Err(TypeError))
      else Err(NotImplementedError)
    case None => Ok(NoGoalReward)
  }

  // ---------------------------------------------------------------------------
  // Actions
  // ---------------------------------------------------------------------------

  /**
   * `norm_act_mean` and `norm_act_delta`: the centre and the half-width of
   * the simulator's action box, so that mean - delta and mean + delta give
   * the original bounds back.
   */
  function ActionScaling(low: seq<real>, high: seq<real>): (md: (seq<real>, seq<real>))
    requires |low| == |high|
    ensures |md.0| == |low| && |md.1| == |low|
    ensures forall i :: 0 <= i < |low| ==> md.0[i] - md.1[i] == low[i] && md.0[i] + md.1[i] == high[i]
  {
    (seq(|low|, i requires 0 <= i < |low| => (high[i] + low[i]) / 2.0),
     seq(|low|, i requires 0 <= i < |low| => (high[i] - low[i]) / 2.0))
  }

  /** `_preprocess_action`: `action * delta + mean`, elementwise. */
  function PreprocessAction(action: seq<real>, mean: seq<real>, delta: seq<real>): (u: seq<real>)
    requires |action| == |mean| == |delta|
    ensures |u| == |action|
  {
    seq(|action|, i requires 0 <= i < |action| => action[i] * delta[i] + mean[i])
  }

  /**
   * De-normalisation maps -1 to the lower bound, +1 to the upper bound and 0
   * to the midpoint; on a box with low <= high an action in [-1, 1] lands
   * inside the box.
   */
  lemma PreprocessActionMapsBox(low: seq<real>, high: seq<real>, action: seq<real>)
    requires |low| == |high| == |action|
    ensures var (mean, delta) := ActionScaling(low, high);
      var u := PreprocessAction(action, mean, delta);
      forall i :: 0 <= i < |action| ==>
        && (action[i] == -1.0 ==> u[i] == low[i])
        && (action[i] == 1.0 ==> u[i] == high[i])
        && (action[i] == 0.0 ==> u[i] == (low[i] + high[i]) / 2.0)
        && (low[i] <= high[i] && -1.0 <= action[i] <= 1.0 ==> low[i] <= u[i] <= high[i])
  {
    var (mean, delta) := ActionScaling(low, high);
    var u := PreprocessAction(action, mean, delta);
    forall i | 0 <= i < |action|
      ensures action[i] == -1.0 ==> u[i] == low[i]
      ensures action[i] == 1.0 ==> u[i] == high[i]
      ensures action[i] == 0.0 ==> u[i] == (low[i] + high[i]) / 2.0
      ensures low[i] <= high[i] && -1.0 <= action[i] <= 1.0 ==> low[i] <= u[i] <= high[i]
    {
      var a, d := action[i], delta[i];
      assert u[i] == a * d + mean[i];
      assert mean[i] - d == low[i] && mean[i] + d == high[i];
      if low[i] <= high[i] && -1.0 <= a <= 1.0 {
        if d > 0.0 {
          MulLeq(-1.0, a, d);
          MulLeq(a, 1.0, d);
          assert -1.0 * d == -d && 1.0 * d == d;
          assert -d <= a * d <= d;
        } else {
          assert d == 0.0;
          assert a * d == 0.0;
        }
        assert low[i] <= u[i] <= high[i];
      }
    }
  }

  // ---------------------------------------------------------------------------
  // Observations
  // ---------------------------------------------------------------------------

  /**
   * `_get_observation_space`: the simulator's bounds without their first two
   * entries, then twelve unbounded ground-force entries, then the goal
   * reward's bounds.
   */
  function ObservationSpace(simLow: seq<Bound>, simHigh: seq<Bound>, goalObs: seq<real>)
    : (space: (seq<Bound>, seq<Bound>))
    ensures |space.0| == Max(|simLow| - 2, 0) + GRF_SIZE + |goalObs|
    ensures |space.1| == Max(|simHigh| - 2, 0) + GRF_SIZE + |goalObs|
    ensures |simLow| >= 2 ==> space.0[..|simLow| - 2] == simLow[2..]
    ensures |simHigh| >= 2 ==> space.1[..|simHigh| - 2] == simHigh[2..]
    ensures forall i :: Max(|simLow| - 2, 0) <= i < |space.0| ==> space.0[i] == NegInf
    ensures forall i :: Max(|simHigh| - 2, 0) <= i < |space.1| ==> space.1[i] == PosInf
  {
    var (goalLow, goalHigh) := RewardGoals.ObservationSpaceFor(goalObs);
    (PySlice(simLow, DROPPED_ENTRIES, |simLow|) + Repeat(NegInf, GRF_SIZE) + goalLow,
     PySlice(simHigh, DROPPED_ENTRIES, |simHigh|) + Repeat(PosInf, GRF_SIZE) + goalHigh)
  }

  /**
   * `_create_observation`: the simulator observation without its first two
   * entries, the mean ground forces scaled down by 1000, and the goal
   * reward's observation. Each part can be read back from its place.
   */
  function CreateObservation(obs: seq<real>, meanGrf: seq<real>, goalObs: seq<real>): (r: seq<real>)
    ensures |r| == Max(|obs| - 2, 0) + |meanGrf| + |goalObs|
    ensures |obs| >= 2 ==> r[..|obs| - 2] == obs[2..]
    ensures forall i :: 0 <= i < |meanGrf| ==> r[Max(|obs| - 2, 0) + i] * GRF_SCALE == meanGrf[i]
    ensures r[Max(|obs| - 2, 0) + |meanGrf|..] == goalObs
  {
    var head := PySlice(obs, DROPPED_ENTRIES, |obs|);
    var grf := seq(|meanGrf|, i requires 0 <= i < |meanGrf| => meanGrf[i] / GRF_SCALE);
    assert (head + grf + goalObs)[|head| + |grf|..] == goalObs;
    head + grf + goalObs
  }

  /** For a simulator observation that fits its bounds and 12 ground forces, the observation fits the space. */
  lemma ObservationFitsSpace(simLow: seq<Bound>, simHigh: seq<Bound>, obs: seq<real>, meanGrf: seq<real>,
                             goalObs: seq<real>)
    requires |simLow| == |simHigh| == |obs| && |meanGrf| == GRF_SIZE
    ensures var (low, high) := ObservationSpace(simLow, simHigh, goalObs);
      |low| == |high| == |CreateObservation(obs, meanGrf, goalObs)|
  {
  }

  // ---------------------------------------------------------------------------
  // Position and velocity keys
  // ---------------------------------------------------------------------------

  const QPOS_PREFIX: string := "q_"
  const QVEL_PREFIX: string := "dq_"

  /** `key.startswith(prefix)` */
  predicate StartsWith(key: string, prefix: string)
  {
    |prefix| <= |key| && key[..|prefix|] == prefix
  }

  /** The number of keys that start with `prefix`. */
  function CountPrefixed(keys: seq<string>, prefix: string): (n: nat)
    ensures n <= |keys|
    ensures n == 0 <==> forall i :: 0 <= i < |keys| ==> !StartsWith(keys[i], prefix)
    ensures n == |keys| <==> forall i :: 0 <= i < |keys| ==> StartsWith(keys[i], prefix)
  {
    if |keys| == 0 then 0
    else
      var rest := CountPrefixed(keys[1..], prefix);
      assert forall i :: 1 <= i < |keys| ==> keys[i] == keys[1..][i - 1];
      (if StartsWith(keys[0], prefix) then 1 else 0) + rest
  }

  /** `len_qpos_qvel`: the number of position keys and of velocity keys. */
  function LenQposQvel(keys: seq<string>): (lens: (nat, nat))
    ensures lens.0 == CountPrefixed(keys, QPOS_PREFIX) && lens.1 == CountPrefixed(keys, QVEL_PREFIX)
    ensures lens.0 + lens.1 <= |keys|
  {
    LenQposQvelDisjoint(keys);
    (CountPrefixed(keys, QPOS_PREFIX), CountPrefixed(keys, QVEL_PREFIX))
  }

  /** No key starts with both prefixes, so together they count at most every key once. */
  lemma {:induction false} LenQposQvelDisjoint(keys: seq<string>)
    ensures CountPrefixed(keys, QPOS_PREFIX) + CountPrefixed(keys, QVEL_PREFIX) <= |keys|
  {
    if |keys| > 0 {
      LenQposQvelDisjoint(keys[1..]);
      if StartsWith(keys[0], QPOS_PREFIX) {
        assert keys[0][0] == 'q';
      }
    }
  }

  // ---------------------------------------------------------------------------
  // The environment
  // ---------------------------------------------------------------------------

  /** The contents of `traj_params`: the loaded archive and the Trajectory keyword arguments. */
  datatype TrajParams = TrajParams(
    archive: Trajectories.Archive,
    ignoreKeys: seq<string>,
    trajDt: real,
    controlDt: real,
    sampler: (nat, nat) -> real)

  /** `Trajectory(keys=..., **traj_params)` after the archive is read. */
  function LoadParams(keys: seq<string>, p: TrajParams): Result<Trajectories.Loaded>
  {
    Trajectories.Load(keys, p.archive, p.ignoreKeys, p.trajDt, p.controlDt, p.sampler)
  }

  class BaseHumanoid {
    /** `info.action_space.low` and `.high`, overwritten in place by the constructor. */
    const actionLow: array<real>
    const actionHigh: array<real>
    const normActMean: seq<real>
    const normActDelta: seq<real>
    const goalReward: GoalRewardChoice
    const observationLow: seq<Bound>
    const observationHigh: seq<Bound>
    /** `get_all_observation_keys()` */
    const keys: seq<string>
    const trajectory: Trajectories.Trajectory?
    /** The simulator state `_data.qpos` and `_data.qvel` that `setup` writes. */
    var qpos: seq<real>
    var qvel: seq<real>

    ghost predicate Valid()
      reads this, trajectory
    {
      && actionLow != actionHigh
      && |normActMean| == |normActDelta| == actionLow.Length == actionHigh.Length
      && (trajectory != null ==> trajectory.Valid())
    }

    constructor Init(actionLow: array<real>, actionHigh: array<real>, mean: seq<real>, delta: seq<real>,
                     goalReward: GoalRewardChoice, space: (seq<Bound>, seq<Bound>), keys: seq<string>,
                     trajectory: Trajectories.Trajectory?)
      ensures this.actionLow == actionLow && this.actionHigh == actionHigh
      ensures normActMean == mean && normActDelta == delta && this.goalReward == goalReward
      ensures observationLow == space.0 && observationHigh == space.1
      ensures this.keys == keys && this.trajectory == trajectory
      ensures qpos == [] && qvel == []
    {
      this.actionLow, this.actionHigh := actionLow, actionHigh;
      normActMean, normActDelta := mean, delta;
      this.goalReward := goalReward;
      observationLow, observationHigh := space.0, space.1;
      this.keys := keys;
      this.trajectory := trajectory;
      qpos, qvel := [], [];
    }

    /**
     * `BaseHumanoid.__init__` after the simulator is built: dispatch the goal
     * reward, build the observation bounds, keep the action box as mean and
     * half-width while exposing [-1, 1] in place, and load a trajectory
     * exactly when trajectory parameters are given.
     */
    static method Create(actionLow: array<real>, actionHigh: array<real>, simLow: seq<Bound>, simHigh: seq<Bound>,
                         goalRewardName: Option<string>, hasGoalRewardParams: bool, goalObs: seq<real>,
                         trajParams: Option<TrajParams>, keys: seq<string>)
      returns (r: Result<BaseHumanoid>)
      requires actionLow != actionHigh && actionLow.Length == actionHigh.Length
      modifies actionLow, actionHigh
      ensures SelectGoalReward(goalRewardName, hasGoalRewardParams).Err? ==>
        r == Err(SelectGoalReward(goalRewardName, hasGoalRewardParams).error) &&
        actionLow[..] == old(actionLow[..]) && actionHigh[..] == old(actionHigh[..])
      ensures SelectGoalReward(goalRewardName, hasGoalRewardParams).Ok? ==>
        && (forall i :: 0 <= i < actionLow.Length ==> actionLow[i] == -1.0 && actionHigh[i] == 1.0)
        && (r.Ok? <==> (trajParams.None? || LoadParams(keys, trajParams.value).Ok?))
        && (trajParams.Some? && LoadParams(keys, trajParams.value).Err? ==>
              r == Err(LoadParams(keys, trajParams.value).error))
      ensures r.Ok? ==>
        var h := r.value;
        && fresh(h) && h.Valid()
        && h.actionLow == actionLow && h.actionHigh == actionHigh
        && h.goalReward == SelectGoalReward(goalRewardName, hasGoalRewardParams).value
        && (h.normActMean, h.normActDelta) == ActionScaling(old(actionLow[..]), old(actionHigh[..]))
        && (h.observationLow, h.observationHigh) == ObservationSpace(simLow, simHigh, goalObs)
        && h.keys == keys
        && (h.trajectory == null <==> trajParams.None?)
        && (h.trajectory != null ==>
              var l := LoadParams(keys, trajParams.value).value;
              && fresh(h.trajectory) && h.trajectory.Valid()
              && h.trajectory.keys == l.keys && h.trajectory.trajectory == l.trajectory
              && h.trajectory.splitPoints == l.splitPoints && h.trajectory.nRepeatingSteps == l.nRepeatingSteps
              && h.trajectory.subtrajStepNo == 0 && h.trajectory.xDist == 0.0
              && h.trajectory.subtraj == l.trajectory)
    {
      var choice := SelectGoalReward(goalRewardName, hasGoalRewardParams);
      if choice.Err? {
        return Err(choice.error);
      }
      var space := ObservationSpace(simLow, simHigh, goalObs);
      var (mean, delta) := ActionScaling(actionLow[..], actionHigh[..]);
      forall i | 0 <= i < actionLow.Length {
        actionLow[i] := -1.0;
      }
      forall i | 0 <= i < actionHigh.Length {
        actionHigh[i] := 1.0;
      }
      var trajectory: Trajectories.Trajectory? := null;
      if trajParams.Some? {
        var p := trajParams.value;
        var loaded := Trajectories.Trajectory.Create(keys, p.archive, p.ignoreKeys, p.trajDt, p.controlDt, p.sampler);
        if loaded.Err? {
          return Err(loaded.error);
        }
        trajectory := loaded.value;
      }
      var h := new BaseHumanoid.Init(actionLow, actionHigh, mean, delta, choice.value, space, keys, trajectory);
      r := Ok(h);
    }

    /**
     * `setup`: without a trajectory nothing changes; with one, the trajectory
     * is reset at a random step drawn from `r` and the returned position and
     * velocity become the simulator state.
     */
    method Setup(r: real) returns (res: Result<()>)
      requires Valid() && 0.0 <= r < 1.0
      modifies this, trajectory
      ensures Valid()
      ensures trajectory == null ==> res == Ok(()) && qpos == old(qpos) && qvel == old(qvel)
      ensures trajectory != null ==>
        var (lq, lv) := LenQposQvel(keys);
        && trajectory.xDist == 0.0
        && trajectory.subtrajStepNo == Trajectories.StartCursor(None, r, trajectory.TrajLength())
        && (|trajectory.trajectory| >= 2 && trajectory.TrajLength() > 0 ==>
              var k := trajectory.subtrajStepNo;
              && res == Ok(())
              && trajectory.subtraj == Trajectories.Recentred(trajectory.trajectory, trajectory.TrajLength(), k)
              && (qpos, qvel) == Trajectories.StateAt(trajectory.subtraj, k, lq, lv))
        && (|trajectory.trajectory| < 2 || trajectory.TrajLength() == 0 ==>
              res == Err(IndexError) && qpos == old(qpos) && qvel == old(qvel))
    {
      if trajectory == null {
        return Ok(());
      }
      var (lq, lv) := LenQposQvel(keys);
      var state := trajectory.ResetTrajectory(lq, lv, None, r);
      if state.Err? {
        return Err(state.error);
      }
      Trajectories.RandomStartInWindow(r, trajectory.TrajLength());
      qpos, qvel := state.value.0, state.value.1;
      res := Ok(());
    }

    /** `create_dataset`: the trajectory's dataset; ValueError when no trajectory was configured. */
    method CreateDataset(ignoreKeys: seq<string>, normalizer: Option<seq<real> -> seq<real>>)
      returns (r: Result<Trajectories.Dataset>)
      requires Valid()
      ensures trajectory == null ==> r == Err(ValueError)
      ensures trajectory != null ==>
        r == Trajectories.CreateDataset(trajectory.keys, trajectory.trajectory, trajectory.TrajLength(), ignoreKeys,
                                        normalizer)
    {
      if trajectory == null {
        return Err(ValueError);
      }
      r := Trajectories.CreateDataset(trajectory.keys, trajectory.trajectory, trajectory.TrajLength(), ignoreKeys,
                                      normalizer);
    }
  }
}
