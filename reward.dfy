/**
 * Goal rewards of the humanoid gait environment
 * (mushroom_rl/environments/mujoco_envs/humanoid_gaitv2/reward_goals/reward.py):
 * the interface defaults, the constant and callback rewards, the velocity
 * target reward with its plateau cycle, the velocity-profile deque, and the
 * trajectory-matching reward with its latching termination flag and joint
 * weights.
 *
 * Random draws are parameters in [0, 1); `np.random.randint(n)` is
 * `int(r * n)` for such a draw (RandInt). The exponential rewards and the reference
 * trajectory the rewards inherit from are not modelled.
 */
module RewardGoals {
  import opened PySemantics

  // ---------------------------------------------------------------------------
  // The interface and the two trivial rewards
  // ---------------------------------------------------------------------------

  /** The goal rewards whose behaviour comes from the interface's defaults. */
  datatype GoalRewardKind =
    | Interface
    | NoGoal
    | Custom(callback: Option<(seq<real>, seq<real>, seq<real>) -> real>)

  /**
   * `get_observation`: the interface's empty default, which NoGoalReward
   * inherits. CustomReward lists HumanoidTrajectory first among its bases;
   * that class is not part of this model, and the default is taken for it too.
   */
  function Observation(g: GoalRewardKind): (o: seq<real>)
    ensures |o| == 0
  {
    []
  }

  /** `get_observation_space`: unbounded in every entry, one entry per observation entry. */
  function ObservationSpaceFor(obs: seq<real>): (space: (seq<Bound>, seq<Bound>))
    ensures |space.0| == |obs| && |space.1| == |obs|
    ensures forall i :: 0 <= i < |obs| ==> space.0[i] == NegInf && space.1[i] == PosInf
  {
    (Repeat(NegInf, |obs|), Repeat(PosInf, |obs|))
  }

  /** `is_absorbing`: no interface default ever ends an episode. */
  function IsAbsorbing(g: GoalRewardKind, state: seq<real>): (b: bool)
    ensures !b
  {
    false
  }

  /**
   * `__call__`: the interface raises NotImplementedError, NoGoalReward
   * returns 0, and CustomReward returns the callback's value, or None
   * without a callback (the `0` on its else branch is never returned).
   */
  function Call(g: GoalRewardKind, state: seq<real>, action: seq<real>, nextState: seq<real>)
    : (r: Result<Option<real>>)
    ensures r.Err? <==> g.Interface?
    ensures r.Err? ==> r.error == NotImplementedError
    ensures g.NoGoal? ==> r == Ok(Some(0.0))
    ensures g.Custom? ==> (r == Ok(None) <==> g.callback.None?)
    ensures g.Custom? && g.callback.Some? ==> r == Ok(Some(g.callback.value(state, action, nextState)))
  {
    match g
    case Interface => Err(NotImplementedError)
    case NoGoal => Ok(Some(0.0))
    case Custom(None) => Ok(None)
    case Custom(Some(f)) => Ok(Some(f(state, action, nextState)))
  }

  // ---------------------------------------------------------------------------
  // ChangingVelocityTargetReward
  // ---------------------------------------------------------------------------

  /** The index of the forward (y) velocity in the state. */
  const VELOCITY_INDEX: nat := 16
  /** The tolerance scale and the offset that keeps the division defined. */
  const VELOCITY_TOLERANCE: real := 0.01
  const VELOCITY_EPSILON: real := 0.000001

  function Abs(x: real): real { if x < 0.0 then -x else x }

  /**
   * min(0.01 / (|v - g| + 1e-6), 1): the reward for moving at `v` towards
   * the target `g`. It lies in (0, 1] and is 1 exactly when `v` is within
   * 0.01 - 1e-6 of the target.
   */
  function VelocityTargetReward(v: real, g: real): (r: real)
    ensures 0.0 < r <= 1.0
    ensures r == 1.0 <==> Abs(v - g) <= VELOCITY_TOLERANCE - VELOCITY_EPSILON
  {
    var d := Abs(v - g) + VELOCITY_EPSILON;
    var q := VELOCITY_TOLERANCE / d;
    assert q >= 1.0 <==> d <= VELOCITY_TOLERANCE by {
      assert q * d == VELOCITY_TOLERANCE;
      assert 1.0 * d == d;
      if d <= VELOCITY_TOLERANCE {
        if q < 1.0 {
          MulLess(q, 1.0, d);
        }
      } else if q >= 1.0 {
        MulLeq(1.0, q, d);
      }
    }
    if q < 1.0 then q else 1.0
  }

  /** `__call__`: reads the velocity at index 16 of the state; a shorter state raises IndexError. */
  function ChangingVelocityCall(state: seq<real>, goal: real): (r: Result<real>)
    ensures r.Ok? <==> |state| > VELOCITY_INDEX
    ensures r.Err? ==> r.error == IndexError
    ensures r.Ok? ==> r.value == VelocityTargetReward(state[VELOCITY_INDEX], goal) && 0.0 < r.value <= 1.0
  {
    if |state| > VELOCITY_INDEX then Ok(VelocityTargetReward(state[VELOCITY_INDEX], goal))
    else Err(IndexError)
  }

  /** The value the `cycle(range(n))` iterator yields after `consumed` earlier values. */
  function CycleValue(consumed: nat, n: nat): (v: nat)
    requires n > 0
    ensures v < n
  {
    consumed % n
  }

  class ChangingVelocityTargetReward {
    /** `_goal_plateaus`: the target velocities. */
    const plateaus: seq<real>
    /** `_goal_ind_chunks`: for every plateau, the trajectory steps a start may pick. */
    const indChunks: seq<seq<int>>
    const iterateThroughPlateaus: bool
    const nSkipTargets: int
    const randomStart: bool

    /** How many values the plateau cycle has yielded so far. */
    var consumed: nat
    /** `_curr_goal_vel` */
    var currGoalVel: real

    /** The state after construction from the loaded goal data: target 0 and a fresh cycle. */
    constructor (plateaus: seq<real>, indChunks: seq<seq<int>>, iterateThroughPlateaus: bool, nSkipTargets: int,
                 randomStart: bool)
      ensures this.plateaus == plateaus && this.indChunks == indChunks
      ensures this.iterateThroughPlateaus == iterateThroughPlateaus && this.nSkipTargets == nSkipTargets
      ensures this.randomStart == randomStart
      ensures consumed == 0 && currGoalVel == 0.0
    {
      this.plateaus := plateaus;
      this.indChunks := indChunks;
      this.iterateThroughPlateaus := iterateThroughPlateaus;
      this.nSkipTargets := nSkipTargets;
      this.randomStart := randomStart;
      consumed := 0;
      currGoalVel := 0.0;
    }

    /** `get_observation`: the current target velocity. */
    function GetObservation(): (o: seq<real>)
      reads this
      ensures o == [currGoalVel]
    {
      [currGoalVel]
    }

    /**
     * `reset_state`: picks a plateau, randomly or as the next `n_skip_targets`
     * values of the cycle, makes its velocity the target and, with random
     * starts, returns the trajectory step the reference trajectory is reset
     * to. The errors are those of the source: randint(0) and an empty chunk
     * raise ValueError, an exhausted empty cycle StopIteration, a
     * non-positive skip count leaves the plateau index unbound, and a plateau
     * without a chunk raises IndexError.
     */
    method ResetState(plateauDraw: real, chunkDraw: real) returns (res: Result<Option<int>>)
      requires 0.0 <= plateauDraw < 1.0 && 0.0 <= chunkDraw < 1.0
      modifies this
      ensures !iterateThroughPlateaus ==> consumed == old(consumed)
      ensures !iterateThroughPlateaus && |plateaus| == 0 ==> res == Err(ValueError)
      ensures iterateThroughPlateaus && nSkipTargets <= 0 ==>
        res == Err(UnboundLocalError) && consumed == old(consumed)
      ensures iterateThroughPlateaus && nSkipTargets > 0 && |plateaus| == 0 ==> res == Err(StopIteration)
      ensures iterateThroughPlateaus && nSkipTargets > 0 && |plateaus| > 0 ==>
        consumed == old(consumed) + nSkipTargets
      ensures res.Ok? ==>
        var ind := if iterateThroughPlateaus then CycleValue(consumed - 1, |plateaus|)
                   else RandInt(plateauDraw, |plateaus|);
        && 0 <= ind < |plateaus|
        && currGoalVel == plateaus[ind]
        && (randomStart <==> res.value.Some?)
        && (randomStart ==> ind < |indChunks| && res.value.value in indChunks[ind])
      ensures res.Err? ==> currGoalVel == old(currGoalVel)
      ensures !randomStart && |plateaus| > 0 && (!iterateThroughPlateaus || nSkipTargets > 0) ==> res == Ok(None)
      ensures randomStart && |plateaus| > 0 && (!iterateThroughPlateaus || nSkipTargets > 0) ==>
        var ind := if iterateThroughPlateaus then CycleValue(consumed - 1, |plateaus|)
                   else RandInt(plateauDraw, |plateaus|);
        && (ind >= |indChunks| ==> res == Err(IndexError))
        && (ind < |indChunks| && |indChunks[ind]| == 0 ==> res == Err(ValueError))
        && (ind < |indChunks| && |indChunks[ind]| > 0 ==>
              res == Ok(Some(indChunks[ind][RandInt(chunkDraw, |indChunks[ind]|)])))
    {
      var n := |plateaus|;
      var ind: int;
      if !iterateThroughPlateaus {
        if n == 0 {
          return Err(ValueError);
        }
        ind := RandInt(plateauDraw, n);
      } else {
        if nSkipTargets <= 0 {
          return Err(UnboundLocalError);
        }
        if n == 0 {
          return Err(StopIteration);
        }
        ind := CycleValue(consumed, n);
        consumed := consumed + 1;
        for i := 1 to nSkipTargets
          invariant consumed == old(consumed) + i
          invariant ind == CycleValue(consumed - 1, n)
          invariant currGoalVel == old(currGoalVel)
        {
          ind := CycleValue(consumed, n);
          consumed := consumed + 1;
        }
      }
      if randomStart {
        if ind >= |indChunks| {
          return Err(IndexError);
        }
        var chunk := indChunks[ind];
        if |chunk| == 0 {
          return Err(ValueError);
        }
        var k := RandInt(chunkDraw, |chunk|);
        currGoalVel := plateaus[ind];
        res := Ok(Some(chunk[k]));
      } else {
        currGoalVel := plateaus[ind];
        res := Ok(None);
      }
    }
  }

  /**
   * `m` successive `reset_state` calls on a reward that iterates through its
   * plateaus without random starts, from a fresh cycle: each advances the
   * cycle `n_skip_targets` times, so the target ends up being plateau number
   * (m * n_skip_targets - 1) mod N.
   */
  method ResetRepeatedly(t: ChangingVelocityTargetReward, m: nat) returns (res: Result<Option<int>>)
    requires t.iterateThroughPlateaus && !t.randomStart && t.nSkipTargets > 0 && |t.plateaus| > 0
    requires t.consumed == 0 && m > 0
    modifies t
    ensures res == Ok(None)
    ensures t.consumed == m * t.nSkipTargets
    ensures t.currGoalVel == t.plateaus[(m * t.nSkipTargets - 1) % |t.plateaus|]
  {
    res := t.ResetState(0.0, 0.0);
    var j := 1;
    while j < m
      invariant 1 <= j <= m
      invariant res == Ok(None)
      invariant t.consumed == j * t.nSkipTargets
      invariant t.currGoalVel == t.plateaus[(j * t.nSkipTargets - 1) % |t.plateaus|]
    {
      res := t.ResetState(0.0, 0.0);
      assert (j + 1) * t.nSkipTargets == j * t.nSkipTargets + t.nSkipTargets;
      j := j + 1;
    }
  }

  // ---------------------------------------------------------------------------
  // VelocityProfileReward
  // ---------------------------------------------------------------------------

  /** `deque.rotate(1)`: the last element moves to the front; an empty deque stays empty. */
  function RotateRight<T>(s: seq<T>): (r: seq<T>)
    ensures |r| == |s|
    ensures |s| > 0 ==> r[0] == s[|s| - 1] && forall i :: 1 <= i < |s| ==> r[i] == s[i - 1]
    ensures multiset(r) == multiset(s)
  {
    if |s| == 0 then s
    else
      assert s == s[..|s| - 1] + [s[|s| - 1]];
      [s[|s| - 1]] + s[..|s| - 1]
  }

  /** `k` right rotations. */
  function RotateRightTimes<T>(s: seq<T>, k: nat): (r: seq<T>)
    ensures |r| == |s|
  {
    if k == 0 then s else RotateRight(RotateRightTimes(s, k - 1))
  }

  /**
   * After `k` right rotations, k <= N, the last k elements have moved in
   * front of the others: element i is s[N - k + i] for i < k and s[i - k] after.
   */
  lemma {:induction false} RotateRightTimesAt<T>(s: seq<T>, k: nat)
    requires k <= |s|
    ensures forall i :: 0 <= i < k ==> RotateRightTimes(s, k)[i] == s[|s| - k + i]
    ensures forall i :: k <= i < |s| ==> RotateRightTimes(s, k)[i] == s[i - k]
  {
    if k > 0 {
      RotateRightTimesAt(s, k - 1);
      var n := |s|;
      var prev := RotateRightTimes(s, k - 1);
      var r := RotateRight(prev);
      assert r == RotateRightTimes(s, k);
      assert r[0] == s[n - k] by {
        assert r[0] == prev[n - 1];
      }
      forall i | 1 <= i < k
        ensures r[i] == s[n - k + i]
      {
        assert r[i] == prev[i - 1];
      }
      forall i | k <= i < n
        ensures r[i] == s[i - k]
      {
        assert r[i] == prev[i - 1];
      }
    }
  }

  /** A profile of length N is back where it started after N updates. */
  lemma RotateRightFullCycle<T>(s: seq<T>)
    ensures RotateRightTimes(s, |s|) == s
  {
    RotateRightTimesAt(s, |s|);
  }

  class VelocityProfileReward {
    /** The deque `velocity_profile` of target velocity vectors. */
    var profile: seq<seq<real>>

    /** Built from the values of the profile instance. */
    constructor (values: seq<seq<real>>)
      ensures profile == values
    {
      profile := values;
    }

    /** `update_state`: one right rotation of the deque. */
    method UpdateState()
      modifies this
      ensures profile == RotateRight(old(profile))
    {
      if |profile| > 0 {
        profile := [profile[|profile| - 1]] + profile[..|profile| - 1];
      }
    }

    /** `get_observation`: the front of the deque; IndexError when it is empty. */
    function GetObservation(): (r: Result<seq<real>>)
      reads this
      ensures r.Ok? <==> |profile| > 0
      ensures r.Err? ==> r.error == IndexError
      ensures r.Ok? ==> r.value == profile[0]
    {
      if |profile| > 0 then Ok(profile[0]) else Err(IndexError)
    }

    /** `reset_state`: the deque is rebuilt from a freshly reset profile (its values are a parameter). */
    method ResetState(values: seq<seq<real>>)
      modifies this
      ensures profile == values
    {
      profile := values;
    }
  }

  // ---------------------------------------------------------------------------
  // CompleteTrajectoryReward
  // ---------------------------------------------------------------------------

  const ERROR_THRESHOLD: real := 0.20
  /** The lower clip of `traj_data_range`. */
  const MIN_DATA_RANGE: real := 0.15
  /** The number of channels the weight slices reach. */
  const MIN_CHANNELS: nat := 34

  /** `np.clip(spread, 0.15, inf)`: every entry raised to at least 0.15. */
  function ClipRange(spread: seq<real>): (r: seq<real>)
    ensures |r| == |spread|
    ensures forall i :: 0 <= i < |r| ==> r[i] >= MIN_DATA_RANGE
    ensures forall i :: 0 <= i < |r| ==> (r[i] == spread[i] <==> spread[i] >= MIN_DATA_RANGE)
  {
    seq(|spread|, i requires 0 <= i < |spread| => if spread[i] < MIN_DATA_RANGE then MIN_DATA_RANGE else spread[i])
  }

  /** `np.where(range < 0.15, 2 * range, 1.0)` */
  function InitialImportance(range: seq<real>): (w: seq<real>)
    ensures |w| == |range|
    ensures forall i :: 0 <= i < |w| && range[i] < MIN_DATA_RANGE ==> w[i] == 2.0 * range[i]
    ensures forall i :: 0 <= i < |w| && range[i] >= MIN_DATA_RANGE ==> w[i] == 1.0
  {
    seq(|range|, i requires 0 <= i < |range| => if range[i] < MIN_DATA_RANGE then 2.0 * range[i] else 1.0)
  }

  /** On a clipped range the `< 0.15` branch never fires: every initial weight is 1. */
  lemma ClippedImportanceIsOne(spread: seq<real>)
    ensures InitialImportance(ClipRange(spread)) == Repeat(1.0, |spread|)
  {
  }

  /** `w[a:b] *= f`, with numpy's clamping of the slice bounds. */
  function ScaleSlice(w: seq<real>, a: nat, b: nat, f: real): (r: seq<real>)
    ensures |r| == |w|
    ensures forall i :: 0 <= i < |w| ==> r[i] == if a <= i < b then w[i] * f else w[i]
  {
    seq(|w|, i requires 0 <= i < |w| => if a <= i < b then w[i] * f else w[i])
  }

  /**
   * `joint_importance`: the initial weights scaled on the slices [2:14]
   * (by 1.0), [17:28] (by 0.1) and [28:34] (by 5.0), then those three slices
   * concatenated.
   */
  function JointImportance(range: seq<real>): (w: seq<real>)
    ensures |range| >= MIN_CHANNELS ==> |w| == 29
  {
    var w0 := InitialImportance(range);
    var w1 := ScaleSlice(ScaleSlice(ScaleSlice(w0, 2, 14, 1.0), 17, 28, 0.1), 28, 34, 5.0);
    PySlice(w1, 2, 14) + PySlice(w1, 17, 28) + PySlice(w1, 28, 34)
  }

  /** The weights for a range of at least 34 channels: 12 of 1.0, 11 of 0.1 and 6 of 5.0. */
  function FinalWeights(): seq<real>
  {
    Repeat(1.0, 12) + Repeat(0.1, 11) + Repeat(5.0, 6)
  }

  /** `traj_data_range` after the constructor: the range of channels [2:14] and [17:34]. */
  function ReducedRange(range: seq<real>): (r: seq<real>)
    ensures |range| >= MIN_CHANNELS ==> |r| == 29 && r == range[2..14] + range[17..34]
  {
    PySlice(range, 2, 14) + PySlice(range, 17, 34)
  }

  /** With at least 34 channels the constructed weights are exactly the fixed pattern. */
  lemma JointImportanceOnClippedRange(spread: seq<real>)
    requires |spread| >= MIN_CHANNELS
    ensures JointImportance(ClipRange(spread)) == FinalWeights()
  {
    var range := ClipRange(spread);
    ClippedImportanceIsOne(spread);
    var w := JointImportance(range);
    var f := FinalWeights();
    assert |w| == |f| == 29;
    forall i | 0 <= i < 29
      ensures w[i] == f[i]
    {
      if i < 12 {
        assert w[i] == 1.0 * 1.0;
      } else if i < 23 {
        assert w[i] == 1.0 * 0.1;
      } else {
        assert w[i] == 1.0 * 5.0;
      }
    }
  }

  function Sum(w: seq<real>): real
  {
    if |w| == 0 then 0.0 else Sum(w[..|w| - 1]) + w[|w| - 1]
  }

  /** `np.sum(c * w)` for vectors of one length. */
  function Dot(c: seq<real>, w: seq<real>): real
    requires |c| == |w|
  {
    if |c| == 0 then 0.0 else Dot(c[..|c| - 1], w[..|w| - 1]) + c[|c| - 1] * w[|w| - 1]
  }

  /** The weighted mean of the per-component rewards. */
  function NormalizedReward(c: seq<real>, w: seq<real>): real
    requires |c| == |w| && Sum(w) != 0.0
  {
    Dot(c, w) / Sum(w)
  }

  /** `1 + (r - 1) / 0.20`: the error-terminating rescaling. */
  function ErrorRescale(n: real): (r: real)
    ensures n == 1.0 ==> r == 1.0
    ensures n == 1.0 - ERROR_THRESHOLD ==> r == 0.0
    ensures r < 0.0 <==> n < 1.0 - ERROR_THRESHOLD
    ensures r <= 1.0 <==> n <= 1.0
  {
    1.0 + (n - 1.0) / ERROR_THRESHOLD
  }

  /** Components in [0, 1] with non-negative weights: the weighted sum lies in [0, sum of weights]. */
  lemma {:induction false} DotBounds(c: seq<real>, w: seq<real>)
    requires |c| == |w|
    requires forall i :: 0 <= i < |c| ==> 0.0 <= c[i] <= 1.0
    requires forall i :: 0 <= i < |w| ==> 0.0 <= w[i]
    ensures 0.0 <= Dot(c, w) <= Sum(w)
  {
    if |c| > 0 {
      var n := |c| - 1;
      var c', w' := c[..n], w[..n];
      DotBounds(c', w');
      var x, y := c[n], w[n];
      TermBounds(x, y);
      assert Dot(c, w) == Dot(c', w') + x * y;
      assert Sum(w) == Sum(w') + y;
    }
  }

  /** One weighted component in [0, 1] lies between 0 and its weight. */
  lemma TermBounds(x: real, y: real)
    requires 0.0 <= x <= 1.0 && 0.0 <= y
    ensures 0.0 <= x * y <= y
  {
    if y > 0.0 {
      MulLeq(0.0, x, y);
      MulLeq(x, 1.0, y);
      assert 1.0 * y == y && 0.0 * y == 0.0;
    } else {
      assert x * 0.0 == 0.0;
    }
  }

  /** A quotient of a value in [0, t] by a positive t lies in [0, 1]. */
  lemma QuotientInUnit(d: real, t: real)
    requires t > 0.0 && 0.0 <= d <= t
    ensures 0.0 <= d / t <= 1.0
  {
    var q := d / t;
    assert q * t == d;
    assert 1.0 * t == t && 0.0 * t == 0.0;
    CancelLeq(q, 1.0, t);
    CancelLeq(0.0, q, t);
  }

  /** The normalised reward of components in [0, 1] under positive total weight lies in [0, 1]. */
  lemma NormalizedRewardBounds(c: seq<real>, w: seq<real>)
    requires |c| == |w|
    requires forall i :: 0 <= i < |c| ==> 0.0 <= c[i] <= 1.0
    requires forall i :: 0 <= i < |w| ==> 0.0 <= w[i]
    requires Sum(w) > 0.0
    ensures 0.0 <= NormalizedReward(c, w) <= 1.0
  {
    DotBounds(c, w);
    QuotientInUnit(Dot(c, w), Sum(w));
  }

  /** All fixed weights are positive, so their sum is too. */
  lemma FinalWeightsPositive()
    ensures forall i :: 0 <= i < |FinalWeights()| ==> 0.0 < FinalWeights()[i]
    ensures Sum(FinalWeights()) > 0.0
  {
    SumPositive(FinalWeights());
  }

  lemma {:induction false} SumPositive(w: seq<real>)
    requires |w| > 0 && forall i :: 0 <= i < |w| ==> 0.0 < w[i]
    ensures Sum(w) > 0.0
  {
    if |w| > 1 {
      SumPositive(w[..|w| - 1]);
    }
  }

  class CompleteTrajectoryReward {
    const errorTerminate: bool
    /** The weights of the 29 compared components. */
    const jointImportance: seq<real>
    /** The clipped spread of the 29 compared components. */
    const trajDataRange: seq<real>
    /** `terminate_trajectory_flag` */
    var terminateFlag: bool

    ghost predicate Valid()
      reads this
    {
      jointImportance == FinalWeights() && |trajDataRange| == 29 &&
      forall i :: 0 <= i < |trajDataRange| ==> trajDataRange[i] >= MIN_DATA_RANGE
    }

    /**
     * The constructor, given `2 * std` of every channel of the Euler-angle
     * trajectory (the statistics themselves are not modelled).
     */
    constructor (useErrorTerminate: bool, spread: seq<real>)
      requires |spread| >= MIN_CHANNELS
      ensures Valid()
      ensures errorTerminate == useErrorTerminate && !terminateFlag
      ensures jointImportance == JointImportance(ClipRange(spread))
      ensures trajDataRange == ReducedRange(ClipRange(spread))
    {
      errorTerminate := useErrorTerminate;
      var range := ClipRange(spread);
      JointImportanceOnClippedRange(spread);
      jointImportance := JointImportance(range);
      trajDataRange := ReducedRange(range);
      terminateFlag := false;
    }

    /**
     * `__call__`, given the per-component rewards: their weighted mean,
     * rescaled when error termination is on. The flag latches once the mean
     * drops below 1 - 0.20 under error termination; nothing here clears it.
     */
    method Call(compReward: seq<real>) returns (r: real)
      requires Valid() && |compReward| == |jointImportance|
      modifies this`terminateFlag
      ensures Sum(jointImportance) > 0.0
      ensures var n := NormalizedReward(compReward, jointImportance);
        && terminateFlag == (old(terminateFlag) || (errorTerminate && n < 1.0 - ERROR_THRESHOLD))
        && r == (if errorTerminate then ErrorRescale(n) else n)
      ensures old(terminateFlag) ==> terminateFlag
      ensures errorTerminate ==> (r < 0.0 <==> NormalizedReward(compReward, jointImportance) < 1.0 - ERROR_THRESHOLD)
    {
      FinalWeightsPositive();
      var n := Dot(compReward, jointImportance) / Sum(jointImportance);
      if errorTerminate && n < 1.0 - ERROR_THRESHOLD {
        terminateFlag := true;
      }
      r := if errorTerminate then 1.0 + (n - 1.0) / ERROR_THRESHOLD else n;
    }

    /** `is_absorbing`: the flag. */
    function IsAbsorbing(state: seq<real>): (b: bool)
      reads this
      ensures b == terminateFlag
    {
      terminateFlag
    }

    /** `reset_state`: clears the flag (the trajectory reset it also does is not modelled). */
    method ResetState()
      modifies this`terminateFlag
      ensures !terminateFlag
    {
      terminateFlag := false;
    }
  }
}
