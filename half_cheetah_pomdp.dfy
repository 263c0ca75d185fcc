/**
 * The partially observable HalfCheetah
 * (mushroom_rl/environments/gym_mujoco_pomdp/half_cheetah_v3.py): the
 * constructor's validation, the random push at every reset whose sign also
 * decides the sign of the forward-reward weight, and the observation built
 * from the shown parts.
 */
module HalfCheetahPomdp {
  import opened PySemantics
  import opened ObsHiding

  const POSITIONS: string := "positions"
  const VELOCITIES: string := "velocities"
  /** `_hidable_obs` */
  const HIDABLE: seq<string> := [POSITIONS, VELOCITIES]
  const DEFAULT_HIDE: HideRequest := Several([VELOCITIES])
  const DEFAULT_MAX_FORCE_STRENGTH: real := 5.0
  /** The number of leading position entries (x) the exclude flag drops. */
  const EXCLUDED_POSITIONS: nat := 1

  function Abs(x: real): real { if x < 0.0 then -x else x }

  class HalfCheetahEnv {
    const obsToHide: seq<string>
    const randomForceCom: bool
    const maxForceStrength: real
    const excludeCurrentPositions: bool
    /** `_force_strength`: the push applied to the torso at every step. */
    var forceStrength: real
    /** `_forward_reward_weight` of the base environment. */
    var forwardRewardWeight: real

    ghost predicate Valid()
      reads this
    {
      && HideAllowed(obsToHide, HIDABLE)
      && (!randomForceCom ==> forceStrength == 0.0)
    }

    constructor Init(obsToHide: seq<string>, randomForceCom: bool, maxForceStrength: real,
                     forwardRewardWeight: real, excludeCurrentPositions: bool)
      requires HideAllowed(obsToHide, HIDABLE)
      ensures Valid()
      ensures this.obsToHide == obsToHide && this.randomForceCom == randomForceCom
      ensures this.maxForceStrength == maxForceStrength && this.excludeCurrentPositions == excludeCurrentPositions
      ensures forceStrength == 0.0 && this.forwardRewardWeight == forwardRewardWeight
    {
      this.obsToHide := obsToHide;
      this.randomForceCom := randomForceCom;
      this.maxForceStrength := maxForceStrength;
      this.excludeCurrentPositions := excludeCurrentPositions;
      forceStrength := 0.0;
      this.forwardRewardWeight := forwardRewardWeight;
    }

    /**
     * `HalfCheetahEnvPOMPD.__init__`: AssertionError for a hide request that
     * hides both parts or names a part that cannot be hidden; otherwise an
     * environment with no push yet.
     */
    static method Create(obsToHide: HideRequest, randomForceCom: bool, maxForceStrength: real,
                         forwardRewardWeight: real, excludeCurrentPositions: bool)
      returns (r: Result<HalfCheetahEnv>)
      ensures r.Ok? <==> HideAllowed(AsNames(obsToHide), HIDABLE)
      ensures r.Err? ==> r.error == AssertionError
      ensures r.Ok? ==>
        && fresh(r.value) && r.value.Valid()
        && r.value.obsToHide == AsNames(obsToHide)
        && r.value.forceStrength == 0.0 && r.value.forwardRewardWeight == forwardRewardWeight
        && r.value.randomForceCom == randomForceCom && r.value.maxForceStrength == maxForceStrength
    {
      var names := ValidateHide(obsToHide, HIDABLE);
      if names.Err? {
        return Err(names.error);
      }
      var env := new HalfCheetahEnv.Init(names.value, randomForceCom, maxForceStrength, forwardRewardWeight,
                                         excludeCurrentPositions);
      r := Ok(env);
    }

    /**
     * `reset_model`: with random pushes, the push becomes -max or +max (as
     * the drawn choice says) and the forward-reward weight keeps its size
     * but takes the push's sign; without them nothing changes.
     */
    method ResetModel(pickPositive: bool)
      requires Valid()
      modifies this
      ensures Valid()
      ensures !randomForceCom ==> forceStrength == old(forceStrength) == 0.0
      ensures !randomForceCom ==> forwardRewardWeight == old(forwardRewardWeight)
      ensures randomForceCom ==>
        forceStrength == (if pickPositive then maxForceStrength else -maxForceStrength)
      ensures randomForceCom ==> Abs(forwardRewardWeight) == Abs(old(forwardRewardWeight))
      ensures randomForceCom && forceStrength < 0.0 ==> forwardRewardWeight <= 0.0
      ensures randomForceCom && forceStrength >= 0.0 ==> forwardRewardWeight >= 0.0
    {
      if randomForceCom {
        forceStrength := if pickPositive then maxForceStrength else -maxForceStrength;
        var sign := if forceStrength < 0.0 then -1.0 else 1.0;
        forwardRewardWeight := Abs(forwardRewardWeight) * sign;
      }
    }

    /** The position part: qpos, without its first entry under the exclude flag. */
    function PositionPart(qpos: seq<real>): seq<real>
      reads this
    {
      if excludeCurrentPositions then PySlice(qpos, EXCLUDED_POSITIONS, |qpos|) else qpos
    }

    /** `_get_obs`: positions then velocities, each only when shown. */
    function GetObs(qpos: seq<real>, qvel: seq<real>): (obs: seq<real>)
      reads this
      requires Valid()
      ensures POSITIONS !in obsToHide && VELOCITIES !in obsToHide ==> obs == PositionPart(qpos) + qvel
      ensures POSITIONS in obsToHide ==> obs == qvel
      ensures VELOCITIES in obsToHide ==> obs == PositionPart(qpos)
      ensures excludeCurrentPositions && |qpos| >= EXCLUDED_POSITIONS ==> |PositionPart(qpos)| == |qpos| - 1
    {
      (if POSITIONS !in obsToHide then PositionPart(qpos) else [])
      + (if VELOCITIES !in obsToHide then qvel else [])
    }
  }

  /** The default request hides the velocities only and is accepted. */
  lemma DefaultAccepted()
    ensures ValidateHide(DEFAULT_HIDE, HIDABLE) == Ok([VELOCITIES])
  {
    assert POSITIONS in HIDABLE && POSITIONS !in [VELOCITIES];
  }

  /** Hiding both parts, in either order or as one of several names, is refused. */
  lemma HidingBothRefused(names: seq<string>)
    requires POSITIONS in names && VELOCITIES in names
    ensures ValidateHide(Several(names), HIDABLE) == Err(AssertionError)
  {
  }
}
