/**
 * The partially observable Ant (mushroom_rl/environments/gym_mujoco_pomdp/ant_v3.py):
 * the constructor's validation of the parts to hide and the observation
 * built from the parts that are shown, in the fixed order positions,
 * velocities, contact forces.
 */
module AntPomdp {
  import opened PySemantics
  import opened ObsHiding

  const POSITIONS: string := "positions"
  const VELOCITIES: string := "velocities"
  const CONTACT_FORCES: string := "contact_forces"
  /** `_hidable_obs` */
  const HIDABLE: seq<string> := [POSITIONS, VELOCITIES, CONTACT_FORCES]
  /** The default `obs_to_hide`. */
  const DEFAULT_HIDE: HideRequest := Several([VELOCITIES])
  /** The number of leading position entries (x, y) the exclude flag drops. */
  const EXCLUDED_POSITIONS: nat := 2

  /** The wrapper's configuration: what it hides and the base environment's exclude flag. */
  datatype AntEnv = AntEnv(obsToHide: seq<string>, excludeCurrentPositions: bool)

  predicate ValidAnt(env: AntEnv)
  {
    HideAllowed(env.obsToHide, HIDABLE)
  }

  /** `AntEnvPOMPD.__init__`: the validated configuration, or AssertionError. */
  function Create(obsToHide: HideRequest, excludeCurrentPositions: bool): (r: Result<AntEnv>)
    ensures r.Ok? <==> HideAllowed(AsNames(obsToHide), HIDABLE)
    ensures r.Err? ==> r.error == AssertionError
    ensures r.Ok? ==> ValidAnt(r.value) && r.value.obsToHide == AsNames(obsToHide)
    ensures (forall x :: x in HIDABLE ==> x in AsNames(obsToHide)) ==> r.Err?
  {
    match ValidateHide(obsToHide, HIDABLE)
    case Err(e) => Err(e)
    case Ok(names) => Ok(AntEnv(names, excludeCurrentPositions))
  }

  /** The default configuration hides only the velocities and is accepted. */
  lemma DefaultAccepted(exclude: bool)
    ensures Create(DEFAULT_HIDE, exclude) == Ok(AntEnv([VELOCITIES], exclude))
  {
    assert POSITIONS in HIDABLE && POSITIONS !in [VELOCITIES];
  }

  /** The position part: qpos, without its first two entries under the exclude flag. */
  function PositionPart(env: AntEnv, qpos: seq<real>): seq<real>
  {
    if env.excludeCurrentPositions then PySlice(qpos, EXCLUDED_POSITIONS, |qpos|) else qpos
  }

  /** `_get_obs`: the concatenation of the shown parts, in the fixed order. */
  function GetObs(env: AntEnv, qpos: seq<real>, qvel: seq<real>, contactForces: seq<real>): (obs: seq<real>)
    requires ValidAnt(env)
  {
    (if POSITIONS !in env.obsToHide then PositionPart(env, qpos) else [])
    + (if VELOCITIES !in env.obsToHide then qvel else [])
    + (if CONTACT_FORCES !in env.obsToHide then contactForces else [])
  }

  /** The length of the part `name` in the observation: its full length when shown, 0 when hidden. */
  function PartLength(env: AntEnv, name: string, len: nat): nat
  {
    if name in env.obsToHide then 0 else len
  }

  /**
   * The observation splits back into its parts: the shown positions first,
   * then the shown velocities, then the shown contact forces, and nothing
   * else; its length is the sum of the shown parts' lengths.
   */
  lemma GetObsParts(env: AntEnv, qpos: seq<real>, qvel: seq<real>, contactForces: seq<real>)
    requires ValidAnt(env)
    ensures var obs := GetObs(env, qpos, qvel, contactForces);
      var p := PartLength(env, POSITIONS, |PositionPart(env, qpos)|);
      var v := PartLength(env, VELOCITIES, |qvel|);
      var c := PartLength(env, CONTACT_FORCES, |contactForces|);
      && |obs| == p + v + c
      && (POSITIONS !in env.obsToHide ==> obs[..p] == PositionPart(env, qpos))
      && (VELOCITIES !in env.obsToHide ==> obs[p..p + v] == qvel)
      && (CONTACT_FORCES !in env.obsToHide ==> obs[p + v..] == contactForces)
      && (env.excludeCurrentPositions && |qpos| >= EXCLUDED_POSITIONS ==> |PositionPart(env, qpos)| == |qpos| - 2)
  {
    var obs := GetObs(env, qpos, qvel, contactForces);
    var p := PartLength(env, POSITIONS, |PositionPart(env, qpos)|);
    var v := PartLength(env, VELOCITIES, |qvel|);
    var ps := if POSITIONS !in env.obsToHide then PositionPart(env, qpos) else [];
    var vs := if VELOCITIES !in env.obsToHide then qvel else [];
    var cs := if CONTACT_FORCES !in env.obsToHide then contactForces else [];
    assert obs == ps + vs + cs;
    assert obs[..p] == ps;
    assert obs[p..p + v] == vs;
    assert obs[p + v..] == cs;
  }

  /** A valid configuration never shows nothing: some part is always in the observation. */
  lemma SomePartShown(env: AntEnv)
    requires ValidAnt(env)
    ensures POSITIONS !in env.obsToHide || VELOCITIES !in env.obsToHide || CONTACT_FORCES !in env.obsToHide
  {
  }
}
