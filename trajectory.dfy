/**
 * The reference-trajectory store of the humanoid environments
 * (mushroom_rl/environments/mujoco_envs/humanoids/trajectory.py).
 *
 * A trajectory is a channel-major matrix: one row per observation key, one
 * column per time step. Construction selects the rows from an archive of
 * named arrays, fixes the split points that delimit the repeating gait
 * cycles and resamples the matrix to the control rate. Playback keeps a
 * cursor into a working copy whose first two rows (the horizontal position
 * axes) are re-centred at every reset.
 *
 * The values produced by cubic interpolation are not modelled: they come
 * from an abstract `sampler`; only the shape of the resampled matrix and the
 * rounding of the split points are.
 */
module Trajectories {
  import opened PySemantics

  /** The archive key whose presence appends "goal" to the requested keys. */
  const GOAL_KEY: string := "goal"
  /** The archive key whose presence makes construction read the undefined FOOT_KEYS. */
  const FOOT_PROBE_KEY: string := "rel_feet_xpos_r"
  /** `traj_speed_multiplier`, fixed at 1.0 by the constructor. */
  const TRAJ_SPEED_MULTIPLIER: real := 1.0
  /** A random reset starts in the first 45% of the trajectory. */
  const RESET_WINDOW: real := 0.45
  /** Cubic interpolation needs at least this many samples. */
  const MIN_CUBIC_SAMPLES: nat := 4

  /** Every row (channel) of the channel-major matrix `m` holds `cols` samples. */
  predicate IsMatrix(m: seq<seq<real>>, cols: nat)
  {
    forall i :: 0 <= i < |m| ==> |m[i]| == cols
  }

  /**
   * The content of the `.npz` file: the named channel arrays and the
   * optional `split_points` array. Channels may differ in length; only the
   * ones that are read must agree.
   */
  datatype Archive = Archive(channels: map<string, seq<real>>, splitPoints: Option<seq<int>>)

  // ---------------------------------------------------------------------------
  // Construction bookkeeping
  // ---------------------------------------------------------------------------

  /** The position of the first occurrence of `k` in `keys`. */
  function FirstIndex(keys: seq<string>, k: string): (i: nat)
    requires k in keys
    ensures i < |keys| && keys[i] == k
    ensures forall j :: 0 <= j < i ==> keys[j] != k
  {
    if keys[0] == k then 0 else 1 + FirstIndex(keys[1..], k)
  }

  /** `keys.remove(k)`: drops one occurrence of `k`; ValueError when there is none. */
  function RemoveFirst(keys: seq<string>, k: string): (r: Result<seq<string>>)
    ensures r.Ok? <==> k in keys
    ensures r.Ok? ==> multiset(r.value) == multiset(keys) - multiset{k}
    ensures r.Err? ==> r.error == ValueError
  {
    if |keys| == 0 then Err(ValueError)
    else
      assert keys == [keys[0]] + keys[1..];
      if keys[0] == k then Ok(keys[1..])
      else match RemoveFirst(keys[1..], k)
        case Ok(rest) => Ok([keys[0]] + rest)
        case Err(e) => Err(e)
  }

  /** The occurrence `keys.remove(k)` drops is the first one; the rest keep their order. */
  lemma {:induction false} RemoveFirstDropsFirst(keys: seq<string>, k: string)
    requires k in keys
    ensures RemoveFirst(keys, k) == Ok(keys[..FirstIndex(keys, k)] + keys[FirstIndex(keys, k) + 1..])
  {
    if keys[0] == k {
      assert keys[..0] + keys[1..] == keys[1..];
    } else {
      var tail := keys[1..];
      assert k in tail;
      RemoveFirstDropsFirst(tail, k);
      RemoveFirstPastHead(keys, k);
      DropAfterHead(keys, FirstIndex(tail, k));
    }
  }

  /** When the head is not `k`, it is kept and the search goes on in the tail. */
  lemma RemoveFirstPastHead(keys: seq<string>, k: string)
    requires k in keys && keys[0] != k
    ensures FirstIndex(keys, k) == 1 + FirstIndex(keys[1..], k)
    ensures RemoveFirst(keys, k) == Ok([keys[0]] + RemoveFirst(keys[1..], k).value)
  {
    assert k in keys[1..];
  }

  /** Dropping element j + 1 of a sequence is dropping element j of its tail, behind the head. */
  lemma DropAfterHead<T>(s: seq<T>, j: nat)
    requires j + 1 < |s|
    ensures [s[0]] + (s[1..][..j] + s[1..][j + 1..]) == s[..j + 1] + s[j + 2..]
  {
    assert s[..j + 1] == [s[0]] + s[1..][..j];
    assert s[j + 2..] == s[1..][j + 1..];
  }

  /**
   * The loop `for ik in ignore_keys: keys.remove(ik)`. It succeeds exactly
   * when every ignored key is available, counting repetitions, and then
   * removes exactly those occurrences.
   */
  function RemoveEach(keys: seq<string>, ignore: seq<string>): (r: Result<seq<string>>)
    ensures r.Ok? <==> multiset(ignore) <= multiset(keys)
    ensures r.Ok? ==> multiset(r.value) + multiset(ignore) == multiset(keys)
    ensures r.Err? ==> r.error == ValueError
    decreases |ignore|
  {
    if |ignore| == 0 then Ok(keys)
    else
      assert ignore == [ignore[0]] + ignore[1..];
      match RemoveFirst(keys, ignore[0])
      case Err(e) => Err(e)
      case Ok(kept) => RemoveEach(kept, ignore[1..])
  }

  /** Every channel named in `keys` holds as many samples as the first one. */
  predicate ChannelsAgree(keys: seq<string>, channels: map<string, seq<real>>)
    requires forall k :: k in keys ==> k in channels
  {
    forall i :: 0 <= i < |keys| ==> |channels[keys[i]]| == |channels[keys[0]]|
  }

  /**
   * `np.array([files[key] for key in keys])`: KeyError when a key is not in
   * the archive, ValueError when the channels read differ in length (numpy
   * refuses to build a ragged matrix).
   */
  function Rows(keys: seq<string>, channels: map<string, seq<real>>): (r: Result<seq<seq<real>>>)
    ensures r.Ok? <==> (forall k :: k in keys ==> k in channels) && ChannelsAgree(keys, channels)
    ensures !(forall k :: k in keys ==> k in channels) ==> r == Err(KeyError)
    ensures (forall k :: k in keys ==> k in channels) && !ChannelsAgree(keys, channels) ==> r == Err(ValueError)
    ensures r.Ok? ==> |r.value| == |keys| && forall i :: 0 <= i < |keys| ==> r.value[i] == channels[keys[i]]
    ensures r.Ok? && |keys| > 0 ==> IsMatrix(r.value, |r.value[0]|)
  {
    if !(forall k :: k in keys ==> k in channels) then Err(KeyError)
    else if !ChannelsAgree(keys, channels) then Err(ValueError)
    else Ok(seq(|keys|, i requires 0 <= i < |keys| => channels[keys[i]]))
  }

  /** The split points before resampling: the archive's, or [0, T] for a T-sample trajectory when it has none. */
  function ArchiveSplitPoints(a: Archive, length: nat): (sp: seq<int>)
    ensures a.splitPoints.None? ==> sp == [0, length]
    ensures a.splitPoints.Some? ==> sp == a.splitPoints.value
  {
    match a.splitPoints
    case Some(sp) => sp
    case None => [0, length]
  }

  /** `new_traj_sampling_factor` = (1 / traj_speed_multiplier) * (traj_dt / control_dt). */
  function ResampleFactor(trajDt: real, controlDt: real): real
    requires controlDt != 0.0
  {
    (1.0 / TRAJ_SPEED_MULTIPLIER) * (trajDt / controlDt)
  }

  /** `round(p * factor)`: a count or index scaled by the resampling factor, rounded half to even. */
  function Rescale(p: int, factor: real): int
  {
    RoundHalfEven(p as real * factor)
  }

  /** `np.round(split_points * factor)`: every split point rescaled. */
  function RescaleSplitPoints(sp: seq<int>, factor: real): (r: seq<int>)
    ensures |r| == |sp|
    ensures forall i :: 0 <= i < |sp| ==> r[i] == Rescale(sp[i], factor)
  {
    seq(|sp|, i requires 0 <= i < |sp| => Rescale(sp[i], factor))
  }

  /**
   * `_interpolate_trajectory`: `round(T * factor)` samples per channel; a
   * negative count is refused by `np.linspace` and fewer than four input
   * samples by the cubic interpolator. The values come from `sampler`.
   */
  function Interpolate(rows: seq<seq<real>>, length: nat, factor: real, sampler: (nat, nat) -> real)
    : (r: Result<seq<seq<real>>>)
    ensures r.Ok? <==> Rescale(length, factor) >= 0 && length >= MIN_CUBIC_SAMPLES
    ensures r.Err? ==> r.error == ValueError
    ensures r.Ok? ==> |r.value| == |rows| && IsMatrix(r.value, Rescale(length, factor))
  {
    var n := Rescale(length, factor);
    if n < 0 then Err(ValueError)
    else if length < MIN_CUBIC_SAMPLES then Err(ValueError)
    else Ok(seq(|rows|, i requires 0 <= i < |rows| => seq(n, j requires 0 <= j < n => sampler(i, j))))
  }

  /** The state `Trajectory.__init__` leaves behind, before the playback fields. */
  datatype Loaded = Loaded(
    keys: seq<string>,
    trajectory: seq<seq<real>>,
    splitPoints: seq<int>,
    nRepeatingSteps: int,
    trajDt: real,
    controlDt: real)

  /** The keys after the optional "goal" key is appended (this list is the caller's own, mutated in place). */
  function KeysWithGoal(keys: seq<string>, a: Archive): seq<string>
  {
    if GOAL_KEY in a.channels then keys + [GOAL_KEY] else keys
  }

  /**
   * The first half of `Trajectory.__init__`: append "goal" when the archive
   * has it, fail on the undefined FOOT_KEYS when the archive has feet
   * positions, remove the ignored keys and read one row per remaining key.
   */
  function SelectRows(keys: seq<string>, a: Archive, ignoreKeys: seq<string>)
    : (r: Result<(seq<string>, seq<seq<real>>)>)
    ensures FOOT_PROBE_KEY in a.channels ==> r == Err(NameError)
    ensures FOOT_PROBE_KEY !in a.channels && !(multiset(ignoreKeys) <= multiset(KeysWithGoal(keys, a))) ==>
      r == Err(ValueError)
    ensures FOOT_PROBE_KEY !in a.channels && multiset(ignoreKeys) <= multiset(KeysWithGoal(keys, a)) ==>
      var kept := RemoveEach(KeysWithGoal(keys, a), ignoreKeys).value;
      && (r.Ok? <==> (forall k :: k in kept ==> k in a.channels) && ChannelsAgree(kept, a.channels))
      && (!(forall k :: k in kept ==> k in a.channels) ==> r == Err(KeyError))
      && ((forall k :: k in kept ==> k in a.channels) && !ChannelsAgree(kept, a.channels) ==> r == Err(ValueError))
    ensures r.Ok? ==>
      var (kept, rows) := r.value;
      && multiset(kept) + multiset(ignoreKeys) == multiset(KeysWithGoal(keys, a))
      && |rows| == |kept|
      && (|rows| > 0 ==> IsMatrix(rows, |rows[0]|))
      && forall i :: 0 <= i < |kept| ==> kept[i] in a.channels && rows[i] == a.channels[kept[i]]
  {
    if FOOT_PROBE_KEY in a.channels then Err(NameError)
    else match RemoveEach(KeysWithGoal(keys, a), ignoreKeys)
      case Err(e) => Err(e)
      case Ok(kept) =>
        match Rows(kept, a.channels)
        case Err(e) => Err(e)
        case Ok(rows) => Ok((kept, rows))
  }

  /**
   * When every requested key (and "goal", if the archive has it) names a
   * channel of the same length `n`, and no feet positions are stored, the
   * rows are selected for any ignored keys that can be removed.
   */
  lemma SelectRowsSucceeds(keys: seq<string>, a: Archive, ignoreKeys: seq<string>, n: nat)
    requires FOOT_PROBE_KEY !in a.channels
    requires multiset(ignoreKeys) <= multiset(KeysWithGoal(keys, a))
    requires forall k :: k in keys ==> k in a.channels && |a.channels[k]| == n
    requires GOAL_KEY in a.channels ==> |a.channels[GOAL_KEY]| == n
    ensures SelectRows(keys, a, ignoreKeys).Ok?
    ensures forall i :: 0 <= i < |SelectRows(keys, a, ignoreKeys).value.1| ==>
      |SelectRows(keys, a, ignoreKeys).value.1[i]| == n
  {
    var all := KeysWithGoal(keys, a);
    var kept := RemoveEach(all, ignoreKeys).value;
    forall k | k in kept
      ensures k in a.channels && |a.channels[k]| == n
    {
      assert multiset(kept)[k] > 0;
      assert k in multiset(all);
      assert k in all;
    }
  }

  /** The rows and rates with which construction gets through resampling. */
  predicate Loadable(rows: seq<seq<real>>, trajDt: real, controlDt: real)
  {
    && |rows| >= 1 && trajDt != controlDt && controlDt != 0.0
    && |rows[0]| >= MIN_CUBIC_SAMPLES && Rescale(|rows[0]|, ResampleFactor(trajDt, controlDt)) >= 0
  }

  /**
   * `Trajectory.__init__` after the archive is loaded. The condition at
   * line 80 reads the undefined name `traj_speed_mult` whenever
   * `traj_dt == control_dt` (the `or` is not short-circuited then), so
   * construction only succeeds with different rates, and always resamples.
   * Without rows, `trajectory.shape[1]` raises IndexError (when the default
   * split points are built, or else when resampling).
   */
  function Load(keys: seq<string>, a: Archive, ignoreKeys: seq<string>, trajDt: real, controlDt: real,
                sampler: (nat, nat) -> real): (r: Result<Loaded>)
    ensures SelectRows(keys, a, ignoreKeys).Err? ==> r == Err(SelectRows(keys, a, ignoreKeys).error)
    ensures SelectRows(keys, a, ignoreKeys).Ok? ==>
      var rows := SelectRows(keys, a, ignoreKeys).value.1;
      && (r.Ok? <==> Loadable(rows, trajDt, controlDt))
      && (|rows| == 0 && (a.splitPoints.None? || (trajDt != controlDt && controlDt != 0.0)) ==> r == Err(IndexError))
      && ((|rows| >= 1 || a.splitPoints.Some?) && trajDt == controlDt ==> r == Err(NameError))
      && ((|rows| >= 1 || a.splitPoints.Some?) && trajDt != controlDt && controlDt == 0.0 ==>
            r == Err(ZeroDivisionError))
      && (|rows| >= 1 && trajDt != controlDt && controlDt != 0.0 && !Loadable(rows, trajDt, controlDt) ==>
            r == Err(ValueError))
    ensures r.Ok? ==>
      && SelectRows(keys, a, ignoreKeys).Ok?
      && var (kept, rows) := SelectRows(keys, a, ignoreKeys).value;
         var l := r.value;
         var factor := ResampleFactor(trajDt, controlDt);
         && l.keys == kept
         && |l.trajectory| == |kept| >= 1
         && IsMatrix(l.trajectory, Rescale(|rows[0]|, factor))
         && l.splitPoints == RescaleSplitPoints(ArchiveSplitPoints(a, |rows[0]|), factor)
         && l.nRepeatingSteps == |ArchiveSplitPoints(a, |rows[0]|)| - 1
         && l.trajDt == trajDt && l.controlDt == controlDt
  {
    match SelectRows(keys, a, ignoreKeys)
    case Err(e) => Err(e)
    case Ok((kept, rows)) =>
      if a.splitPoints.None? && |rows| == 0 then Err(IndexError)
      else if trajDt == controlDt then Err(NameError)
      else if controlDt == 0.0 then Err(ZeroDivisionError)
      else if |rows| == 0 then Err(IndexError)
      else
        var length := |rows[0]|;
        var factor := ResampleFactor(trajDt, controlDt);
        match Interpolate(rows, length, factor, sampler)
        case Err(e) => Err(e)
        case Ok(traj) =>
          var sp := ArchiveSplitPoints(a, length);
          Ok(Loaded(kept, traj, RescaleSplitPoints(sp, factor), |sp| - 1, trajDt, controlDt))
  }

  /**
   * Equal rates never load. Once the rows are read, they fail on the
   * undefined name at line 80, unless there are no rows and the archive
   * has no split points (then the default split points fail first).
   */
  lemma EqualRatesFail(keys: seq<string>, a: Archive, ignoreKeys: seq<string>, dt: real, sampler: (nat, nat) -> real)
    ensures Load(keys, a, ignoreKeys, dt, dt, sampler).Err?
    ensures SelectRows(keys, a, ignoreKeys).Ok? ==>
      Load(keys, a, ignoreKeys, dt, dt, sampler) ==
        (if a.splitPoints.None? && |SelectRows(keys, a, ignoreKeys).value.0| == 0 then Err(IndexError)
         else Err(NameError))
  {
  }

  /**
   * Without split points in the archive they default to [0, T] and there is
   * one repeat; after resampling they are [0, new length].
   */
  lemma DefaultSplitPoints(keys: seq<string>, a: Archive, ignoreKeys: seq<string>, trajDt: real, controlDt: real,
                           sampler: (nat, nat) -> real)
    requires a.splitPoints.None?
    requires Load(keys, a, ignoreKeys, trajDt, controlDt, sampler).Ok?
    ensures var l := Load(keys, a, ignoreKeys, trajDt, controlDt, sampler).value;
      l.nRepeatingSteps == 1 && l.splitPoints == [0, |l.trajectory[0]|]
  {
    var l := Load(keys, a, ignoreKeys, trajDt, controlDt, sampler).value;
    var rows := SelectRows(keys, a, ignoreKeys).value.1;
    var length := |rows[0]|;
    var factor := ResampleFactor(trajDt, controlDt);
    var n := Rescale(length, factor);
    assert |l.trajectory[0]| == n;
    assert ArchiveSplitPoints(a, length) == [0, length];
    var sp := RescaleSplitPoints([0, length], factor);
    assert sp[0] == 0 by {
      assert 0 as real * factor == 0.0;
    }
    assert sp == [0, n];
  }

  // ---------------------------------------------------------------------------
  // Playback helpers
  // ---------------------------------------------------------------------------

  /** Column `k` of the matrix: the sample of every channel at time step `k`. */
  function Column(m: seq<seq<real>>, k: nat): (c: seq<real>)
    requires forall i :: 0 <= i < |m| ==> k < |m[i]|
    ensures |c| == |m|
    ensures forall i :: 0 <= i < |m| ==> c[i] == m[i][k]
  {
    seq(|m|, i requires 0 <= i < |m| => m[i][k])
  }

  /** `row -= v`, elementwise. */
  function ShiftRow(row: seq<real>, v: real): (r: seq<real>)
    ensures |r| == |row|
    ensures forall j :: 0 <= j < |row| ==> r[j] == row[j] - v
  {
    seq(|row|, j requires 0 <= j < |row| => row[j] - v)
  }

  /**
   * The working copy after a reset at column `k`: rows 0 and 1 are moved so
   * that they are 0 at `k`, keeping every difference between their samples;
   * all other rows are the trajectory's.
   */
  function Recentred(m: seq<seq<real>>, cols: nat, k: nat): (r: seq<seq<real>>)
    requires |m| >= 2 && IsMatrix(m, cols) && k < cols
    ensures |r| == |m| && IsMatrix(r, cols)
    ensures r[0][k] == 0.0 && r[1][k] == 0.0
    ensures forall j, j' :: 0 <= j < cols && 0 <= j' < cols ==>
      r[0][j] - r[0][j'] == m[0][j] - m[0][j'] && r[1][j] - r[1][j'] == m[1][j] - m[1][j']
    ensures forall i :: 2 <= i < |m| ==> r[i] == m[i]
  {
    m[0 := ShiftRow(m[0], m[0][k])][1 := ShiftRow(m[1], m[1][k])]
  }

  /**
   * The state a reset hands to the simulator: qpos is rows [0, lenQPos) and
   * qvel rows [lenQPos, lenQPos + lenQVel) of column `k`, both cut at the row count.
   */
  function StateAt(m: seq<seq<real>>, k: nat, lenQPos: nat, lenQVel: nat): (s: (seq<real>, seq<real>))
    requires forall i :: 0 <= i < |m| ==> k < |m[i]|
    ensures |s.0| == Min(lenQPos, |m|)
    ensures forall i :: 0 <= i < |s.0| ==> s.0[i] == m[i][k]
    ensures |s.1| == Min(lenQPos + lenQVel, |m|) - Min(lenQPos, |m|)
    ensures forall i :: 0 <= i < |s.1| ==> s.1[i] == m[lenQPos + i][k]
  {
    var c := Column(m, k);
    (PySlice(c, 0, lenQPos), PySlice(c, lenQPos, lenQPos + lenQVel))
  }

  /** The cursor a reset picks: the given step, or `int(r * (traj_length * 0.45))` for a draw r in [0, 1). */
  function StartCursor(substepNo: Option<int>, r: real, trajLength: nat): int
  {
    match substepNo
    case Some(s) => s
    case None => Trunc(r * (trajLength as real * RESET_WINDOW))
  }

  /** A random start lies in [0, 0.45 * length), so it is always a valid column of a non-empty trajectory. */
  lemma RandomStartInWindow(r: real, trajLength: nat)
    requires 0.0 <= r < 1.0
    ensures 0 <= StartCursor(None, r, trajLength)
    ensures trajLength > 0 ==>
      (StartCursor(None, r, trajLength) as real) < trajLength as real * RESET_WINDOW &&
      StartCursor(None, r, trajLength) < trajLength
    ensures trajLength == 0 ==> StartCursor(None, r, trajLength) == 0
  {
    var w := trajLength as real * RESET_WINDOW;
    assert StartCursor(None, r, trajLength) == Trunc(r * w);
    if trajLength > 0 {
      DrawBelow(r, w);
      assert w < trajLength as real;
    } else {
      assert r * w == 0.0;
    }
  }

  // ---------------------------------------------------------------------------
  // The store
  // ---------------------------------------------------------------------------

  class Trajectory {
    const keys: seq<string>
    /** The (resampled) channel-major matrix; never changed after construction. */
    const trajectory: seq<seq<real>>
    const splitPoints: seq<int>
    const nRepeatingSteps: int
    const trajDt: real
    const controlDt: real

    /** The playback cursor `subtraj_step_no` (may be negative: numpy counts it from the end). */
    var subtrajStepNo: int
    /** The cumulative distance `x_dist`. */
    var xDist: real
    /** The working copy `subtraj`, with rows 0 and 1 re-centred at every reset. */
    var subtraj: seq<seq<real>>

    ghost predicate Valid()
      reads this
    {
      && |trajectory| >= 1
      && |keys| == |trajectory|
      && IsMatrix(trajectory, |trajectory[0]|)
      && |subtraj| == |trajectory|
      && IsMatrix(subtraj, |trajectory[0]|)
    }

    /** The state after `__init__`: cursor 0, no distance, and the working copy equal to the trajectory. */
    constructor FromLoaded(l: Loaded)
      requires |l.trajectory| >= 1 && |l.keys| == |l.trajectory| && IsMatrix(l.trajectory, |l.trajectory[0]|)
      ensures Valid()
      ensures keys == l.keys && trajectory == l.trajectory && splitPoints == l.splitPoints
      ensures nRepeatingSteps == l.nRepeatingSteps && trajDt == l.trajDt && controlDt == l.controlDt
      ensures subtrajStepNo == 0 && xDist == 0.0 && subtraj == trajectory
      ensures TrajLength() == |trajectory[0]|
    {
      keys, trajectory, splitPoints := l.keys, l.trajectory, l.splitPoints;
      nRepeatingSteps, trajDt, controlDt := l.nRepeatingSteps, l.trajDt, l.controlDt;
      subtrajStepNo := 0;
      xDist := 0.0;
      subtraj := l.trajectory;
    }

    /** `Trajectory(keys, traj_path, traj_dt, control_dt, ignore_keys)` once the file is read. */
    static method Create(keys: seq<string>, a: Archive, ignoreKeys: seq<string>, trajDt: real, controlDt: real,
                         sampler: (nat, nat) -> real) returns (r: Result<Trajectory>)
      ensures r.Ok? <==> Load(keys, a, ignoreKeys, trajDt, controlDt, sampler).Ok?
      ensures r.Err? ==> r.error == Load(keys, a, ignoreKeys, trajDt, controlDt, sampler).error
      ensures r.Ok? ==>
        var l := Load(keys, a, ignoreKeys, trajDt, controlDt, sampler).value;
        && fresh(r.value) && r.value.Valid()
        && r.value.keys == l.keys && r.value.trajectory == l.trajectory && r.value.splitPoints == l.splitPoints
        && r.value.nRepeatingSteps == l.nRepeatingSteps
        && r.value.subtrajStepNo == 0 && r.value.xDist == 0.0 && r.value.subtraj == l.trajectory
    {
      var loaded := Load(keys, a, ignoreKeys, trajDt, controlDt, sampler);
      if loaded.Err? {
        return Err(loaded.error);
      }
      var t := new Trajectory.FromLoaded(loaded.value);
      r := Ok(t);
    }

    /** `traj_length`: the number of columns of the working copy. */
    function TrajLength(): (n: nat)
      reads this
      requires Valid()
      ensures n == |trajectory[0]|
    {
      |subtraj[0]|
    }

    /**
     * `reset_trajectory(len_q_pos, len_qvel, substep_no)`. Clears `x_dist`,
     * sets the cursor, rebuilds the working copy and re-centres rows 0 and 1
     * at the cursor. An out-of-range cursor raises IndexError after the copy;
     * a one-row trajectory raises IndexError after row 0 is re-centred.
     */
    method ResetTrajectory(lenQPos: nat, lenQVel: nat, substepNo: Option<int>, r: real)
      returns (res: Result<(seq<real>, seq<real>)>)
      requires Valid() && 0.0 <= r < 1.0
      modifies this
      ensures Valid()
      ensures xDist == 0.0
      ensures subtrajStepNo == StartCursor(substepNo, r, TrajLength())
      ensures !InIndexRange(subtrajStepNo, TrajLength()) ==>
        res == Err(IndexError) && subtraj == trajectory
      ensures InIndexRange(subtrajStepNo, TrajLength()) && |trajectory| < 2 ==>
        var k := NpIndex(subtrajStepNo, TrajLength());
        res == Err(IndexError) && subtraj == trajectory[0 := ShiftRow(trajectory[0], trajectory[0][k])]
      ensures InIndexRange(subtrajStepNo, TrajLength()) && |trajectory| >= 2 ==>
        var k := NpIndex(subtrajStepNo, TrajLength());
        && subtraj == Recentred(trajectory, TrajLength(), k)
        && res == Ok(StateAt(subtraj, k, lenQPos, lenQVel))
      ensures substepNo.None? && TrajLength() > 0 && |trajectory| >= 2 ==> res.Ok?
    {
      var n := |trajectory[0]|;
      xDist := 0.0;
      subtrajStepNo := StartCursor(substepNo, r, n);
      RandomStartInWindow(r, n);
      subtraj := trajectory;
      if !InIndexRange(subtrajStepNo, n) {
        return Err(IndexError);
      }
      var k := NpIndex(subtrajStepNo, n);
      subtraj := subtraj[0 := ShiftRow(subtraj[0], subtraj[0][k])];
      if |subtraj| < 2 {
        return Err(IndexError);
      }
      subtraj := subtraj[1 := ShiftRow(subtraj[1], subtraj[1][k])];
      res := Ok(StateAt(subtraj, k, lenQPos, lenQVel));
    }

    /**
     * `get_next_sub_trajectory`: adds the last sample of row 0 to `x_dist`,
     * then calls `reset_trajectory()` without its two required arguments,
     * which raises TypeError. On an empty trajectory reading the last sample
     * already raises IndexError.
     */
    method GetNextSubTrajectory() returns (res: Result<()>)
      requires Valid()
      modifies this`xDist
      ensures TrajLength() == 0 ==> res == Err(IndexError) && xDist == old(xDist)
      ensures TrajLength() > 0 ==> res == Err(TypeError) && xDist == old(xDist) + subtraj[0][TrajLength() - 1]
    {
      var n := |subtraj[0]|;
      if n == 0 {
        return Err(IndexError);
      }
      xDist := xDist + subtraj[0][n - 1];
      res := Err(TypeError);
    }

    /**
     * `get_next_sample`: a copy of the working copy's column at the cursor,
     * then the cursor moves on by one. Once the cursor reaches `traj_length`
     * the wraparound through `get_next_sub_trajectory` fails.
     */
    method GetNextSample() returns (res: Result<seq<real>>)
      requires Valid()
      modifies this`subtrajStepNo, this`xDist
      ensures Valid()
      ensures old(subtrajStepNo) >= TrajLength() ==>
        && subtrajStepNo == old(subtrajStepNo)
        && (TrajLength() == 0 ==> res == Err(IndexError) && xDist == old(xDist))
        && (TrajLength() > 0 ==> res == Err(TypeError) && xDist == old(xDist) + subtraj[0][TrajLength() - 1])
      ensures old(subtrajStepNo) < -(TrajLength() as int) ==>
        res == Err(IndexError) && subtrajStepNo == old(subtrajStepNo) && xDist == old(xDist)
      ensures InIndexRange(old(subtrajStepNo), TrajLength()) ==>
        && res == Ok(Column(subtraj, NpIndex(old(subtrajStepNo), TrajLength())))
        && subtrajStepNo == old(subtrajStepNo) + 1
        && xDist == old(xDist)
    {
      var n := |subtraj[0]|;
      if subtrajStepNo >= n {
        var e := GetNextSubTrajectory();
        return Err(e.error);
      }
      if subtrajStepNo < -n {
        return Err(IndexError);
      }
      var sample := Column(subtraj, NpIndex(subtrajStepNo, n));
      subtrajStepNo := subtrajStepNo + 1;
      res := Ok(sample);
    }
  }

  // ---------------------------------------------------------------------------
  // Sub-trajectories of whole gait cycles
  // ---------------------------------------------------------------------------

  /**
   * `sub` holds columns [s, e) of `m` with row 0 moved to start at 0 and
   * every other row copied unchanged.
   */
  ghost predicate IsSegment(m: seq<seq<real>>, s: nat, e: nat, sub: seq<seq<real>>)
    requires |m| >= 1 && s <= e && s < |m[0]| && forall i :: 0 <= i < |m| ==> e <= |m[i]|
  {
    && |sub| == |m|
    && IsMatrix(sub, e - s)
    && (forall j {:trigger sub[0][j]} :: 0 <= j < e - s ==> sub[0][j] == m[0][s + j] - m[0][s])
    && (forall i, j {:trigger sub[i][j]} :: 1 <= i < |m| && 0 <= j < e - s ==> sub[i][j] == m[i][s + j])
  }

  /**
   * `_get_traj_gait_sub_steps(initial_walking_step, number_of_walking_steps)`:
   * columns [sp[i], sp[i + n]) with row 0 shifted by its value at sp[i].
   * Indices follow numpy: negative ones count from the end.
   */
  function GaitSubSteps(m: seq<seq<real>>, cols: nat, sp: seq<int>, initialStep: int, count: int)
    : (r: Result<seq<seq<real>>>)
    requires |m| >= 1 && IsMatrix(m, cols)
    ensures !InIndexRange(initialStep, |sp|) || !InIndexRange(initialStep + count, |sp|) ==> r == Err(IndexError)
    ensures InIndexRange(initialStep, |sp|) && InIndexRange(initialStep + count, |sp|) ==>
      (r.Ok? <==> InIndexRange(sp[NpIndex(initialStep, |sp|)], cols))
    ensures InIndexRange(initialStep, |sp|) && InIndexRange(initialStep + count, |sp|) ==>
      (r.Err? ==> r.error == IndexError)
    ensures 0 <= initialStep && 0 <= count && initialStep + count < |sp| &&
            0 <= sp[initialStep] <= sp[initialStep + count] <= cols && sp[initialStep] < cols ==>
      && r.Ok?
      && IsSegment(m, sp[initialStep], sp[initialStep + count], r.value)
      && (sp[initialStep] < sp[initialStep + count] ==> r.value[0][0] == 0.0)
  {
    if !InIndexRange(initialStep, |sp|) || !InIndexRange(initialStep + count, |sp|) then Err(IndexError)
    else
      var s := sp[NpIndex(initialStep, |sp|)];
      var e := sp[NpIndex(initialStep + count, |sp|)];
      if !InIndexRange(s, cols) then Err(IndexError)
      else Ok(ShiftedColumns(m, cols, s, e))
  }

  /** `traj[:, s:e]` with row 0 shifted by `traj[0, s]`; within bounds, the segment [s, e). */
  function ShiftedColumns(m: seq<seq<real>>, cols: nat, s: int, e: int): (r: seq<seq<real>>)
    requires |m| >= 1 && IsMatrix(m, cols) && InIndexRange(s, cols)
    ensures 0 <= s <= e <= cols ==> IsSegment(m, s, e, r)
  {
    var sub := seq(|m|, i requires 0 <= i < |m| => PySlice(m[i], s, e));
    var r := sub[0 := ShiftRow(sub[0], m[0][NpIndex(s, cols)])];
    if 0 <= s <= e <= cols then
      assert forall i :: 1 <= i < |m| ==> r[i] == sub[i] == m[i][s..e];
      assert r[0] == ShiftRow(m[0][s..e], m[0][s]);
      SliceIsSegment(m, s, e, r);
      r
    else r
  }

  /** Row 0 cut and shifted, the other rows cut: that is the segment [s, e). */
  lemma SliceIsSegment(m: seq<seq<real>>, s: nat, e: nat, r: seq<seq<real>>)
    requires |m| >= 1 && s <= e && s < |m[0]| && forall i :: 0 <= i < |m| ==> e <= |m[i]|
    requires |r| == |m| && r[0] == ShiftRow(m[0][s..e], m[0][s])
    requires forall i :: 1 <= i < |m| ==> r[i] == m[i][s..e]
    ensures IsSegment(m, s, e, r)
  {
  }

  /**
   * Consecutive repeats tile: the segment of a + b cycles starting at cycle
   * i is the segment of a cycles followed by the segment of the next b
   * cycles, whose row 0 is carried on from where the first one ended.
   */
  lemma {:induction false} GaitSubStepsTile(m: seq<seq<real>>, cols: nat, sp: seq<int>, i: nat, a: nat, b: nat)
    requires |m| >= 1 && IsMatrix(m, cols)
    requires i + a + b < |sp|
    requires 0 <= sp[i] <= sp[i + a] <= sp[i + a + b] <= cols && sp[i + a] < cols
    ensures var whole, left, right := GaitSubSteps(m, cols, sp, i, a + b), GaitSubSteps(m, cols, sp, i, a),
                                      GaitSubSteps(m, cols, sp, i + a, b);
      && whole.Ok? && left.Ok? && right.Ok?
      && Tiles(m, sp[i], sp[i + a], whole.value, left.value, right.value)
  {
    var s, t, e := sp[i], sp[i + a], sp[i + a + b];
    var whole := GaitSegment(m, cols, sp, i, a + b, s, e);
    var left := GaitSegment(m, cols, sp, i, a, s, t);
    var right := GaitSegment(m, cols, sp, i + a, b, t, e);
    SegmentsTile(m, s, t, e, whole, left, right);
  }

  /** Within bounds, `GaitSubSteps` succeeds with the segment [s, e) = [sp[i], sp[i + n]). */
  lemma GaitSegment(m: seq<seq<real>>, cols: nat, sp: seq<int>, i: nat, n: nat, s: nat, e: nat)
    returns (seg: seq<seq<real>>)
    requires |m| >= 1 && IsMatrix(m, cols)
    requires i + n < |sp| && s == sp[i] && e == sp[i + n] && s <= e <= cols && s < cols
    ensures GaitSubSteps(m, cols, sp, i, n) == Ok(seg) && IsSegment(m, s, e, seg)
  {
    seg := GaitSubSteps(m, cols, sp, i, n).value;
  }

  /**
   * `whole` is `left` followed by `right`, row by row, where row 0 of
   * `right` (which starts at 0) is carried on from m[0][t] - m[0][s].
   */
  ghost predicate Tiles(m: seq<seq<real>>, s: nat, t: nat, whole: seq<seq<real>>, left: seq<seq<real>>,
                        right: seq<seq<real>>)
    requires |m| >= 1 && t < |m[0]| && s < |m[0]| && |whole| == |left| == |right| == |m|
  {
    && whole[0] == left[0] + ShiftRow(right[0], m[0][s] - m[0][t])
    && forall c :: 1 <= c < |m| ==> whole[c] == left[c] + right[c]
  }

  /** Two adjacent segments [s, t) and [t, e) make up the segment [s, e); row 0 of the second is re-based. */
  lemma SegmentsTile(m: seq<seq<real>>, s: nat, t: nat, e: nat,
                     whole: seq<seq<real>>, left: seq<seq<real>>, right: seq<seq<real>>)
    requires |m| >= 1 && s <= t <= e && t < |m[0]| && forall i :: 0 <= i < |m| ==> e <= |m[i]|
    requires IsSegment(m, s, e, whole) && IsSegment(m, s, t, left) && IsSegment(m, t, e, right)
    ensures Tiles(m, s, t, whole, left, right)
  {
    var tail := ShiftRow(right[0], m[0][s] - m[0][t]);
    assert |whole[0]| == |left[0] + tail|;
    forall j | 0 <= j < e - s
      ensures whole[0][j] == (left[0] + tail)[j]
    {
      if t - s <= j {
        var k := j - (t - s);
        assert tail[k] == right[0][k] - (m[0][s] - m[0][t]);
      }
    }
    forall c | 1 <= c < |m|
      ensures whole[c] == left[c] + right[c]
    {
      assert |whole[c]| == |left[c] + right[c]|;
      forall j | 0 <= j < e - s
        ensures whole[c][j] == (left[c] + right[c])[j]
      {
      }
    }
  }

  // ---------------------------------------------------------------------------
  // Datasets of consecutive states
  // ---------------------------------------------------------------------------

  /** A Python dict as the list of its entries in insertion order. */
  type Dict = seq<(string, seq<real>)>

  function DictKeys(d: Dict): (ks: seq<string>)
    ensures |ks| == |d| && forall i :: 0 <= i < |d| ==> ks[i] == d[i].0
  {
    seq(|d|, i requires 0 <= i < |d| => d[i].0)
  }

  function DictValues(d: Dict): (vs: seq<seq<real>>)
    ensures |vs| == |d| && forall i :: 0 <= i < |d| ==> vs[i] == d[i].1
  {
    seq(|d|, i requires 0 <= i < |d| => d[i].1)
  }

  /** `d[k] = v`: an existing key keeps its place and takes the new value; a new key goes last. */
  function DictSet(d: Dict, k: string, v: seq<real>): (r: Dict)
    ensures k !in DictKeys(d) ==> r == d + [(k, v)]
    ensures k in DictKeys(d) ==> r == d[FirstIndex(DictKeys(d), k) := (k, v)]
  {
    if k in DictKeys(d) then
      var i := FirstIndex(DictKeys(d), k);
      d[i := (k, v)]
    else d + [(k, v)]
  }

  /** `dict(zip(keys, values))` */
  function ZipDict(keys: seq<string>, values: seq<seq<real>>): Dict
    requires |keys| == |values|
  {
    if |keys| == 0 then []
    else DictSet(ZipDict(keys[..|keys| - 1], values[..|keys| - 1]), keys[|keys| - 1], values[|keys| - 1])
  }

  /** With distinct keys the dict keeps every pair, in order. */
  lemma {:induction false} ZipDictDistinct(keys: seq<string>, values: seq<seq<real>>)
    requires |keys| == |values|
    requires forall i, j :: 0 <= i < j < |keys| ==> keys[i] != keys[j]
    ensures DictKeys(ZipDict(keys, values)) == keys
    ensures DictValues(ZipDict(keys, values)) == values
  {
    if |keys| > 0 {
      var n := |keys| - 1;
      ZipDictDistinct(keys[..n], values[..n]);
      assert keys[n] !in keys[..n];
      assert keys == keys[..n] + [keys[n]];
      assert values == values[..n] + [values[n]];
    }
  }

  /** `del d[k]`: KeyError when `k` is absent. */
  function DictDelete(d: Dict, k: string): (r: Result<Dict>)
    ensures r.Ok? <==> k in DictKeys(d)
    ensures r.Err? ==> r.error == KeyError
    ensures r.Ok? ==> |r.value| == |d| - 1
    ensures r.Ok? ==> r.value == d[..FirstIndex(DictKeys(d), k)] + d[FirstIndex(DictKeys(d), k) + 1..]
    ensures r.Ok? ==> multiset(DictKeys(r.value)) == multiset(DictKeys(d)) - multiset{k}
  {
    if k in DictKeys(d) then
      var i := FirstIndex(DictKeys(d), k);
      var ks := DictKeys(d);
      assert DictKeys(d[..i] + d[i + 1..]) == ks[..i] + ks[i + 1..];
      assert ks == ks[..i] + [k] + ks[i + 1..];
      Ok(d[..i] + d[i + 1..])
    else Err(KeyError)
  }

  /**
   * `for k in ks: del d[k]`: succeeds exactly when every deleted key is
   * there to delete; the keys left are the original ones minus the deleted
   * ones, and every entry left is an entry of `d`.
   */
  function DictDeleteEach(d: Dict, ks: seq<string>): (r: Result<Dict>)
    ensures r.Ok? <==> multiset(ks) <= multiset(DictKeys(d))
    ensures r.Err? ==> r.error == KeyError
    ensures r.Ok? ==> multiset(DictKeys(r.value)) + multiset(ks) == multiset(DictKeys(d))
    ensures r.Ok? ==> forall e :: e in r.value ==> e in d
    ensures ks == [] ==> r == Ok(d)
    decreases |ks|
  {
    if |ks| == 0 then Ok(d)
    else
      assert ks == [ks[0]] + ks[1..];
      assert multiset(ks) == multiset{ks[0]} + multiset(ks[1..]);
      match DictDelete(d, ks[0])
      case Err(e) =>
        assert ks[0] !in multiset(DictKeys(d));
        Err(e)
      case Ok(d') =>
        assert multiset(DictKeys(d)) == multiset(DictKeys(d')) + multiset{ks[0]};
        DictDeleteEach(d', ks[1..])
  }

  /** `np.transpose(np.array(rows))`: time-major states; no rows give an empty array. */
  function Transpose(rows: seq<seq<real>>, cols: nat): (s: seq<seq<real>>)
    requires IsMatrix(rows, cols)
    ensures |rows| > 0 ==> |s| == cols && forall t :: 0 <= t < cols ==> s[t] == Column(rows, t)
    ensures |rows| == 0 ==> s == []
  {
    if |rows| == 0 then []
    else seq(cols, t requires 0 <= t < cols => Column(rows, t))
  }

  /** The normaliser applied to every state, when one is given (its fitted statistics are not modelled). */
  function Normalize(states: seq<seq<real>>, normalizer: Option<seq<real> -> seq<real>>): (r: seq<seq<real>>)
    ensures |r| == |states|
  {
    match normalizer
    case None => states
    case Some(f) => seq(|states|, t requires 0 <= t < |states| => f(states[t]))
  }

  datatype Dataset = Dataset(states: seq<seq<real>>, nextStates: seq<seq<real>>, absorbing: seq<real>)

  /** `states[:-1]`, `states[1:]` and `np.zeros(len(states[:-1]))`: the consecutive pairs, never absorbing. */
  function Pairs(s: seq<seq<real>>): (d: Dataset)
    ensures |d.states| == |d.nextStates| == |d.absorbing| == Max(|s| - 1, 0)
    ensures forall t :: 0 <= t < |d.states| ==> d.states[t] == s[t] && d.nextStates[t] == s[t + 1]
    ensures forall t :: 0 <= t < |d.absorbing| ==> d.absorbing[t] == 0.0
  {
    var states := PySlice(s, 0, -1);
    Dataset(states, PySlice(s, 1, |s|), Repeat(0.0, |states|))
  }

  /**
   * `create_dataset(ignore_keys, normalizer)`: drop the ignored keys, turn
   * the remaining rows time-major and pair every state with the next one.
   */
  function CreateDataset(keys: seq<string>, trajectory: seq<seq<real>>, cols: nat, ignoreKeys: seq<string>,
                         normalizer: Option<seq<real> -> seq<real>>): (r: Result<Dataset>)
    requires |keys| == |trajectory| && IsMatrix(trajectory, cols)
    ensures r.Ok? <==> DictDeleteEach(ZipDict(keys, trajectory), ignoreKeys).Ok?
    ensures r.Err? ==> r.error == KeyError
    ensures r.Ok? ==>
      var rest := DictValues(DictDeleteEach(ZipDict(keys, trajectory), ignoreKeys).value);
      IsMatrix(rest, cols) && DatasetOf(rest, cols, normalizer, r.value)
  {
    match DictDeleteEach(ZipDict(keys, trajectory), ignoreKeys)
    case Err(e) => Err(e)
    case Ok(d) =>
      DictValuesAreRows(keys, trajectory, cols, ignoreKeys);
      PairsOfRows(DictValues(d), cols, normalizer);
      Ok(Pairs(Normalize(Transpose(DictValues(d), cols), normalizer)))
  }

  /**
   * `d` is the dataset of the channel rows `rest`: T - 1 pairs of
   * consecutive (normalised) columns, each next state the following state,
   * and none absorbing; no rows give an empty dataset.
   */
  ghost predicate DatasetOf(rest: seq<seq<real>>, cols: nat, normalizer: Option<seq<real> -> seq<real>>, d: Dataset)
    requires IsMatrix(rest, cols)
  {
    && |d.states| == |d.nextStates| == |d.absorbing| == (if |rest| == 0 then 0 else Max(cols - 1, 0))
    && (forall t :: 0 <= t < |d.absorbing| ==> d.absorbing[t] == 0.0)
    && (forall t :: 0 <= t < |d.states| - 1 ==> d.nextStates[t] == d.states[t + 1])
    && (forall t :: 0 <= t < |d.states| ==>
          && d.states[t] == (if normalizer.Some? then normalizer.value(Column(rest, t)) else Column(rest, t))
          && d.nextStates[t] ==
               (if normalizer.Some? then normalizer.value(Column(rest, t + 1)) else Column(rest, t + 1)))
  }

  /** Pairing the normalised columns of a matrix gives its dataset. */
  lemma PairsOfRows(rest: seq<seq<real>>, cols: nat, normalizer: Option<seq<real> -> seq<real>>)
    requires IsMatrix(rest, cols)
    ensures DatasetOf(rest, cols, normalizer, Pairs(Normalize(Transpose(rest, cols), normalizer)))
  {
    var s := Normalize(Transpose(rest, cols), normalizer);
    var d := Pairs(s);
    assert |s| == (if |rest| == 0 then 0 else cols);
    forall t | 0 <= t < |d.states|
      ensures d.states[t] == (if normalizer.Some? then normalizer.value(Column(rest, t)) else Column(rest, t))
      ensures d.nextStates[t] ==
        (if normalizer.Some? then normalizer.value(Column(rest, t + 1)) else Column(rest, t + 1))
    {
      assert d.states[t] == s[t] && d.nextStates[t] == s[t + 1];
    }
  }

  /** Every value left in the dict is a row of the trajectory. */
  lemma DictValuesAreRows(keys: seq<string>, trajectory: seq<seq<real>>, cols: nat, ignoreKeys: seq<string>)
    requires |keys| == |trajectory| && IsMatrix(trajectory, cols)
    requires DictDeleteEach(ZipDict(keys, trajectory), ignoreKeys).Ok?
    ensures IsMatrix(DictValues(DictDeleteEach(ZipDict(keys, trajectory), ignoreKeys).value), cols)
  {
    ZipDictRows(keys, trajectory, cols);
    DeleteKeepsRows(ZipDict(keys, trajectory), ignoreKeys, cols);
  }

  lemma {:induction false} ZipDictRows(keys: seq<string>, values: seq<seq<real>>, cols: nat)
    requires |keys| == |values| && IsMatrix(values, cols)
    ensures IsMatrix(DictValues(ZipDict(keys, values)), cols)
  {
    if |keys| > 0 {
      ZipDictRows(keys[..|keys| - 1], values[..|keys| - 1], cols);
    }
  }

  lemma {:induction false} DeleteKeepsRows(d: Dict, ks: seq<string>, cols: nat)
    requires IsMatrix(DictValues(d), cols)
    requires DictDeleteEach(d, ks).Ok?
    ensures IsMatrix(DictValues(DictDeleteEach(d, ks).value), cols)
    decreases |ks|
  {
    if |ks| > 0 {
      var d' := DictDelete(d, ks[0]).value;
      var i := FirstIndex(DictKeys(d), ks[0]);
      assert forall j :: 0 <= j < |d'| ==> d'[j] == d[if j < i then j else j + 1];
      DeleteKeepsRows(d', ks[1..], cols);
    }
  }

  /**
   * With distinct keys, nothing ignored and no normaliser, the dataset pairs
   * the trajectory's own columns: state t is column t and its successor is
   * column t + 1.
   */
  lemma CreateDatasetColumns(keys: seq<string>, trajectory: seq<seq<real>>, cols: nat)
    requires |keys| == |trajectory| >= 1 && IsMatrix(trajectory, cols)
    requires forall i, j :: 0 <= i < j < |keys| ==> keys[i] != keys[j]
    ensures var r := CreateDataset(keys, trajectory, cols, [], None);
      && r.Ok?
      && |r.value.states| == Max(cols - 1, 0)
      && forall t :: 0 <= t < |r.value.states| ==>
           r.value.states[t] == Column(trajectory, t) && r.value.nextStates[t] == Column(trajectory, t + 1)
  {
    ZipDictDistinct(keys, trajectory);
  }

  datatype TripletDataset = TripletDataset(states: seq<seq<real>>, nextStates: seq<seq<real>>,
                                           nextNextStates: seq<seq<real>>)

  /**
   * `create_datase_with_triplet_states(normalizer)`: consecutive triples of
   * normalised states. Without a normaliser `norm_states` is never bound,
   * so the call raises UnboundLocalError.
   */
  function CreateTripletDataset(trajectory: seq<seq<real>>, cols: nat, normalizer: Option<seq<real> -> seq<real>>)
    : (r: Result<TripletDataset>)
    requires IsMatrix(trajectory, cols)
    ensures normalizer.None? <==> r == Err(UnboundLocalError)
    ensures r.Ok? <==> normalizer.Some?
    ensures r.Ok? ==>
      var s := Normalize(Transpose(trajectory, cols), normalizer);
      && |r.value.states| == |r.value.nextStates| == |r.value.nextNextStates| == Max(|s| - 2, 0)
      && forall t :: 0 <= t < |r.value.states| ==>
           r.value.states[t] == s[t] && r.value.nextStates[t] == s[t + 1] && r.value.nextNextStates[t] == s[t + 2]
  {
    match normalizer
    case None => Err(UnboundLocalError)
    case Some(_) =>
      var s := Normalize(Transpose(trajectory, cols), normalizer);
      Ok(TripletDataset(PySlice(s, 0, -2), PySlice(s, 1, -1), PySlice(s, 2, |s|)))
  }
}
