# mushroom-rl humanoid trajectory core, modelled in Dafny

This project models the reference-trajectory store and its surroundings in
mushroom-rl's MuJoCo environments:

- the `Trajectory` class of the humanoid environments. It holds a
  channel-major matrix (one row per observation key, one column per time
  step) and the split points between gait cycles. It also keeps a playback
  cursor over a working copy whose horizontal position rows are re-centred
  at every reset. Construction bookkeeping, reset, sampling, gait-cycle
  segments and the (state, next state) datasets are all modelled;
- the plain-computation glue of `BaseHumanoid`:
  - goal-reward dispatch;
  - action rescaling from [-1, 1] to the simulator's box;
  - the observation vector and its bounds;
  - the count of position and velocity keys;
  - the trajectory-dependent `setup` and `create_dataset`;
- the goal-reward state of the humanoid gait environment:
  - the interface defaults;
  - the constant and callback rewards;
  - the velocity-target reward with its plateau cycle;
  - the rotating velocity profile;
  - the trajectory-matching reward, with its latching termination flag,
    error rescaling and joint weights;
- angle wrapping: `normalize_angle_positive`, `normalize_angle` and
  `shortest_angular_distance`, over the reals, with C's `fmod`;
- the partially observable Ant and HalfCheetah wrappers:
  - validation of the parts to hide;
  - the observation built from the shown parts;
  - the cheetah's random push, whose sign also sets the sign of the
    forward-reward weight.

Python's behaviour is written out where it matters:

- **Exceptions** are `Result` values (`PySemantics.Exception`).
- **numpy indexing.** Negative numpy indices count from the end. Slices
  clamp their bounds.
- **Rounding and `int()`.** `round`/`np.round` round half to even, and
  `int()` truncates toward zero.
- **Dicts** are insertion-ordered association lists.
- **Random draws** become parameters `r` with 0 <= r < 1:
  - `np.random.rand()` is `r` itself;
  - `np.random.randint(n)` is `int(r * n)`;
  - `np.random.choice` of two values is a boolean.
- **Files.** A loaded archive (`np.load`, `pickle.load`) is an input value.

Where the code is defective, the model keeps the defect as an error outcome
and proves when it happens:

- **trajectory.py:80** reads the undefined name `traj_speed_mult` whenever
  the two rates are equal, so construction raises NameError then
  (`Trajectories.Load`, `Trajectories.EqualRatesFail`).
- **trajectory.py:60** reads `FOOT_KEYS`, which is commented out, so an
  archive with feet positions raises NameError (`Trajectories.SelectRows`).
- **trajectory.py:155** calls `reset_trajectory()` without its two required
  arguments, so playback past the end raises TypeError
  (`Trajectories.Trajectory.GetNextSample`).
- **trajectory.py:135** reads `norm_states`, which is unbound without a
  normaliser, so the call raises UnboundLocalError
  (`Trajectories.CreateTripletDataset`).
- **reward.py:120** evaluates `0` without returning it, so `CustomReward`
  without a callback returns None (`RewardGoals.Call`).
- **reward.py:178-179.** With `n_skip_targets <= 0` the plateau index is
  never bound (`RewardGoals.ChangingVelocityTargetReward.ResetState`).

The modules follow the source files:

| module | file |
|---|---|
| `PySemantics` | the Python/numpy semantics the others use |
| `Angles` | angles.py |
| `Trajectories` | humanoids/trajectory.py |
| `Humanoid` | humanoids/base_humanoid.py |
| `RewardGoals` | humanoid_gaitv2/reward_goals/reward.py |
| `ObsHiding` | the validation ant_v3.py and half_cheetah_v3.py share |
| `AntPomdp` | ant_v3.py |
| `HalfCheetahPomdp` | half_cheetah_v3.py |

## Model

| member | source | states |
|---|---|---|
| Angles.FMod | mushroom_rl/utils/angles.py:53 | C's fmod by a positive divisor lies strictly inside (-y, y) with the sign of the dividend, and leaves a dividend smaller than the divisor unchanged |
| Angles.NormalizeAnglePositive | mushroom_rl/utils/angles.py:40-53 | the positive wrap lies in [0, 2*pi) |
| Angles.PositiveWrapTurns | mushroom_rl/utils/angles.py:51-53 | the positive wrap differs from the angle by a whole number of turns of 2*pi |
| Angles.PositiveWrapFixes | mushroom_rl/utils/angles.py:40-53 | an angle already in [0, 2*pi) is returned unchanged |
| Angles.NormalizeAngle | mushroom_rl/utils/angles.py:56-71 | the wrap lies in (-pi, pi]; it is the positive wrap minus 2*pi exactly when the positive wrap exceeds pi, and the positive wrap itself otherwise |
| Angles.NormalizeAngleTurns | mushroom_rl/utils/angles.py:56-71 | the wrap differs from the angle by a whole number of turns |
| Angles.NormalizeAngleFixes | mushroom_rl/utils/angles.py:56-71 | an angle already in (-pi, pi] is returned unchanged |
| Angles.NormalizeAngleIdempotent | mushroom_rl/utils/angles.py:56-71 | wrapping twice equals wrapping once |
| Angles.NormalizeAngleUnique | mushroom_rl/utils/angles.py:56-71 | the wrap is the only value in (-pi, pi] that differs from the angle by whole turns |
| Angles.ShortestAngularDistance | mushroom_rl/utils/angles.py:74-86 | the distance lies in (-pi, pi] and is 0 from an angle to itself |
| Angles.ShortestDistanceReaches | mushroom_rl/utils/angles.py:74-86 | moving by the distance from `from` lands on `to` up to whole turns |
| PySemantics.RoundHalfEvenUnique | mushroom_rl/environments/mujoco_envs/humanoids/trajectory.py:88-89 | the rounding used for split points is determined by "within 1/2, and even on a tie" |
| Trajectories.RemoveFirst | mushroom_rl/environments/mujoco_envs/humanoids/trajectory.py:63-64 | `list.remove` succeeds exactly when the key is present and then removes one occurrence; otherwise it raises ValueError |
| Trajectories.RemoveFirstDropsFirst | mushroom_rl/environments/mujoco_envs/humanoids/trajectory.py:63-64 | the occurrence removed is the first one, and the order of the rest is kept |
| Trajectories.RemoveEach | mushroom_rl/environments/mujoco_envs/humanoids/trajectory.py:62-64 | removing every ignored key succeeds exactly when the ignored keys are a sub-multiset of the keys; the kept keys plus the ignored ones are the original keys |
| Trajectories.Rows | mushroom_rl/environments/mujoco_envs/humanoids/trajectory.py:66 | one archive row per key, in key order; KeyError exactly when some key is missing from the archive, and ValueError exactly when all are present but the rows differ in length (numpy refuses a ragged array); a successful result is a matrix |
| Trajectories.ArchiveSplitPoints | mushroom_rl/environments/mujoco_envs/humanoids/trajectory.py:69-72 | the archive's own split points when it has them, and otherwise [0, T] for the column count T |
| Trajectories.RescaleSplitPoints | mushroom_rl/environments/mujoco_envs/humanoids/trajectory.py:81-89 | every split point is scaled by the factor and rounded half to even, position by position; `Rescale` is round(p * factor) and `ResampleFactor` is (1 / speed multiplier) * (traj_dt / control_dt) |
| Trajectories.Interpolate | mushroom_rl/environments/mujoco_envs/humanoids/trajectory.py:142-147 | resampling keeps one row per channel, each of length round(T * factor); it fails with ValueError when that length is negative or there are fewer than four samples for the cubic fit |
| Trajectories.SelectRows | mushroom_rl/environments/mujoco_envs/humanoids/trajectory.py:55-66 | "goal" is appended when the archive has it (`KeysWithGoal`); the feet-key branch raises NameError; removing an absent ignored key raises ValueError; otherwise it succeeds exactly when every kept key is in the archive with rows of one length, raising KeyError or ValueError as `Rows` does, and the kept keys are the keys minus the ignored ones with the archive's rows for them |
| Trajectories.SelectRowsSucceeds | mushroom_rl/environments/mujoco_envs/humanoids/trajectory.py:55-66 | without feet positions, with ignored keys that can all be removed, and with every requested key (and "goal" when present) of one length n in the archive, selection succeeds and every row has length n |
| Trajectories.Load | mushroom_rl/environments/mujoco_envs/humanoids/trajectory.py:53-89 | selection errors pass through; then construction succeeds exactly when there is at least one row, the rates differ, the control step is non-zero and the resampled length is valid, raising IndexError (no rows and no archive split points), NameError (equal rates), ZeroDivisionError (zero control step), IndexError (no rows) or the resampling ValueError otherwise; on success the matrix has round(T * factor) columns, the split points are the archive's (or [0, T]) rescaled, and the repeat count is their number minus one |
| Trajectories.EqualRatesFail | mushroom_rl/environments/mujoco_envs/humanoids/trajectory.py:80 | equal trajectory and control rates never construct; once the rows are read, the undefined name raises NameError |
| Trajectories.DefaultSplitPoints | mushroom_rl/environments/mujoco_envs/humanoids/trajectory.py:69-74 | without archive split points there is one repeat, and after resampling the split points are [0, new length] |
| Trajectories.Column | mushroom_rl/environments/mujoco_envs/humanoids/trajectory.py:200 | the column at k holds every row's k-th sample, in row order |
| Trajectories.Recentred | mushroom_rl/environments/mujoco_envs/humanoids/trajectory.py:186-190 | rows 0 and 1 are shifted so that they are 0 at the cursor, and differences between their samples are unchanged; every other row is the trajectory's |
| Trajectories.StateAt | mushroom_rl/environments/mujoco_envs/humanoids/trajectory.py:192-195 | qpos is the cursor column's rows [0, len_q_pos) and qvel its rows [len_q_pos, len_q_pos + len_qvel), each truncated at the row count |
| Trajectories.RandomStartInWindow | mushroom_rl/environments/mujoco_envs/humanoids/trajectory.py:180-184 | the start cursor (`StartCursor`: the given step, or int(r * L * 0.45) without one) of a random start lies in [0, 0.45 * L) for a non-empty trajectory of length L, and is 0 for an empty one |
| Trajectories.Trajectory.FromLoaded | mushroom_rl/environments/mujoco_envs/humanoids/trajectory.py:91-97 | after construction the cursor and `x_dist` are 0, the working copy equals the matrix, and `traj_length` is its column count |
| Trajectories.Trajectory.Create | mushroom_rl/environments/mujoco_envs/humanoids/trajectory.py:35-93 | construction fails exactly when loading fails, with the same exception; otherwise it yields a fresh trajectory with the loaded matrix, split points and repeat count, cursor 0 and `x_dist` 0 |
| Trajectories.Trajectory.TrajLength | mushroom_rl/environments/mujoco_envs/humanoids/trajectory.py:95-97 | `traj_length` is the column count of the matrix |
| Trajectories.Trajectory.ResetTrajectory | mushroom_rl/environments/mujoco_envs/humanoids/trajectory.py:169-195 | `x_dist` becomes 0 and the cursor becomes the given step or int(r * L * 0.45); the working copy is the matrix re-centred at the cursor, and the result is its qpos/qvel slices; an out-of-range cursor or a one-row matrix raises IndexError |
| Trajectories.Trajectory.GetNextSubTrajectory | mushroom_rl/environments/mujoco_envs/humanoids/trajectory.py:149-155 | the last row-0 sample is added to `x_dist`, then the argument-less reset raises TypeError (IndexError on an empty trajectory) |
| Trajectories.Trajectory.GetNextSample | mushroom_rl/environments/mujoco_envs/humanoids/trajectory.py:197-202 | with the cursor in range: returns the working copy's column at the cursor and advances the cursor by exactly 1, leaving everything else unchanged; at or past the end: fails through the broken wraparound |
| Trajectories.GaitSubSteps | mushroom_rl/environments/mujoco_envs/humanoids/trajectory.py:157-167 | out-of-range split indices raise IndexError; with both in range, the extraction succeeds exactly when the start column sp[i] is a column index of the matrix, and raises IndexError otherwise; within bounds, the result is columns [sp[i], sp[i+n]) with row 0 shifted to start at 0 and the other rows copied |
| Trajectories.ShiftedColumns | mushroom_rl/environments/mujoco_envs/humanoids/trajectory.py:164-166 | within bounds the slice is the segment [s, e) of the matrix with row 0 shifted by its value at s |
| Trajectories.GaitSubStepsTile | mushroom_rl/environments/mujoco_envs/humanoids/trajectory.py:157-167 | the segment of a + b cycles from cycle i is the segment of a cycles followed by that of the next b cycles, with row 0 of the second carried on from where the first ended |
| Trajectories.GaitSegment | mushroom_rl/environments/mujoco_envs/humanoids/trajectory.py:157-167 | with split points inside the matrix the extraction succeeds with the segment [sp[i], sp[i+n]) |
| Trajectories.SegmentsTile | mushroom_rl/environments/mujoco_envs/humanoids/trajectory.py:164-166 | adjacent segments [s, t) and [t, e) concatenate to the segment [s, e), row 0 re-based |
| Trajectories.DictSet | mushroom_rl/environments/mujoco_envs/humanoids/trajectory.py:102 | assigning a new key appends the pair at the end; assigning an existing key replaces the pair at that key's first position and changes nothing else |
| Trajectories.ZipDictDistinct | mushroom_rl/environments/mujoco_envs/humanoids/trajectory.py:102 | `ZipDict` (`dict(zip(keys, values))`, built by successive assignments): zipping distinct keys with values gives a dict whose keys and values are those sequences, in order |
| Trajectories.DictDelete | mushroom_rl/environments/mujoco_envs/humanoids/trajectory.py:103-104 | `del` succeeds exactly when the key is present, and then removes the pair at the key's first position, keeping the order of the others, so the keys lose exactly one copy of it; otherwise KeyError |
| Trajectories.DictDeleteEach | mushroom_rl/environments/mujoco_envs/humanoids/trajectory.py:103-104 | the deletions succeed exactly when the deleted keys are a sub-multiset of the dict's keys (otherwise KeyError); the keys left plus the deleted ones are the original keys, and every pair left is a pair of the dict |
| Trajectories.Transpose | mushroom_rl/environments/mujoco_envs/humanoids/trajectory.py:106 | the time-major states are the matrix's columns |
| Trajectories.Pairs | mushroom_rl/environments/mujoco_envs/humanoids/trajectory.py:116-120 | states, next_states and absorbing all have length T - 1; next_states[t] is states[t + 1]; absorbing is all zero |
| Trajectories.PairsOfRows | mushroom_rl/environments/mujoco_envs/humanoids/trajectory.py:105-120 | the dataset of transposed (and normalised) rows has states and next states that are consecutive columns of the rows, T - 1 of each, with absorbing all zero; `Normalize` applies the normaliser to every state and keeps their number |
| Trajectories.CreateDataset | mushroom_rl/environments/mujoco_envs/humanoids/trajectory.py:99-120 | the dataset is built exactly when every ignored key can be deleted, otherwise KeyError; it is built from the rows left after the deletions: states[t] is column t of those rows (normalised when a normaliser is given), next_states[t] is column t + 1, there are T - 1 of each, and absorbing is all zero |
| Trajectories.DictValuesAreRows | mushroom_rl/environments/mujoco_envs/humanoids/trajectory.py:102-105 | after the deletions every remaining value is a full-length row of the matrix |
| Trajectories.CreateDatasetColumns | mushroom_rl/environments/mujoco_envs/humanoids/trajectory.py:99-120 | with distinct keys, nothing ignored and no normaliser, state t is column t of the trajectory and its successor is column t + 1, for T - 1 pairs |
| Trajectories.CreateTripletDataset | mushroom_rl/environments/mujoco_envs/humanoids/trajectory.py:122-139 | the call succeeds exactly when a normaliser is given; without one it raises UnboundLocalError; with one, the three sequences have length T - 2 and hold consecutive normalised states |
| Humanoid.SelectGoalReward | mushroom_rl/environments/mujoco_envs/humanoids/base_humanoid.py:45-51 | "custom" selects CustomReward (TypeError without parameters), no name selects NoGoalReward, and any other name raises NotImplementedError, each as an if-and-only-if |
| Humanoid.ActionScaling | mushroom_rl/environments/mujoco_envs/humanoids/base_humanoid.py:56-59 | mean - delta is the original low and mean + delta the original high, entry by entry |
| Humanoid.PreprocessActionMapsBox | mushroom_rl/environments/mujoco_envs/humanoids/base_humanoid.py:107-109 | `PreprocessAction` (`action * delta + mean`) de-normalises: maps -1 to low, +1 to high and 0 to the midpoint, and keeps actions in [-1, 1] inside [low, high] |
| Humanoid.ObservationSpace | mushroom_rl/environments/mujoco_envs/humanoids/base_humanoid.py:72-82 | the bounds are the simulator's bounds without their first two entries, then 12 infinite ground-force slots and one infinite slot per goal-observation entry |
| Humanoid.CreateObservation | mushroom_rl/environments/mujoco_envs/humanoids/base_humanoid.py:84-93 | the observation is obs[2:], then the mean ground forces divided by 1000, then the goal observation, of length \|obs\| - 2 + 12 + \|goal\| |
| Humanoid.ObservationFitsSpace | mushroom_rl/environments/mujoco_envs/humanoids/base_humanoid.py:72-93 | the observation and both bounds have the same length for the same goal reward |
| Humanoid.CountPrefixed | mushroom_rl/environments/mujoco_envs/humanoids/base_humanoid.py:228-229 | the count is 0 exactly when no key has the prefix, and the number of keys exactly when all have it |
| Humanoid.LenQposQvel | mushroom_rl/environments/mujoco_envs/humanoids/base_humanoid.py:226-230 | the two lengths count the "q_" and "dq_" keys, and together they are at most the number of keys |
| Humanoid.LenQposQvelDisjoint | mushroom_rl/environments/mujoco_envs/humanoids/base_humanoid.py:226-230 | no key has both prefixes, so the two counts add up to at most the number of keys |
| Humanoid.BaseHumanoid.Create | mushroom_rl/environments/mujoco_envs/humanoids/base_humanoid.py:29-70 | a dispatch error leaves the action arrays untouched; otherwise they are all -1 and +1 in place, mean and delta keep the original box and the observation bounds are built; construction succeeds exactly when no trajectory parameters are given or the trajectory loads (`LoadParams`: `Trajectory(keys, **traj_params)`), a loading error is passed on unchanged, and a trajectory, present exactly when parameters are given, holds the loaded keys, matrix, split points and repeat count with cursor and `x_dist` 0 |
| Humanoid.BaseHumanoid.Setup | mushroom_rl/environments/mujoco_envs/humanoids/base_humanoid.py:99-105 | without a trajectory nothing changes; with one, it is reset at a random step in the first 45% and its qpos/qvel become the simulator state; a trajectory with fewer than two rows or no columns raises IndexError and leaves the simulator state unchanged |
| Humanoid.BaseHumanoid.CreateDataset | mushroom_rl/environments/mujoco_envs/humanoids/base_humanoid.py:136-141 | ValueError exactly when no trajectory was configured; otherwise the trajectory's own dataset |
| RewardGoals.Observation | mushroom_rl/environments/mujoco_envs/humanoid_gaitv2/reward_goals/reward.py:49-57 | the default observation is empty |
| RewardGoals.ObservationSpaceFor | mushroom_rl/environments/mujoco_envs/humanoid_gaitv2/reward_goals/reward.py:38-47 | the default bounds are -inf and +inf, one per observation entry |
| RewardGoals.IsAbsorbing | mushroom_rl/environments/mujoco_envs/humanoid_gaitv2/reward_goals/reward.py:59-67 | the default is never absorbing |
| RewardGoals.Call | mushroom_rl/environments/mujoco_envs/humanoid_gaitv2/reward_goals/reward.py:23-36 | the interface raises NotImplementedError, NoGoalReward returns 0, and CustomReward returns the callback's value, or None exactly when there is no callback |
| RewardGoals.VelocityTargetReward | mushroom_rl/environments/mujoco_envs/humanoid_gaitv2/reward_goals/reward.py:161-163 | min(0.01 / (\|v - g\| + 1e-6), 1) lies in (0, 1] and is 1 exactly when \|v - g\| <= 0.01 - 1e-6 |
| RewardGoals.ChangingVelocityCall | mushroom_rl/environments/mujoco_envs/humanoid_gaitv2/reward_goals/reward.py:161-168 | the reward reads the velocity at index 16, and a shorter state raises IndexError |
| RewardGoals.CycleValue | mushroom_rl/environments/mujoco_envs/humanoid_gaitv2/reward_goals/reward.py:149 | the cycle over range(N) always yields a valid plateau index |
| RewardGoals.ChangingVelocityTargetReward.constructor | mushroom_rl/environments/mujoco_envs/humanoid_gaitv2/reward_goals/reward.py:142-149 | the target starts at 0.0 and the plateau cycle is fresh |
| RewardGoals.ChangingVelocityTargetReward.GetObservation | mushroom_rl/environments/mujoco_envs/humanoid_gaitv2/reward_goals/reward.py:170-171 | the observation is the current target velocity alone |
| RewardGoals.ChangingVelocityTargetReward.ResetState | mushroom_rl/environments/mujoco_envs/humanoid_gaitv2/reward_goals/reward.py:173-190 | the plateau is drawn at random, or is the value after advancing the cycle `n_skip_targets` times; the target becomes that plateau's velocity; without random starts the reset succeeds with no start step whenever the plateau index is bound; with them, an index past the chunks raises IndexError, an empty chunk ValueError, and otherwise the start step is the chunk's entry at int(r * len); randint(0), StopIteration and the unbound index are error outcomes that keep the target |
| RewardGoals.ResetRepeatedly | mushroom_rl/environments/mujoco_envs/humanoid_gaitv2/reward_goals/reward.py:149-182 | m resets of a reward that iterates through its plateaus without random starts all succeed, consume m * n_skip_targets values of the fresh cycle, and leave the target at plateau (m * n_skip_targets - 1) mod N |
| RewardGoals.RotateRight | mushroom_rl/environments/mujoco_envs/humanoid_gaitv2/reward_goals/reward.py:273 | `rotate(1)` keeps the length and the elements, moves the last element to the front and shifts the others right by one |
| RewardGoals.RotateRightTimesAt | mushroom_rl/environments/mujoco_envs/humanoid_gaitv2/reward_goals/reward.py:272-273 | k rotations put the last k elements in front, in order, followed by the first \|s\| - k |
| RewardGoals.RotateRightFullCycle | mushroom_rl/environments/mujoco_envs/humanoid_gaitv2/reward_goals/reward.py:272-276 | N rotations of a length-N profile restore it |
| RewardGoals.VelocityProfileReward.constructor | mushroom_rl/environments/mujoco_envs/humanoid_gaitv2/reward_goals/reward.py:257-258 | the profile is the given values, in order |
| RewardGoals.VelocityProfileReward.UpdateState | mushroom_rl/environments/mujoco_envs/humanoid_gaitv2/reward_goals/reward.py:272-273 | the profile is rotated right by one |
| RewardGoals.VelocityProfileReward.GetObservation | mushroom_rl/environments/mujoco_envs/humanoid_gaitv2/reward_goals/reward.py:275-276 | the observation is the front of the profile; an empty profile raises IndexError |
| RewardGoals.VelocityProfileReward.ResetState | mushroom_rl/environments/mujoco_envs/humanoid_gaitv2/reward_goals/reward.py:278-279 | the profile becomes the freshly reset values |
| RewardGoals.ClipRange | mushroom_rl/environments/mujoco_envs/humanoid_gaitv2/reward_goals/reward.py:349 | every clipped range is at least 0.15, and equals the original exactly when that was already at least 0.15 |
| RewardGoals.InitialImportance | mushroom_rl/environments/mujoco_envs/humanoid_gaitv2/reward_goals/reward.py:351 | each importance is twice its range where the range is below 0.15, and 1 everywhere else |
| RewardGoals.ClippedImportanceIsOne | mushroom_rl/environments/mujoco_envs/humanoid_gaitv2/reward_goals/reward.py:349-351 | on the clipped range the `< 0.15` branch never fires: every initial importance is 1 |
| RewardGoals.ScaleSlice | mushroom_rl/environments/mujoco_envs/humanoid_gaitv2/reward_goals/reward.py:352-354 | `w[a:b] *= f` scales exactly the entries in [a, b) and keeps the rest |
| RewardGoals.JointImportance | mushroom_rl/environments/mujoco_envs/humanoid_gaitv2/reward_goals/reward.py:351-357 | the final weights have 29 entries |
| RewardGoals.JointImportanceOnClippedRange | mushroom_rl/environments/mujoco_envs/humanoid_gaitv2/reward_goals/reward.py:349-357 | on the clipped range the weights are 12 of 1.0, then 11 of 0.1, then 6 of 5.0 (`FinalWeights`) |
| RewardGoals.ReducedRange | mushroom_rl/environments/mujoco_envs/humanoid_gaitv2/reward_goals/reward.py:359-360 | the reduced range is entries [2, 14) followed by [17, 34): 29 entries |
| RewardGoals.ErrorRescale | mushroom_rl/environments/mujoco_envs/humanoid_gaitv2/reward_goals/reward.py:372-373 | 1 + (n - 1) / 0.20 maps 1 to 1 and 0.8 to 0; it is negative exactly below 0.8 and at most 1 exactly when n is at most 1 |
| RewardGoals.DotBounds | mushroom_rl/environments/mujoco_envs/humanoid_gaitv2/reward_goals/reward.py:366-367 | component rewards in [0, 1] with non-negative weights give a weighted sum between 0 and the weight total |
| RewardGoals.NormalizedRewardBounds | mushroom_rl/environments/mujoco_envs/humanoid_gaitv2/reward_goals/reward.py:366-367 | the weighted mean `NormalizedReward` (`np.sum(c * w) / np.sum(w)`) of component rewards in [0, 1] lies in [0, 1] |
| RewardGoals.FinalWeightsPositive | mushroom_rl/environments/mujoco_envs/humanoid_gaitv2/reward_goals/reward.py:355-357 | every final weight is positive, so their sum (the divisor of the mean) is positive |
| RewardGoals.SumPositive | mushroom_rl/environments/mujoco_envs/humanoid_gaitv2/reward_goals/reward.py:366-367 | a non-empty sequence of positive weights has a positive sum |
| RewardGoals.CompleteTrajectoryReward.constructor | mushroom_rl/environments/mujoco_envs/humanoid_gaitv2/reward_goals/reward.py:342-360 | the flag starts cleared; the weights and the reduced range are built from the clipped spread |
| RewardGoals.CompleteTrajectoryReward.Call | mushroom_rl/environments/mujoco_envs/humanoid_gaitv2/reward_goals/reward.py:362-374 | the reward is the weighted mean, rescaled under error termination; the flag latches when error termination is on and the mean drops below 0.8, and a set flag stays set; under error termination the reward is negative exactly when the flag condition holds |
| RewardGoals.CompleteTrajectoryReward.IsAbsorbing | mushroom_rl/environments/mujoco_envs/humanoid_gaitv2/reward_goals/reward.py:406-407 | absorbing is the flag |
| RewardGoals.CompleteTrajectoryReward.ResetState | mushroom_rl/environments/mujoco_envs/humanoid_gaitv2/reward_goals/reward.py:409-411 | reset clears the flag; it is the only operation that does |
| ObsHiding.AsNames | mushroom_rl/environments/gym_mujoco_pomdp/ant_v3.py:10-11 | a single string is wrapped into a one-element tuple; a collection is kept |
| ObsHiding.ValidateHide | mushroom_rl/environments/gym_mujoco_pomdp/ant_v3.py:12-16 | AssertionError exactly when every hidable part is named or some name is not hidable; otherwise the names are kept |
| ObsHiding.AcceptsPartialHide | mushroom_rl/environments/gym_mujoco_pomdp/half_cheetah_v3.py:12-16 | naming only hidable parts and leaving one out is accepted |
| AntPomdp.Create | mushroom_rl/environments/gym_mujoco_pomdp/ant_v3.py:7-16 | construction succeeds exactly for an allowed hide request, keeps its names, and fails with AssertionError when all three parts are hidden |
| AntPomdp.DefaultAccepted | mushroom_rl/environments/gym_mujoco_pomdp/ant_v3.py:7 | the default hides only the velocities and is accepted |
| AntPomdp.GetObsParts | mushroom_rl/environments/gym_mujoco_pomdp/ant_v3.py:19-35 | the observation `GetObs` is the shown positions (without x, y under the exclude flag), then the shown velocities, then the shown contact forces, and its length is the sum of the shown parts' lengths |
| AntPomdp.SomePartShown | mushroom_rl/environments/gym_mujoco_pomdp/ant_v3.py:12 | an accepted configuration always shows at least one part |
| HalfCheetahPomdp.HalfCheetahEnv.Create | mushroom_rl/environments/gym_mujoco_pomdp/half_cheetah_v3.py:7-20 | construction succeeds exactly for an allowed hide request and starts with no push and the given forward-reward weight |
| HalfCheetahPomdp.HalfCheetahEnv.ResetModel | mushroom_rl/environments/gym_mujoco_pomdp/half_cheetah_v3.py:22-27 | without random pushes nothing changes and the push stays 0.0; with them the push is -max or +max, the forward-reward weight keeps its size, and it is non-positive for a negative push and non-negative otherwise |
| HalfCheetahPomdp.HalfCheetahEnv.GetObs | mushroom_rl/environments/gym_mujoco_pomdp/half_cheetah_v3.py:34-46 | the observation is the shown positions (without x under the exclude flag) followed by the shown velocities |
| HalfCheetahPomdp.DefaultAccepted | mushroom_rl/environments/gym_mujoco_pomdp/half_cheetah_v3.py:7 | the default hides only the velocities and is accepted |
| HalfCheetahPomdp.HidingBothRefused | mushroom_rl/environments/gym_mujoco_pomdp/half_cheetah_v3.py:12 | hiding both positions and velocities raises AssertionError |

## Left out

- **File loading.** `np.load` of the trajectory archive and `pickle.load` of the goal data are left out. The loaded archive and goal data are inputs.
- **Interpolated values.** The values of scipy's cubic interpolation are not modelled. They come from an abstract sampler; only the resampled shape and the split-point rounding are modelled.
- **The `int32` cast of the split points** is not modelled. Split points are unbounded integers.
- **Key-list aliasing.** Construction extends and removes from the caller's `keys` list in place. The model computes a new sequence and does not capture that aliasing.
- **Normaliser statistics.** The normaliser's statistics (`set_state` with the mean and standard deviation) are not modelled. The normaliser is an arbitrary function applied to each state.
- **Transcendental rewards.** The exponential rewards are not modelled: `VelocityProfileReward.__call__` and `CompleteTrajectoryReward._calculate_each_comp_reward`. Nor is the quaternion-to-Euler conversion. `CompleteTrajectoryReward.Call` takes the component rewards as input, and the constructor takes the spread of the Euler trajectory as input.
- **Floating point.** Values are reals, so there is no NaN, infinity or rounding error. `np.pi` is its decimal literal.
- **HumanoidTrajectory is not part of this model.** The goal rewards inherit from it, so several parts are left out:
  - `CompleteTrajectoryReward.update_state` and `get_observation`;
  - the trajectory reset inside `reset_state`;
  - `ChangingVelocityTargetReward`'s `reset_trajectory(ind_state)` (its step is returned instead);
  - `NoGoalRewardRandInit` and `MaxVelocityReward`.
- **The mean-velocity statistic is left out.** This is the running mean `RunningExpWeightedAverage`, together with the messages printed when not silent and the keyboard controller.
- **humanoids/reward.py is not part of this model.** It is where the base environment's NoGoalReward and CustomReward come from. The model uses the gait interface's defaults for them, and takes the goal observation as a parameter. The `goal_reward.reset_state()` call in `setup` is left out.
- **MuJoCo and gym interaction is left out:**
  - the simulation step and rendering;
  - `_simulation_post_step` and the ground-force running window (its mean is a parameter of `CreateObservation`);
  - `has_fallen`, `is_absorbing` and `reward` of the base environment;
  - the cheetah's `step`, which writes the push into `xfrc_applied`;
  - the gym base constructors and `get_all_observation_keys` (keys are a parameter);
  - the infinite `play_trajectory_demo` loops.
- **Ragged archives.** Rows of different lengths raise ValueError, as `np.array` does in current numpy; older numpy built an object array instead.
- **Random draws.** `np.random.randint(n)` is modelled as `int(r * n)` for a uniform r in [0, 1), not as numpy's generator.
- Humanoid.PreprocessAction: requires equal lengths of action, mean and delta; numpy broadcasting of other shapes is not modelled.
- Humanoid.BaseHumanoid.Create: `traj_params` is an `Option`: an absent or empty dict is `None`, which the source also treats as no trajectory. A non-empty dict that lacks a required argument of `Trajectory` (a TypeError in Python) is not modelled; the parameters are a record with every argument.
- RewardGoals.CompleteTrajectoryReward.constructor: requires at least 34 channels in the spread, so that the slices up to 34 are full. Shorter spreads, whose numpy slices would silently come out short, are not modelled.
- RewardGoals.RotateRightTimes: its own contract states only the length; the element positions are stated by RotateRightTimesAt.
