# HANP local planner — a Dafny model

This project models `HANPLocalPlanner`, the human-aware local planner plugin for the ROS
navigation stack. The plugin is built on base_local_planner. A navigation server
initialises it once and then uses it in four ways:

- It hands the plugin a global plan.
- It asks whether the goal is reached.
- It calls it once per control cycle for a velocity command.
- It delivers dynamic-reconfigure configurations to it.

In each cycle the plugin copies the transformed plan into its own storage and retargets its
critics. Five critics are weighted: path, goal, goal-front, alignment and obstacle. Then
exactly one of two branches produces the command:

- the latched stop-rotate controller, once the goal position is reached;
- the scored sampling search over forward-simulated trajectories, otherwise.

The model has four modules, one per file:

- `PlannerTypes` (`types.dfy`) holds the value types. These are poses, velocities,
  trajectories, the configuration record, the limits, the critics' state and the
  oscillation flags.
- `Configuration` (`configuration.dfy`) holds the pure part of the reconfiguration
  callback. It covers the set-up / restore-defaults latch, the coercion of sample counts
  with their write-back, and the critic weights. It also holds the simulation period
  chosen at initialisation, together with lemmas about whole runs of callbacks.
- `CostRules` (`cost_rules.dfy`) holds the straight-line rules. These are the cost
  breakdown of one cost-grid cell, the alignment activation threshold, the goal-front
  shift, and the command derived from the winning trajectory. It also holds the two
  copy loops: the plan copy and the conversion of the winning trajectory into the local
  path.
- `LocalPlanner` (`planner.dfy`) holds the plugin itself as the class `Planner`. Its
  fields are the ones the source updates in place. There is one method per entry point.
  Each is proved against the pure functions above where the source computes something
  itself. `SetPlan`, `IsGoalReached`, `CheckTrajectory` and `StopRotate` are stated against
  the collaborator oracles alone, because they only forward a collaborator's answer.
  Every method names exactly the fields it may change in its `modifies` frame.

base_local_planner's collaborators are not modelled; their results are taken as given.
These are the planner utility, the latched stop-rotate controller, the trajectory
generator, the scored sampling planner, the oscillation critic's update and the
trigonometry of the goal-front shift. They appear as function-valued fields of a
`Library` value. Each contract names the query that each collaborator receives, and the
query carries the planner state that collaborator reads. The generator also receives its
simulation parameters, the oscillation update receives the reset distance and angle, and
the stop-rotate controller receives the caller's command, which it may leave as it is.
Readings of TF, the costmap and odometry are parameters: a success flag together with
the value read.

## Model

| member | source | states |
|---|---|---|
| `Configuration.CoerceSamples` | src/hanp_local_planner.cpp:120-139 | the count used is at least one; a positive request is kept, and a non-positive one becomes exactly one |
| `Configuration.WriteBack` | src/hanp_local_planner.cpp:115-139 | the configuration written back differs from the effective one only in the three sample counts. Each count equals the request when the request was positive and is exactly one otherwise |
| `Configuration.WriteBackIdempotent` | src/hanp_local_planner.cpp:120-139 | writing back an already written-back configuration changes nothing |
| `Configuration.SampleCounts` | src/hanp_local_planner.cpp:141-143 | the generator receives three sample counts, in the order x, y, theta. Each is the configured count when that is positive and one otherwise |
| `Configuration.Effective` | src/hanp_local_planner.cpp:60-64 | a restore request after set-up applies the stored defaults with the restore flag cleared; otherwise the incoming configuration is applied as it is. Once set up, the configuration applied never carries a restore request |
| `Configuration.Step` | src/hanp_local_planner.cpp:60-69 | after any callback the planner is set up. A set-up latch never changes. The first callback stores its configuration as the defaults. A restore request after set-up applies the stored defaults with the restore flag cleared; any other callback applies the incoming configuration |
| `Configuration.SetUpIsStable` | src/hanp_local_planner.cpp:65-69 | once set up, no sequence of later callbacks alters the latch or the stored defaults |
| `Configuration.DefaultsAreFirstConfig` | src/hanp_local_planner.cpp:65-69 | after any non-empty run of callbacks, the stored defaults are the very first configuration received |
| `Configuration.RestoreBringsBackFirstConfig` | src/hanp_local_planner.cpp:60-64 | a restore request after any history applies the first configuration ever received, with the restore flag cleared and its counts coerced |
| `Configuration.WrittenCountsPositive` | src/hanp_local_planner.cpp:115-143 | over a run of callbacks there is one write-back per callback, and every one asks for at least one sample on each axis |
| `Configuration.WriteBackIsFixedPoint` | src/hanp_local_planner.cpp:60-143 | feeding a written-back configuration in again (without a restore request) gives the same latch state and the same write-back |
| `Configuration.CriticWeights` | src/hanp_local_planner.cpp:96-106 | the path and alignment weights are resolution × path bias × 0.5. The goal and goal-front weights are resolution × goal bias × 0.5, and the obstacle weight is resolution × occupancy bias. All are non-negative for non-negative resolution and biases |
| `Configuration.SimPeriod` | src/hanp_local_planner.cpp:174-192 | the simulation period is always positive. It is the reciprocal of a found, positive controller frequency, and 0.05 s when the parameter is missing or not positive |
| `CostRules.GetCellCosts` | src/hanp_local_planner.cpp:448-464 | a cell is rejected if and only if its path cost is one of the path critic's two sentinels or its occupancy is at least 253 (inscribed inflated obstacle). A rejected cell leaves the total unchanged; an accepted cell's total is the bias-weighted sum of path, goal and occupancy costs |
| `CostRules.CellTotalUsesCriticWeights` | src/hanp_local_planner.cpp:460-462 | an accepted cell's total equals twice the path critic weight times the path cost, plus twice the goal critic weight times the goal cost, plus the occupancy bias times the occupancy. Path and goal are thus weighted at twice the critic weights, and occupancy at the bias alone, without the obstacle critic's resolution factor. So the cost grid does not show the planner's own weighting |
| `CostRules.SquaredDistance` | src/hanp_local_planner.cpp:500-501 | the squared robot-to-goal distance is non-negative and zero at the goal |
| `CostRules.AlignmentActive` | src/hanp_local_planner.cpp:512 | the alignment test of line 512. With a non-positive cheat factor it holds whenever the robot is off the goal; with a non-negative one it fails at zero distance |
| `CostRules.AlignmentScale` | src/hanp_local_planner.cpp:512-522 | beyond the threshold the alignment weight is the path weight; within it the weight is zero |
| `CostRules.AlignmentThresholdMonotone` | src/hanp_local_planner.cpp:512 | moving farther from the goal never switches alignment off |
| `CostRules.AlignmentOffAtGoal` | src/hanp_local_planner.cpp:500-512 | at the goal position alignment is off for any non-negative cheat factor |
| `CostRules.FrontPlan` | src/hanp_local_planner.cpp:503-510 | the goal-front target plan has the plan's length and agrees with it everywhere but the last pose. That pose keeps its heading and is offset by the forward-point distance along the robot-to-goal direction |
| `CostRules.DriveCommand` | src/hanp_local_planner.cpp:583-594 | a negative-cost winner gives the identity (zero) command; any other winner gives its own velocity |
| `CostRules.Resized` | src/hanp_local_planner.cpp:487 | resizing keeps the requested length and every old element still in range |
| `CostRules.CopyPlan` | src/hanp_local_planner.cpp:487-491 | after the resize and the index-by-index loop, the stored plan is exactly the new plan |
| `CostRules.TrajectoryToPath` | src/hanp_local_planner.cpp:361-372 | the local path has one pose per trajectory point, in order, each stamped with the global frame |
| `LocalPlanner.TowardGoal` | src/hanp_local_planner.cpp:504-508 | definition, not a proved property: the goal-front direction is the oracle's (cos, sin) of the angle of the goal's offset from the robot, taken y first as atan2 takes it |
| `LocalPlanner.SearchWinner` | src/hanp_local_planner.cpp:535-544 | definition, not a proved property: the search is set up from the robot pose and velocity, the plan's last pose, the limits, the sample counts and the generator parameters. It runs the critics in their registration order and starts from the previous result record with its cost preset to -7 |
| `LocalPlanner.RetargetedCritics` | src/hanp_local_planner.cpp:493-522 | path and goal critics target the plan, and the goal-front critic targets the shifted plan. The alignment critic is weighted and retargeted if and only if the robot is beyond the threshold; otherwise its weight is zero and its targets are kept. Nothing else changes |
| `LocalPlanner.RetargetingIsIdempotent` | src/hanp_local_planner.cpp:493-522 | retargeting twice from the same pose with the same plan is the same as retargeting once |
| `LocalPlanner.Planner.constructor` | src/hanp_local_planner.cpp:146 | a new planner is neither initialised nor set up |
| `LocalPlanner.Planner.Initialize` | src/hanp_local_planner.cpp:148-243 | a second call changes nothing. A first call reads the pose, builds the critics with goal-front and alignment not vetoing, and sets the simulation period to `SimPeriod`. It also clears the oscillation flags, sets the cheat factor (default 1.0) and the sum-scores flag (default false), and marks the planner initialised |
| `LocalPlanner.Planner.ReconfigureCB` | src/hanp_local_planner.cpp:56-144 | the latch and the written-back configuration are `Configuration.Step`'s. The stored sample counts are the coerced counts, equal to the written-back ones. Limits, generator parameters, biases and the critic weights, shifts and obstacle parameters come from the effective configuration |
| `LocalPlanner.Planner.Applied` | src/hanp_local_planner.cpp:71-113 | the state reconfigureCB leaves for an effective configuration: limits, generator parameters and biases from the configuration, and critic weights from `Configuration.CriticWeights`. It implies the path and alignment weights agree, the goal and goal-front weights agree, and both shifts equal the forward-point distance |
| `LocalPlanner.Planner.LatchConfig` | src/hanp_local_planner.cpp:60-69 | the configuration applied and the latch left agree with `Configuration.Effective` and `Configuration.Step` |
| `LocalPlanner.Planner.ApplyConfig` | src/hanp_local_planner.cpp:71-113 | every setting and critic parameter reconfigureCB derives is set from the effective configuration. The five critic weights are `Configuration.CriticWeights` of the configuration and the costmap resolution |
| `LocalPlanner.Planner.StoreSampleCounts` | src/hanp_local_planner.cpp:115-143 | the configuration returned is the write-back of the given one, and the sample array holds the three coerced counts |
| `LocalPlanner.Planner.SetPlan` | src/hanp_local_planner.cpp:245-259 | before initialisation the call fails and changes nothing. Otherwise it clears the latch and the oscillation flags, stores the plan in the utility, and returns the utility's answer |
| `LocalPlanner.Planner.IsGoalReached` | src/hanp_local_planner.cpp:261-283 | false and no change before initialisation. Otherwise the pose is read; a failed reading gives false with the latch kept, and a good one gives the controller's answer and latch, asked with the utility's stored plan |
| `LocalPlanner.Planner.CheckTrajectory` | src/hanp_local_planner.cpp:466-482 | the oscillation flags are cleared; the sample is accepted if and only if the trajectory generated towards the plan's last pose scores non-negatively |
| `LocalPlanner.Planner.UpdatePlanAndLocalCosts` | src/hanp_local_planner.cpp:484-523 | the stored plan becomes the new plan and the critics are `RetargetedCritics` of the old ones, with the goal direction taken from the oracle |
| `LocalPlanner.Planner.FindBestPath` | src/hanp_local_planner.cpp:525-597 | the footprint is handed to the obstacle critic, and the result is the search winner from the result record preset to cost -7. The oscillation flags are updated with the winner and the minimum translational velocity, and the command is `DriveCommand` of the winner |
| `LocalPlanner.Planner.HanpComputeVelocityCommands` | src/hanp_local_planner.cpp:305-385 | before initialisation the call fails with the command untouched and nothing changed. Otherwise the command is the search's, and success holds if and only if the winner is feasible. On success the local path converts the winner's points, and on failure it is empty |
| `LocalPlanner.Planner.StopRotate` | src/hanp_local_planner.cpp:426-429 | the stop-rotate controller receives the caller's command, which it may overwrite or leave as it is. Its answer, command and latch are taken as they are, and the flags are cleared when it probed a trajectory |
| `LocalPlanner.Planner.RunCycle` | src/hanp_local_planner.cpp:408-445 | the stored plan becomes the given plan and the critics are retargeted. Then exactly one of stop-rotate or search produces the command and the verdict, each seeing the retargeted critics |
| `LocalPlanner.Planner.ChooseController` | src/hanp_local_planner.cpp:410-445 | exactly one of two branches runs. When the position is reached, the stop-rotate controller runs and critics and result stay. Otherwise the search runs, and success holds if and only if its winner is feasible |
| `LocalPlanner.Planner.ComputeVelocityCommands` | src/hanp_local_planner.cpp:387-446 | the pose is always recorded. A failed pose lookup, a missing local plan or an empty local plan fails the cycle: the command is untouched, and the plan, critics, flags, latch and result are unchanged. Otherwise the stored plan becomes the local plan, the critics are retargeted, and exactly one of stop-rotate or search produces the command and the verdict |
| `PlannerTypes.LimitsOf` | src/hanp_local_planner.cpp:71-88 | definition, not a proved property: every limit is copied from the configuration field of the same name |
| `PlannerTypes.AccLimits` | src/hanp_local_planner.cpp:426-428 | definition, not a proved property: the acceleration limits handed to the stop-rotate controller are the x, y and theta acceleration limits |
| `PlannerTypes.ResetOscillation` | src/hanp_local_planner.cpp:257 | every axis lock of the oscillation guard is cleared and the lock pose is kept |
| `PlannerTypes.ResetOscillationIdempotent` | src/hanp_local_planner.cpp:257 | clearing the oscillation flags twice is the same as clearing them once |

## Left out

- The base_local_planner collaborators are oracles (fields of `Library`). These are LocalPlannerUtil, LatchedStopRotateController, the trajectory generator, SimpleScoredSamplingPlanner, the map-grid, obstacle and oscillation critics, and the odometry helper. Their own algorithms and internal state are outside the plugin.
- The planner utility keeps its own copy of the limits and its own restore-defaults latch (line 89), and the generator keeps its initialise state (lines 473, 539). Neither is modelled separately; the model passes the limits and settings it holds to every query.
- The plan the utility stores at line 258 is the field `utilPlan`. It goes into the three stop-rotate controller calls that read their goal from it: lines 274, 410 and 427. The utility's transformation of that plan into the local plan (`getLocalPlan`, line 395) is the `localPlan` parameter of `ComputeVelocityCommands`.
- The stop-rotate controller calls checkTrajectory (line 429) an unknown number of times. The model does not keep those calls. It keeps only their one visible effect on the planner, the clearing of the oscillation flags, as the `probed` flag of the outcome.
- Publishing is left out: the global and local plans, the point-head target, the trajectory point cloud and the cost grid (lines 345-354, 374-382, 414-424, 436-442, 546-579). These are outputs with no effect on the planner's state.
- Reading `local_plan.back()` (lines 379-380) is part of the point-head publication and is not modelled, so a feasible winner with no points is not examined.
- Three node-handle parameter lookups are parameters of `Initialize`: controller_frequency, sum_scores and cheat_factor. `None` stands for a parameter that is not found.
- The other node-handle lookups are not modelled: odom_topic (lines 228-231), publish_cost_grid_pc and publish_traj_pc (lines 201, 210) and global_frame_id (line 205). They feed only the odometry helper's topic and the publication left out above. The topic advertisements (lines 153-155, 209) are not modelled either.
- Creating the dynamic-reconfigure server and its first callback (lines 235-237) are not modelled. Callers invoke `ReconfigureCB` directly. The callback's `level` argument is ignored by the source and is not a parameter.
- Some members require an initialised planner, a non-empty stored plan, or both: `LocalPlanner.Planner.ReconfigureCB`, `ComputeVelocityCommands`, `RunCycle`, `ChooseController`, `HanpComputeVelocityCommands`, `CheckTrajectory`, `FindBestPath`, `StopRotate` and `UpdatePlanAndLocalCosts`. The source dereferences collaborators that only initialize creates, and reads `global_plan_.back()` without checking.
- The ROS log output is not modelled. This includes the warnings issued when a sample count is coerced (lines 122, 129, 136) or the controller frequency is ignored (line 189), and the errors at lines 249, 265 and 270.
- The mutex and the ROS threading are not modelled, and neither are the timing code, the plugin registration, allocation of the critics and the destructor.
- `LocalPlanner.Planner.FindBestPath`: the command's angular velocity is taken to be the winner's `thetav`. In the source, line 592 turns `thetav` into a quaternion and line 338 turns it back with getYaw, which wraps the angle into [-π, π]. So for |thetav| > π the source commands the wrapped angle: thetav = 4 gives about -2.28, a rotation in the opposite direction. The model does not capture this possible quirk of the source. How large `thetav` can get depends on max_rot_vel.
- `LocalPlanner.TowardGoal`: the goal-front offset uses the `unitToward` oracle for (cos, sin) of atan2, because trigonometry is not modelled.
- All floating-point quantities (`double`, `float`) are `real`, so rounding is not modelled. The costmap's occupancy is an integer below 256.
- `FreshCritics` stands for the library defaults of a newly constructed critic: unit scale, no targets, vetoing on failure.
- TF, costmap and odometry readings are parameters `PoseReading(ok, pose)`. A failed lookup still writes its pose into `currentPose`, as the source writes through its reference argument before the check. That check fails the cycle. It does not roll back the pose.
