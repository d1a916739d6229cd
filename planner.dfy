/** The HANP local planner plugin: one planner instance whose fields hold the stored
    plan, the configuration-derived settings, the critics' state, the oscillation flags
    and the stop-rotate latch, with one method per entry point of the plugin.

    Everything the plugin delegates to base_local_planner (the scored sampling planner,
    the trajectory generator, the critics' scoring, the oscillation update, the latched
    stop-rotate controller, the planner utility) and the trigonometry of the goal-front
    shift are oracles: fields of a `Library` value, whose results the model takes as given.
    Readings of TF, the costmap and odometry are parameters. */
module LocalPlanner {
  import opened PlannerTypes
  import Configuration
  import opened CostRules

  /** What the stop-rotate controller is asked when it decides whether the goal position
      is reached: its own latch, the robot pose, the current limits and the plan stored in
      the planner utility, whose last pose is the goal the controller reads. */
  datatype PositionQuery = PositionQuery(latched: bool, pose: Pose, limits: Limits, utilPlan: seq<Pose>)

  /** What it is asked when it decides whether the whole goal (position, heading, stop) is reached. */
  datatype GoalQuery = GoalQuery(latched: bool, pose: Pose, velocity: Velocity, limits: Limits, utilPlan: seq<Pose>)

  /** A controller answer together with the latch the controller leaves behind. */
  datatype GoalAnswer = GoalAnswer(reached: bool, latched: bool)

  /** Everything the stop-rotate command computation can see, including the caller's
      command, which it receives by reference and may leave as it is. */
  datatype RotateQuery = RotateQuery(
    latched: bool, pose: Pose, velocity: Velocity, accLimits: Velocity, simPeriod: real,
    limits: Limits, goal: Pose, critics: Critics, oscillation: OscillationFlags, vsamples: seq<int>,
    generator: GeneratorParams, utilPlan: seq<Pose>, cmd: Velocity)

  /** Its outcome: success, the command, the latch afterwards, and whether it ran the
      planner's single-trajectory feasibility check (which clears the oscillation flags). */
  datatype RotateOutcome = RotateOutcome(ok: bool, cmd: Velocity, latched: bool, probed: bool)

  /** Everything the scored sampling planner's search can see. */
  datatype SearchQuery = SearchQuery(
    setup: GeneratorSetup, critics: Critics, oscillation: OscillationFlags, order: seq<CriticKind>)

  /** The collaborators the plugin calls and does not define. */
  datatype Library = Library(
    utilSetPlan: seq<Pose> -> bool,                               // LocalPlannerUtil::setPlan
    goalReached: GoalQuery -> GoalAnswer,                          // LatchedStopRotateController::isGoalReached
    positionReached: PositionQuery -> GoalAnswer,                  // LatchedStopRotateController::isPositionReached
    stopRotate: RotateQuery -> RotateOutcome,                      // computeVelocityCommandsStopRotate
    findBest: (SearchQuery, Trajectory) -> Trajectory,             // SimpleScoredSamplingPlanner::findBestTrajectory
    // OscillationCostFunction::updateOscillationFlags: flags, pose, winner, minimum translational
    // velocity, and the critic's reset distance and reset angle
    updateOscillation: (OscillationFlags, Pose, Trajectory, real, real, real) -> OscillationFlags,
    generate: (GeneratorSetup, Velocity) -> Trajectory,            // generateTrajectory for one sample
    score: (Trajectory, Critics, OscillationFlags) -> real,        // SimpleScoredSamplingPlanner::scoreTrajectory
    unitToward: (real, real) -> (real, real))                      // (cos, sin) of atan2(dy, dx)

  /** The unit direction from the robot to the last pose of a plan. */
  function TowardGoal(lib: Library, pose: Pose, plan: seq<Pose>): (t: (real, real))
    requires |plan| > 0
    ensures t == lib.unitToward(plan[|plan| - 1].y - pose.y, plan[|plan| - 1].x - pose.x)
  {
    lib.unitToward(plan[|plan| - 1].y - pose.y, plan[|plan| - 1].x - pose.x)
  }

  /** The critics after the per-cycle retargeting: path and goal critics target the plan,
      the goal-front critic targets the plan with its goal shifted forward, and the
      alignment critic is weighted and retargeted only while the robot is far from the goal. */
  function RetargetedCritics(c: Critics, pose: Pose, plan: seq<Pose>, resolution: real, pdistScale: real,
                             forwardPointDistance: real, cheatFactor: real, toward: (real, real)): (r: Critics)
    requires |plan| > 0
    ensures r.pathTargets == plan && r.goalTargets == plan
    ensures r.goalFrontTargets == FrontPlan(plan, forwardPointDistance, toward)
    ensures AlignmentActive(SquaredDistance(pose, plan[|plan| - 1]), forwardPointDistance, cheatFactor) ==>
              r.alignmentScale == resolution * pdistScale * 0.5 && r.alignmentTargets == plan
    ensures !AlignmentActive(SquaredDistance(pose, plan[|plan| - 1]), forwardPointDistance, cheatFactor) ==>
              r.alignmentScale == 0.0 && r.alignmentTargets == c.alignmentTargets
    ensures r.(pathTargets := c.pathTargets, goalTargets := c.goalTargets, goalFrontTargets := c.goalFrontTargets,
               alignmentTargets := c.alignmentTargets, alignmentScale := c.alignmentScale) == c
  {
    var sqDist := SquaredDistance(pose, plan[|plan| - 1]);
    var r := c.(pathTargets := plan, goalTargets := plan, goalFrontTargets := FrontPlan(plan, forwardPointDistance, toward));
    if AlignmentActive(sqDist, forwardPointDistance, cheatFactor) then
      r.(alignmentScale := AlignmentScale(sqDist, forwardPointDistance, cheatFactor, resolution, pdistScale),
         alignmentTargets := plan)
    else
      r.(alignmentScale := AlignmentScale(sqDist, forwardPointDistance, cheatFactor, resolution, pdistScale))
  }

  /** Retargeting is idempotent: a second cycle from the same pose with the same plan
      leaves the critics exactly as the first one did. */
  lemma RetargetingIsIdempotent(c: Critics, pose: Pose, plan: seq<Pose>, resolution: real, pdistScale: real,
                                forwardPointDistance: real, cheatFactor: real, toward: (real, real))
    requires |plan| > 0
    ensures var once := RetargetedCritics(c, pose, plan, resolution, pdistScale, forwardPointDistance, cheatFactor, toward);
            RetargetedCritics(once, pose, plan, resolution, pdistScale, forwardPointDistance, cheatFactor, toward) == once
  {
  }

  /** The trajectory the scored sampling planner returns for one search, given the result
      record preset to the cost sentinel -7. */
  function SearchWinner(lib: Library, critics: Critics, oscillation: OscillationFlags, previous: Trajectory,
                        pose: Pose, velocity: Velocity, plan: seq<Pose>, limits: Limits, vsamples: seq<int>,
                        params: GeneratorParams): (w: Trajectory)
    requires |plan| > 0
    ensures w == lib.findBest(SearchQuery(GeneratorSetup(pose, velocity, plan[|plan| - 1], limits, vsamples, params),
                                          critics, oscillation, CriticOrder),
                              Trajectory(previous.xv, previous.yv, previous.thetav, -7.0, previous.points))
  {
    lib.findBest(SearchQuery(GeneratorSetup(pose, velocity, plan[|plan| - 1], limits, vsamples, params),
                             critics, oscillation, CriticOrder),
                 previous.(cost := -7.0))
  }

  class Planner {
    var initialized: bool
    var setup: bool
    var defaultConfig: Config
    /** Sample counts per axis (x, y, theta) given to the generator. */
    const vsamples: array<int>
    /** The limits last handed to the planner utility. */
    var limits: Limits
    var generatorParams: GeneratorParams
    var simTime: real
    var simPeriod: real
    var pdistScale: real
    var gdistScale: real
    var occdistScale: real
    var stopTimeBuffer: real
    var forwardPointDistance: real
    var cheatFactor: real
    var critics: Critics
    var oscillation: OscillationFlags
    /** The stop-rotate controller's latch. */
    var latched: bool
    var globalPlan: seq<Pose>
    /** The plan last handed to the planner utility, which the stop-rotate controller reads its goal from. */
    var utilPlan: seq<Pose>
    var currentPose: Pose
    var resultTraj: Trajectory

    ghost predicate Valid()
      reads this, vsamples
    {
      vsamples.Length == 3 &&
      (setup ==> initialized) &&
      (setup ==> forall i :: 0 <= i < 3 ==> vsamples[i] >= 1) &&
      (initialized ==> simPeriod > 0.0) &&
      critics.goalScale == critics.goalFrontScale &&
      (setup ==> critics.goalFrontXShift == forwardPointDistance && critics.alignmentXShift == forwardPointDistance)
    }

    /** A planner that is neither initialised nor configured. */
    constructor ()
      ensures Valid() && fresh(vsamples)
      ensures !initialized && !setup
      ensures !latched && globalPlan == [] && utilPlan == []
    {
      initialized := false;
      setup := false;
      defaultConfig := BlankConfig;
      vsamples := new int[3];
      limits := BlankLimits;
      generatorParams := BlankGeneratorParams;
      simTime, simPeriod := 0.0, 0.0;
      pdistScale, gdistScale, occdistScale := 0.0, 0.0, 0.0;
      stopTimeBuffer, forwardPointDistance, cheatFactor := 0.0, 0.0, 0.0;
      critics := FreshCritics;
      oscillation := OscillationFlags(Unlocked, Unlocked, Unlocked, Pose(0.0, 0.0, 0.0));
      latched := false;
      globalPlan := [];
      utilPlan := [];
      currentPose := Pose(0.0, 0.0, 0.0);
      resultTraj := BlankTrajectory;
    }

    /** initialize: on a first call, build the critics, choose the simulation period from
        the controller frequency (`frequency` is None when the parameter is not found),
        clear the oscillation flags and read the cheat factor (default 1.0) and the
        obstacle critic's sum-scores flag (default false); a second call does nothing. */
    method Initialize(reading: PoseReading, frequency: Option<real>, sumScores: Option<bool>, cheat: Option<real>)
      requires Valid()
      modifies this`currentPose, this`critics, this`simPeriod, this`oscillation, this`cheatFactor,
               this`initialized
      ensures Valid() && initialized
      ensures old(initialized) ==> unchanged(this)
      ensures !old(initialized) ==>
                currentPose == reading.pose &&
                simPeriod == Configuration.SimPeriod(frequency) &&
                cheatFactor == (if cheat.Some? then cheat.value else 1.0) &&
                oscillation == ResetOscillation(old(oscillation)) &&
                critics == FreshCritics.(goalFrontStopOnFailure := false, alignmentStopOnFailure := false,
                                         sumScores := if sumScores.Some? then sumScores.value else false)
    {
      if !initialized {
        currentPose := reading.pose;
        critics := FreshCritics.(goalFrontStopOnFailure := false, alignmentStopOnFailure := false,
                                 sumScores := if sumScores.Some? then sumScores.value else false);
        simPeriod := Configuration.SimPeriod(frequency);
        oscillation := ResetOscillation(oscillation);
        cheatFactor := if cheat.Some? then cheat.value else 1.0;
        initialized := true;
      }
    }

    /** reconfigureCB: apply a configuration from the server and return the configuration
        written back to it. */
    method ReconfigureCB(config: Config, resolution: real) returns (written: Config)
      requires Valid() && initialized
      modifies this`setup, this`defaultConfig, this`limits, this`generatorParams, this`simTime, this`pdistScale,
               this`gdistScale, this`occdistScale, this`stopTimeBuffer, this`forwardPointDistance, this`critics,
               vsamples
      ensures Valid() && initialized && setup
      ensures (Configuration.LatchState(setup, defaultConfig), written) ==
              Configuration.Step(Configuration.LatchState(old(setup), old(defaultConfig)), config)
      ensures var e := Configuration.Effective(Configuration.LatchState(old(setup), old(defaultConfig)), config);
              vsamples[..] == Configuration.SampleCounts(e) &&
              vsamples[..] == [written.vxSamples, written.vySamples, written.vthSamples] &&
              Applied(e, resolution, old(critics))
    {
      var c := LatchConfig(config);
      ApplyConfig(c, resolution);
      written := StoreSampleCounts(c);
    }

    /** The settings and critic parameters that applying configuration `e` at costmap
        resolution `resolution` leaves, starting from critics `before`. */
    ghost predicate Applied(e: Config, resolution: real, before: Critics)
      reads this
      ensures Applied(e, resolution, before) ==>
                critics.pathScale == critics.alignmentScale && critics.goalScale == critics.goalFrontScale &&
                critics.goalFrontXShift == forwardPointDistance && critics.alignmentXShift == forwardPointDistance
    {
      limits == LimitsOf(e) &&
      generatorParams == GeneratorParams(e.simTime, e.simGranularity, e.angularSimGranularity, e.useDwa, simPeriod) &&
      simTime == e.simTime && stopTimeBuffer == e.stopTimeBuffer &&
      pdistScale == e.pathDistanceBias && gdistScale == e.goalDistanceBias && occdistScale == e.occdistScale &&
      forwardPointDistance == e.forwardPointDistance &&
      var w := Configuration.CriticWeights(resolution, e);
      critics == before.(
        pathScale := w.path, alignmentScale := w.alignment,
        goalScale := w.goal, goalFrontScale := w.goalFront,
        obstacleScale := w.obstacle,
        goalFrontXShift := e.forwardPointDistance,
        alignmentXShift := e.forwardPointDistance,
        obstacleParams := ObstacleParams(e.maxTransVel, e.maxScalingFactor, e.scalingSpeed),
        oscillationResetDist := e.oscillationResetDist,
        oscillationResetAngle := e.oscillationResetAngle)
    }

    /** The set-up / restore-defaults latch of reconfigureCB. */
    method LatchConfig(config: Config) returns (c: Config)
      modifies this`setup, this`defaultConfig
      ensures c == Configuration.Effective(Configuration.LatchState(old(setup), old(defaultConfig)), config)
      ensures Configuration.LatchState(setup, defaultConfig) ==
              Configuration.Step(Configuration.LatchState(old(setup), old(defaultConfig)), config).0
    {
      c := config;
      if setup && c.restoreDefaults {
        c := defaultConfig;
        c := c.(restoreDefaults := false);
      }
      if !setup {
        defaultConfig := c;
        setup := true;
      }
    }

    /** The limits, generator parameters and critic parameters reconfigureCB derives. */
    method ApplyConfig(c: Config, resolution: real)
      modifies this`limits, this`generatorParams, this`simTime, this`pdistScale, this`gdistScale,
               this`occdistScale, this`stopTimeBuffer, this`forwardPointDistance, this`critics
      ensures Applied(c, resolution, old(critics))
    {
      limits := LimitsOf(c);
      generatorParams := GeneratorParams(c.simTime, c.simGranularity, c.angularSimGranularity, c.useDwa, simPeriod);
      simTime := c.simTime;
      pdistScale, gdistScale, occdistScale := c.pathDistanceBias, c.goalDistanceBias, c.occdistScale;
      stopTimeBuffer := c.stopTimeBuffer;
      forwardPointDistance := c.forwardPointDistance;
      var w := Configuration.CriticWeights(resolution, c);
      critics := critics.(
        pathScale := w.path, alignmentScale := w.alignment,
        goalScale := w.goal, goalFrontScale := w.goalFront,
        obstacleScale := w.obstacle,
        goalFrontXShift := c.forwardPointDistance,
        alignmentXShift := c.forwardPointDistance,
        obstacleParams := ObstacleParams(c.maxTransVel, c.maxScalingFactor, c.scalingSpeed),
        oscillationResetDist := c.oscillationResetDist,
        oscillationResetAngle := c.oscillationResetAngle);
    }

    /** Coerce the three sample counts, store them and write them back into the configuration. */
    method StoreSampleCounts(config: Config) returns (c: Config)
      requires vsamples.Length == 3
      modifies vsamples
      ensures c == Configuration.WriteBack(config)
      ensures vsamples[..] == Configuration.SampleCounts(config)
    {
      c := config;
      var vxSamp, vySamp, vthSamp := c.vxSamples, c.vySamples, c.vthSamples;
      if vxSamp <= 0 {
        vxSamp := 1;
        c := c.(vxSamples := vxSamp);
      }
      if vySamp <= 0 {
        vySamp := 1;
        c := c.(vySamples := vySamp);
      }
      if vthSamp <= 0 {
        vthSamp := 1;
        c := c.(vthSamples := vthSamp);
      }
      vsamples[0] := vxSamp;
      vsamples[1] := vySamp;
      vsamples[2] := vthSamp;
    }

    /** setPlan: refused before initialisation; otherwise clear the latch and the
        oscillation flags and report what the planner utility answers. */
    method SetPlan(plan: seq<Pose>, lib: Library) returns (ok: bool)
      requires Valid()
      modifies this`latched, this`oscillation, this`utilPlan
      ensures Valid()
      ensures !old(initialized) ==> !ok && unchanged(this)
      ensures old(initialized) ==>
                ok == lib.utilSetPlan(plan) && utilPlan == plan &&
                !latched && oscillation == ResetOscillation(old(oscillation))
    {
      if !initialized {
        return false;
      }
      latched := false;
      oscillation := ResetOscillation(oscillation);
      ok := lib.utilSetPlan(plan);
      utilPlan := plan;
    }

    /** isGoalReached: false before initialisation or without a pose; otherwise the
        stop-rotate controller's answer. */
    method IsGoalReached(reading: PoseReading, velocity: Velocity, lib: Library) returns (reached: bool)
      requires Valid()
      modifies this`currentPose, this`latched
      ensures Valid()
      ensures !old(initialized) ==> !reached && unchanged(this)
      ensures old(initialized) ==> currentPose == reading.pose
      ensures old(initialized) && !reading.ok ==> !reached && latched == old(latched)
      ensures old(initialized) && reading.ok ==>
                var answer := lib.goalReached(GoalQuery(old(latched), reading.pose, velocity, limits, utilPlan));
                reached == answer.reached && latched == answer.latched
    {
      if !initialized {
        return false;
      }
      currentPose := reading.pose;
      if !reading.ok {
        return false;
      }
      var answer := lib.goalReached(GoalQuery(latched, currentPose, velocity, limits, utilPlan));
      latched := answer.latched;
      reached := answer.reached;
    }

    /** checkTrajectory: clear the oscillation flags, simulate one velocity sample towards
        the goal and accept it iff the critics give it a non-negative cost. */
    method CheckTrajectory(pos: Pose, vel: Velocity, sample: Velocity, lib: Library) returns (feasible: bool)
      requires Valid() && |globalPlan| > 0
      modifies this`oscillation
      ensures Valid()
      ensures oscillation == ResetOscillation(old(oscillation)) && globalPlan == old(globalPlan)
      ensures var traj := lib.generate(GeneratorSetup(pos, vel, globalPlan[|globalPlan| - 1], limits, vsamples[..], generatorParams), sample);
              feasible <==> lib.score(traj, critics, oscillation) >= 0.0
    {
      oscillation := ResetOscillation(oscillation);
      var goal := globalPlan[|globalPlan| - 1];
      var traj := lib.generate(GeneratorSetup(pos, vel, goal, limits, vsamples[..], generatorParams), sample);
      var cost := lib.score(traj, critics, oscillation);
      feasible := cost >= 0.0;
    }

    /** updatePlanAndLocalCosts: copy the transformed plan and retarget the critics. */
    method UpdatePlanAndLocalCosts(pose: Pose, newPlan: seq<Pose>, resolution: real, lib: Library)
      requires Valid() && |newPlan| > 0
      modifies this`globalPlan, this`critics
      ensures Valid()
      ensures globalPlan == newPlan
      ensures critics == RetargetedCritics(old(critics), pose, newPlan, resolution, pdistScale,
                                           forwardPointDistance, cheatFactor, TowardGoal(lib, pose, newPlan))
    {
      globalPlan := CopyPlan(globalPlan, newPlan);
      var goal := globalPlan[|globalPlan| - 1];
      var toward := lib.unitToward(goal.y - pose.y, goal.x - pose.x);
      critics := RetargetedCritics(critics, pose, globalPlan, resolution, pdistScale,
                                   forwardPointDistance, cheatFactor, toward);
    }

    /** findBestPath: hand the footprint to the obstacle critic, search from the cost
        sentinel -7, update the oscillation flags with the winner, and turn the winner
        into a drive command (none for a negative cost). */
    method FindBestPath(pose: Pose, velocity: Velocity, footprint: seq<Point>, lib: Library)
      returns (path: Trajectory, drive: Velocity)
      requires Valid() && |globalPlan| > 0
      modifies this`critics, this`resultTraj, this`oscillation
      ensures Valid()
      ensures critics == old(critics).(footprint := footprint) && globalPlan == old(globalPlan)
      ensures resultTraj == SearchWinner(lib, critics, old(oscillation), old(resultTraj), pose, velocity,
                                         globalPlan, limits, vsamples[..], generatorParams)
      ensures oscillation == lib.updateOscillation(old(oscillation), pose, resultTraj, limits.minTransVel,
                                                   critics.oscillationResetDist, critics.oscillationResetAngle)
      ensures path == resultTraj && drive == DriveCommand(resultTraj)
    {
      critics := critics.(footprint := footprint);
      var goal := globalPlan[|globalPlan| - 1];
      var setupQuery := GeneratorSetup(pose, velocity, goal, limits, vsamples[..], generatorParams);
      resultTraj := resultTraj.(cost := -7.0);
      resultTraj := lib.findBest(SearchQuery(setupQuery, critics, oscillation, CriticOrder), resultTraj);
      oscillation := lib.updateOscillation(oscillation, pose, resultTraj, limits.minTransVel,
                                           critics.oscillationResetDist, critics.oscillationResetAngle);
      if resultTraj.cost < 0.0 {
        drive := ZeroVelocity;
      } else {
        drive := Velocity(resultTraj.xv, resultTraj.yv, resultTraj.thetav);
      }
      path := resultTraj;
    }

    /** hanpComputeVelocityCommands: run the sampled search and report success iff the
        winner is feasible; a feasible winner also yields the local path to publish. */
    method HanpComputeVelocityCommands(pose: Pose, velocity: Velocity, footprint: seq<Point>, globalFrame: string,
                                       lib: Library, cmdVel: Velocity)
      returns (ok: bool, cmd: Velocity, localPath: seq<StampedPose>)
      requires Valid() && (initialized ==> |globalPlan| > 0)
      modifies this`critics, this`resultTraj, this`oscillation
      ensures Valid()
      ensures !old(initialized) ==> !ok && cmd == cmdVel && localPath == [] && unchanged(this)
      ensures globalPlan == old(globalPlan)
      ensures old(initialized) ==>
                critics == old(critics).(footprint := footprint) &&
                resultTraj == SearchWinner(lib, critics, old(oscillation), old(resultTraj), pose, velocity,
                                           globalPlan, limits, vsamples[..], generatorParams) &&
                oscillation == lib.updateOscillation(old(oscillation), pose, resultTraj, limits.minTransVel,
                                                     critics.oscillationResetDist, critics.oscillationResetAngle) &&
                cmd == DriveCommand(resultTraj) &&
                (ok <==> resultTraj.cost >= 0.0)
      ensures ok ==> |localPath| == |resultTraj.points| &&
                     forall i :: 0 <= i < |localPath| ==> localPath[i] == StampedPose(globalFrame, resultTraj.points[i])
      ensures !ok ==> localPath == []
    {
      if !initialized {
        return false, cmdVel, [];
      }
      var path, drive := FindBestPath(pose, velocity, footprint, lib);
      cmd := drive;
      if path.cost < 0.0 {
        return false, cmd, [];
      }
      localPath := TrajectoryToPath(path, globalFrame);
      ok := true;
    }

    /** The latched stop-rotate controller's command for this cycle; its use of the
        feasibility check leaves the oscillation flags cleared. */
    method StopRotate(velocity: Velocity, lib: Library, cmdVel: Velocity) returns (ok: bool, cmd: Velocity)
      requires |globalPlan| > 0
      modifies this`latched, this`oscillation
      ensures var outcome := lib.stopRotate(RotateQuery(old(latched), currentPose, velocity, AccLimits(limits),
                                                        simPeriod, limits, globalPlan[|globalPlan| - 1], critics,
                                                        old(oscillation), vsamples[..], generatorParams, utilPlan, cmdVel));
              ok == outcome.ok && cmd == outcome.cmd && latched == outcome.latched &&
              oscillation == (if outcome.probed then ResetOscillation(old(oscillation)) else old(oscillation))
    {
      var outcome := lib.stopRotate(RotateQuery(latched, currentPose, velocity, AccLimits(limits), simPeriod,
                                                limits, globalPlan[|globalPlan| - 1], critics, oscillation,
                                                vsamples[..], generatorParams, utilPlan, cmdVel));
      latched := outcome.latched;
      if outcome.probed {
        oscillation := ResetOscillation(oscillation);
      }
      ok, cmd := outcome.ok, outcome.cmd;
    }

    /** computeVelocityCommands: one control cycle. Without a pose, without a local plan or
        with an empty one the cycle fails before anything is updated. Otherwise the plan is
        copied and the critics retargeted, and then exactly one of the latched stop-rotate
        controller (goal position reached) or the sampled search produces the command. */
    method ComputeVelocityCommands(reading: PoseReading, localPlan: Option<seq<Pose>>, velocity: Velocity,
                                   footprint: seq<Point>, resolution: real, globalFrame: string,
                                   lib: Library, cmdVel: Velocity)
      returns (ok: bool, cmd: Velocity)
      requires Valid() && initialized
      modifies this`currentPose, this`globalPlan, this`critics, this`oscillation, this`latched, this`resultTraj
      ensures Valid()
      ensures currentPose == reading.pose
      ensures !reading.ok || localPlan.None? || |localPlan.value| == 0 ==>
                !ok && cmd == cmdVel &&
                critics == old(critics) && oscillation == old(oscillation) && latched == old(latched) &&
                globalPlan == old(globalPlan) && resultTraj == old(resultTraj)
      ensures reading.ok && localPlan.Some? && |localPlan.value| > 0 ==>
                var plan := localPlan.value;
                var retargeted := RetargetedCritics(old(critics), reading.pose, plan, resolution, pdistScale,
                                                    forwardPointDistance, cheatFactor, TowardGoal(lib, reading.pose, plan));
                var position := lib.positionReached(PositionQuery(old(latched), reading.pose, limits, utilPlan));
                globalPlan == plan &&
                if position.reached then
                  var outcome := lib.stopRotate(RotateQuery(position.latched, reading.pose, velocity, AccLimits(limits),
                                                            simPeriod, limits, plan[|plan| - 1], retargeted,
                                                            old(oscillation), vsamples[..], generatorParams, utilPlan, cmdVel));
                  ok == outcome.ok && cmd == outcome.cmd && latched == outcome.latched &&
                  critics == retargeted && resultTraj == old(resultTraj) &&
                  oscillation == (if outcome.probed then ResetOscillation(old(oscillation)) else old(oscillation))
                else
                  var winner := SearchWinner(lib, retargeted.(footprint := footprint), old(oscillation), old(resultTraj),
                                             reading.pose, velocity, plan, limits, vsamples[..], generatorParams);
                  latched == position.latched && critics == retargeted.(footprint := footprint) &&
                  resultTraj == winner &&
                  oscillation == lib.updateOscillation(old(oscillation), reading.pose, winner, limits.minTransVel,
                                                       critics.oscillationResetDist, critics.oscillationResetAngle) &&
                  (ok <==> winner.cost >= 0.0) && cmd == DriveCommand(winner)
    {
      currentPose := reading.pose;
      if !reading.ok {
        return false, cmdVel;
      }
      if localPlan.None? {
        return false, cmdVel;
      }
      var transformedPlan := localPlan.value;
      if |transformedPlan| == 0 {
        return false, cmdVel;
      }

      ok, cmd := RunCycle(transformedPlan, velocity, footprint, resolution, globalFrame, lib, cmdVel);
    }

    /** A control cycle past its early exits: store the plan and retarget the critics, then
        let the position check choose the controller. */
    method RunCycle(plan: seq<Pose>, velocity: Velocity, footprint: seq<Point>, resolution: real,
                    globalFrame: string, lib: Library, cmdVel: Velocity)
      returns (ok: bool, cmd: Velocity)
      requires Valid() && initialized && |plan| > 0
      modifies this`globalPlan, this`critics, this`oscillation, this`latched, this`resultTraj
      ensures Valid()
      ensures var retargeted := RetargetedCritics(old(critics), currentPose, plan, resolution, pdistScale,
                                                  forwardPointDistance, cheatFactor, TowardGoal(lib, currentPose, plan));
              var position := lib.positionReached(PositionQuery(old(latched), currentPose, limits, utilPlan));
              globalPlan == plan &&
              if position.reached then
                var outcome := lib.stopRotate(RotateQuery(position.latched, currentPose, velocity, AccLimits(limits),
                                                          simPeriod, limits, plan[|plan| - 1], retargeted,
                                                          old(oscillation), vsamples[..], generatorParams, utilPlan, cmdVel));
                ok == outcome.ok && cmd == outcome.cmd && latched == outcome.latched &&
                critics == retargeted && resultTraj == old(resultTraj) &&
                oscillation == (if outcome.probed then ResetOscillation(old(oscillation)) else old(oscillation))
              else
                var winner := SearchWinner(lib, retargeted.(footprint := footprint), old(oscillation), old(resultTraj),
                                           currentPose, velocity, plan, limits, vsamples[..], generatorParams);
                latched == position.latched && critics == retargeted.(footprint := footprint) &&
                resultTraj == winner &&
                oscillation == lib.updateOscillation(old(oscillation), currentPose, winner, limits.minTransVel,
                                                     critics.oscillationResetDist, critics.oscillationResetAngle) &&
                (ok <==> winner.cost >= 0.0) && cmd == DriveCommand(winner)
    {
      UpdatePlanAndLocalCosts(currentPose, plan, resolution, lib);
      ok, cmd := ChooseController(velocity, footprint, globalFrame, lib, cmdVel);
    }

    /** The second half of a control cycle, once the plan is in place: the position check
        decides between the latched stop-rotate controller and the sampled search. */
    method ChooseController(velocity: Velocity, footprint: seq<Point>, globalFrame: string,
                            lib: Library, cmdVel: Velocity)
      returns (ok: bool, cmd: Velocity)
      requires Valid() && initialized && |globalPlan| > 0
      modifies this`critics, this`oscillation, this`latched, this`resultTraj
      ensures Valid()
      ensures var position := lib.positionReached(PositionQuery(old(latched), currentPose, limits, utilPlan));
              if position.reached then
                var outcome := lib.stopRotate(RotateQuery(position.latched, currentPose, velocity, AccLimits(limits),
                                                          simPeriod, limits, globalPlan[|globalPlan| - 1], old(critics),
                                                          old(oscillation), vsamples[..], generatorParams, utilPlan, cmdVel));
                ok == outcome.ok && cmd == outcome.cmd && latched == outcome.latched &&
                critics == old(critics) && resultTraj == old(resultTraj) &&
                oscillation == (if outcome.probed then ResetOscillation(old(oscillation)) else old(oscillation))
              else
                var winner := SearchWinner(lib, old(critics).(footprint := footprint), old(oscillation), old(resultTraj),
                                           currentPose, velocity, globalPlan, limits, vsamples[..], generatorParams);
                latched == position.latched && critics == old(critics).(footprint := footprint) &&
                resultTraj == winner &&
                oscillation == lib.updateOscillation(old(oscillation), currentPose, winner, limits.minTransVel,
                                                     critics.oscillationResetDist, critics.oscillationResetAngle) &&
                (ok <==> winner.cost >= 0.0) && cmd == DriveCommand(winner)
    {
      var position := lib.positionReached(PositionQuery(latched, currentPose, limits, utilPlan));
      latched := position.latched;
      if position.reached {
        ok, cmd := StopRotate(velocity, lib, cmdVel);
      } else {
        var localPath;
        ok, cmd, localPath := HanpComputeVelocityCommands(currentPose, velocity, footprint, globalFrame, lib, cmdVel);
      }
    }
  }
}
