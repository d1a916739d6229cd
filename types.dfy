/** Value types of the HANP local planner: poses, velocities, trajectories, the
    dynamic-reconfigure configuration and the state the planner hands to its
    base_local_planner collaborators. Floating-point values are modelled as `real`. */
module PlannerTypes {

  datatype Option<T> = None | Some(value: T)

  /** A planar pose (x, y, yaw); also one (x, y, theta) sample point of a trajectory. */
  datatype Pose = Pose(x: real, y: real, yaw: real)

  /** A body-frame velocity (vx, vy, vtheta): an odometry reading or a command. */
  datatype Velocity = Velocity(vx: real, vy: real, vtheta: real)

  /** The command left by an identity transform: no motion at all. */
  const ZeroVelocity := Velocity(0.0, 0.0, 0.0)

  /** One footprint vertex of the robot. */
  datatype Point = Point(x: real, y: real, z: real)

  /** The outcome of a TF pose lookup: whether it succeeded and the pose it wrote. */
  datatype PoseReading = PoseReading(ok: bool, pose: Pose)

  /** A pose tagged with the frame it is expressed in (a PoseStamped without its time stamp). */
  datatype StampedPose = StampedPose(frame: string, pose: Pose)

  /** A forward-simulated candidate: the constant velocity that generated it, its
      accumulated cost (negative means rejected) and its sample points. */
  datatype Trajectory = Trajectory(xv: real, yv: real, thetav: real, cost: real, points: seq<Pose>)

  /** A default-constructed trajectory: zero velocity, cost -1, no points. */
  const BlankTrajectory := Trajectory(0.0, 0.0, 0.0, -1.0, [])

  /** The kinodynamic limits handed to the planner utility on every reconfiguration. */
  datatype Limits = Limits(
    maxTransVel: real, minTransVel: real,
    maxVelX: real, minVelX: real, maxVelY: real, minVelY: real,
    maxRotVel: real, minRotVel: real,
    accLimX: real, accLimY: real, accLimTheta: real, accLimitTrans: real,
    xyGoalTolerance: real, yawGoalTolerance: real,
    prunePlan: bool,
    transStoppedVel: real, rotStoppedVel: real)

  const BlankLimits := Limits(0.0, 0.0, 0.0, 0.0, 0.0, 0.0, 0.0, 0.0, 0.0, 0.0, 0.0, 0.0,
                              0.0, 0.0, false, 0.0, 0.0)

  /** The dynamic-reconfigure record HANPLocalPlannerConfig, one field per option the
      callback reads, plus the restore_defaults request flag. */
  datatype Config = Config(
    restoreDefaults: bool,
    maxTransVel: real, minTransVel: real,
    maxVelX: real, minVelX: real, maxVelY: real, minVelY: real,
    maxRotVel: real, minRotVel: real,
    accLimX: real, accLimY: real, accLimTheta: real, accLimitTrans: real,
    xyGoalTolerance: real, yawGoalTolerance: real,
    prunePlan: bool,
    transStoppedVel: real, rotStoppedVel: real,
    simTime: real, simGranularity: real, angularSimGranularity: real, useDwa: bool,
    pathDistanceBias: real, goalDistanceBias: real, occdistScale: real,
    stopTimeBuffer: real,
    oscillationResetDist: real, oscillationResetAngle: real,
    forwardPointDistance: real,
    maxScalingFactor: real, scalingSpeed: real,
    vxSamples: int, vySamples: int, vthSamples: int)

  /** The value a default-constructed configuration holds before the first callback. */
  const BlankConfig := Config(
    false,
    0.0, 0.0, 0.0, 0.0, 0.0, 0.0, 0.0, 0.0,
    0.0, 0.0, 0.0, 0.0, 0.0, 0.0,
    false,
    0.0, 0.0,
    0.0, 0.0, 0.0, false,
    0.0, 0.0, 0.0,
    0.0,
    0.0, 0.0,
    0.0,
    0.0, 0.0,
    0, 0, 0)

  /** The limits record copied field by field out of a configuration. */
  function LimitsOf(c: Config): (l: Limits)
    ensures l.maxTransVel == c.maxTransVel && l.minTransVel == c.minTransVel
    ensures l.maxVelX == c.maxVelX && l.minVelX == c.minVelX && l.maxVelY == c.maxVelY && l.minVelY == c.minVelY
    ensures l.maxRotVel == c.maxRotVel && l.minRotVel == c.minRotVel
    ensures l.accLimX == c.accLimX && l.accLimY == c.accLimY && l.accLimTheta == c.accLimTheta
    ensures l.accLimitTrans == c.accLimitTrans
    ensures l.xyGoalTolerance == c.xyGoalTolerance && l.yawGoalTolerance == c.yawGoalTolerance
    ensures l.prunePlan == c.prunePlan
    ensures l.transStoppedVel == c.transStoppedVel && l.rotStoppedVel == c.rotStoppedVel
  {
    Limits(c.maxTransVel, c.minTransVel, c.maxVelX, c.minVelX, c.maxVelY, c.minVelY,
           c.maxRotVel, c.minRotVel, c.accLimX, c.accLimY, c.accLimTheta, c.accLimitTrans,
           c.xyGoalTolerance, c.yawGoalTolerance, c.prunePlan, c.transStoppedVel, c.rotStoppedVel)
  }

  /** The acceleration limits (x, y, theta) the stop-rotate controller is given. */
  function AccLimits(l: Limits): (v: Velocity)
    ensures v.vx == l.accLimX && v.vy == l.accLimY && v.vtheta == l.accLimTheta
  {
    Velocity(l.accLimX, l.accLimY, l.accLimTheta)
  }

  /** Simulation parameters of the trajectory generator. */
  datatype GeneratorParams = GeneratorParams(
    simTime: real, simGranularity: real, angularSimGranularity: real, useDwa: bool, simPeriod: real)

  const BlankGeneratorParams := GeneratorParams(0.0, 0.0, 0.0, false, 0.0)

  /** What the generator is initialised with before a search or a single-sample check,
      together with the simulation parameters it was last given. */
  datatype GeneratorSetup = GeneratorSetup(
    pos: Pose, vel: Velocity, goal: Pose, limits: Limits, vsamples: seq<int>, params: GeneratorParams)

  /** Speed scaling of the obstacle critic's footprint. */
  datatype ObstacleParams = ObstacleParams(maxTransVel: real, maxScalingFactor: real, scalingSpeed: real)

  /** The critics, in the order in which the scored sampling planner evaluates them. */
  datatype CriticKind = Oscillation | Obstacle | GoalFront | Alignment | PathDistance | GoalDistance

  const CriticOrder: seq<CriticKind> := [Oscillation, Obstacle, GoalFront, Alignment, PathDistance, GoalDistance]

  /** The configurable state of the critics: the scales, targets, shifts and vetoes of the
      five weighted critics, the obstacle critic's footprint and scaling, and the
      oscillation critic's reset distance and angle (its flags are kept apart, see
      OscillationFlags). */
  datatype Critics = Critics(
    pathScale: real, alignmentScale: real, goalScale: real, goalFrontScale: real, obstacleScale: real,
    pathTargets: seq<Pose>, goalTargets: seq<Pose>, goalFrontTargets: seq<Pose>, alignmentTargets: seq<Pose>,
    goalFrontXShift: real, alignmentXShift: real,
    goalFrontStopOnFailure: bool, alignmentStopOnFailure: bool,
    obstacleParams: ObstacleParams, footprint: seq<Point>, sumScores: bool,
    oscillationResetDist: real, oscillationResetAngle: real)

  /** Critics as the library constructs them: unit scale, no targets, vetoing on failure. */
  const FreshCritics := Critics(
    1.0, 1.0, 1.0, 1.0, 1.0,
    [], [], [], [],
    0.0, 0.0,
    true, true,
    ObstacleParams(0.0, 0.0, 0.0), [], false,
    0.0, 0.0)

  /** One axis of the oscillation guard: whether motion in the positive or the negative
      direction is currently locked out. */
  datatype AxisLock = AxisLock(positive: bool, negative: bool)

  const Unlocked := AxisLock(false, false)

  /** The oscillation guard's persistent flags per axis and the pose where they were set. */
  datatype OscillationFlags = OscillationFlags(x: AxisLock, y: AxisLock, theta: AxisLock, lockPose: Pose)

  /** resetOscillationFlags: every lock is cleared; the lock pose is kept. */
  function ResetOscillation(f: OscillationFlags): (r: OscillationFlags)
    ensures r.x == r.y == r.theta == Unlocked
    ensures r.lockPose == f.lockPose
  {
    f.(x := Unlocked, y := Unlocked, theta := Unlocked)
  }

  /** Clearing the flags twice is the same as clearing them once. */
  lemma ResetOscillationIdempotent(f: OscillationFlags)
    ensures ResetOscillation(ResetOscillation(f)) == ResetOscillation(f)
  {
  }
}
