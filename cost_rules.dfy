/** Straight-line rules of the planner: the per-cell cost breakdown of the cost grid,
    the activation test of the heading-alignment critic, the goal-front target shift,
    the conversion of the winning trajectory into a command, and the conversion of a
    trajectory into a local path. */
module CostRules {
  import opened PlannerTypes
  import Configuration

  /** costmap_2d's INSCRIBED_INFLATED_OBSTACLE cell value. */
  const InscribedInflatedObstacle: int := 253

  /** What getCellCosts leaves in its out-parameters and whether it accepted the cell. */
  datatype CellCosts = CellCosts(ok: bool, path: real, goal: real, occ: real, total: real)

  /** The cost breakdown of one grid cell. `pathCost` and `goalCost` are the path and goal
      critics' cell values, `occ` the costmap's cell value, `obstacleSentinel` and
      `unreachableSentinel` the path critic's reserved values; `total` is what the caller's
      total-cost variable held, which a rejected cell leaves as it was. */
  function GetCellCosts(pathCost: real, goalCost: real, occ: nat, obstacleSentinel: real, unreachableSentinel: real,
                        resolution: real, pdistScale: real, gdistScale: real, occdistScale: real, total: real): (r: CellCosts)
    requires occ < 256
    ensures r.path == pathCost && r.goal == goalCost && r.occ == occ as real
    ensures !r.ok <==> pathCost == obstacleSentinel || pathCost == unreachableSentinel || occ >= InscribedInflatedObstacle
    ensures !r.ok ==> r.total == total
    ensures r.ok ==> r.total == pdistScale * resolution * pathCost + gdistScale * resolution * goalCost + occdistScale * (occ as real)
  {
    if pathCost == obstacleSentinel || pathCost == unreachableSentinel || occ >= InscribedInflatedObstacle then
      CellCosts(false, pathCost, goalCost, occ as real, total)
    else
      CellCosts(true, pathCost, goalCost, occ as real,
                pdistScale * resolution * pathCost + gdistScale * resolution * goalCost + occdistScale * (occ as real))
  }

  /** How the cost grid's total relates to the critic weights a configuration installs: an
      accepted cell's path and goal costs are weighted at twice the path and goal critics'
      weights, and its occupancy at the occupancy bias alone, without the resolution factor
      of the obstacle critic's weight. So the grid does not show the planner's own weighting. */
  lemma CellTotalUsesCriticWeights(pathCost: real, goalCost: real, occ: nat, obstacleSentinel: real,
                                    unreachableSentinel: real, resolution: real, c: Config, total: real)
    requires occ < 256
    requires GetCellCosts(pathCost, goalCost, occ, obstacleSentinel, unreachableSentinel, resolution,
                          c.pathDistanceBias, c.goalDistanceBias, c.occdistScale, total).ok
    ensures GetCellCosts(pathCost, goalCost, occ, obstacleSentinel, unreachableSentinel, resolution,
                         c.pathDistanceBias, c.goalDistanceBias, c.occdistScale, total).total ==
            2.0 * Configuration.CriticWeights(resolution, c).path * pathCost +
            2.0 * Configuration.CriticWeights(resolution, c).goal * goalCost +
            c.occdistScale * (occ as real)
  {
  }

  /** Squared planar distance between the robot and the goal. */
  function SquaredDistance(a: Pose, b: Pose): (d: real)
    ensures d >= 0.0
    ensures a.x == b.x && a.y == b.y ==> d == 0.0
  {
    (a.x - b.x) * (a.x - b.x) + (a.y - b.y) * (a.y - b.y)
  }

  /** The heading-alignment critic is weighted only while the robot is farther from the
      goal than the forward point, relaxed by the cheat factor. */
  predicate AlignmentActive(sqDist: real, forwardPointDistance: real, cheatFactor: real)
    ensures cheatFactor <= 0.0 && sqDist > 0.0 ==> AlignmentActive(sqDist, forwardPointDistance, cheatFactor)
    ensures cheatFactor >= 0.0 && sqDist <= 0.0 ==> !AlignmentActive(sqDist, forwardPointDistance, cheatFactor)
  {
    sqDist > forwardPointDistance * forwardPointDistance * cheatFactor
  }

  /** The alignment weight for one cycle: the configured path weight while active, zero otherwise. */
  function AlignmentScale(sqDist: real, forwardPointDistance: real, cheatFactor: real,
                          resolution: real, pdistScale: real): (s: real)
    ensures AlignmentActive(sqDist, forwardPointDistance, cheatFactor) ==> s == resolution * pdistScale * 0.5
    ensures !AlignmentActive(sqDist, forwardPointDistance, cheatFactor) ==> s == 0.0
  {
    if AlignmentActive(sqDist, forwardPointDistance, cheatFactor) then resolution * pdistScale * 0.5 else 0.0
  }

  /** The test is a threshold: moving farther from the goal never switches alignment off. */
  lemma AlignmentThresholdMonotone(near: real, far: real, forwardPointDistance: real, cheatFactor: real)
    requires near <= far
    ensures AlignmentActive(near, forwardPointDistance, cheatFactor) ==> AlignmentActive(far, forwardPointDistance, cheatFactor)
  {
  }

  /** At the goal itself alignment is off whenever the cheat factor is non-negative. */
  lemma AlignmentOffAtGoal(robot: Pose, goal: Pose, forwardPointDistance: real, cheatFactor: real)
    requires robot.x == goal.x && robot.y == goal.y && cheatFactor >= 0.0
    ensures !AlignmentActive(SquaredDistance(robot, goal), forwardPointDistance, cheatFactor)
  {
  }

  /** The plan the goal-front critic targets: the plan with its last pose moved
      `forwardPointDistance` further along the unit direction `toward` = (cos, sin) of the
      robot-to-goal angle. */
  function FrontPlan(plan: seq<Pose>, forwardPointDistance: real, toward: (real, real)): (f: seq<Pose>)
    requires |plan| > 0
    ensures |f| == |plan|
    ensures f[..|f| - 1] == plan[..|plan| - 1]
    ensures f[|f| - 1].yaw == plan[|plan| - 1].yaw
    ensures f[|f| - 1].x - plan[|plan| - 1].x == forwardPointDistance * toward.0
    ensures f[|f| - 1].y - plan[|plan| - 1].y == forwardPointDistance * toward.1
  {
    var goal := plan[|plan| - 1];
    plan[|plan| - 1 := goal.(x := goal.x + forwardPointDistance * toward.0,
                             y := goal.y + forwardPointDistance * toward.1)]
  }

  /** The command a search result leaves: no motion for a rejected winner (cost below zero),
      otherwise the winner's own velocity. */
  function DriveCommand(t: Trajectory): (v: Velocity)
    ensures t.cost < 0.0 ==> v == ZeroVelocity
    ensures t.cost >= 0.0 ==> v == Velocity(t.xv, t.yv, t.thetav)
  {
    if t.cost < 0.0 then ZeroVelocity else Velocity(t.xv, t.yv, t.thetav)
  }

  /** A resized copy of a plan: `newLength` elements, the old ones first, padded with
      default poses (std::vector::resize). */
  function Resized(plan: seq<Pose>, newLength: nat): (r: seq<Pose>)
    ensures |r| == newLength
    ensures forall i :: 0 <= i < newLength && i < |plan| ==> r[i] == plan[i]
  {
    if newLength <= |plan| then plan[..newLength] else plan + seq(newLength - |plan|, _ => Pose(0.0, 0.0, 0.0))
  }

  /** Copy `source` into `target` by resizing it and assigning index by index. */
  method CopyPlan(target: seq<Pose>, source: seq<Pose>) returns (copy: seq<Pose>)
    ensures copy == source
  {
    copy := Resized(target, |source|);
    var i := 0;
    while i < |source|
      invariant 0 <= i <= |source|
      invariant |copy| == |source|
      invariant copy[..i] == source[..i]
    {
      copy := copy[i := source[i]];
      i := i + 1;
    }
  }

  /** The local path published for a winning trajectory: one pose per trajectory point,
      in order, stamped with the global frame. */
  method TrajectoryToPath(t: Trajectory, globalFrame: string) returns (path: seq<StampedPose>)
    ensures |path| == |t.points|
    ensures forall i :: 0 <= i < |path| ==> path[i] == StampedPose(globalFrame, t.points[i])
  {
    path := [];
    var i := 0;
    while i < |t.points|
      invariant 0 <= i <= |t.points|
      invariant |path| == i
      invariant forall k :: 0 <= k < i ==> path[k] == StampedPose(globalFrame, t.points[k])
    {
      path := path + [StampedPose(globalFrame, t.points[i])];
      i := i + 1;
    }
  }
}
