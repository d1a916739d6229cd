/** The pure part of the planner's reconfiguration: the set-up / restore-defaults
    latch, the coercion of sample counts, the critic weights derived from the
    costmap resolution, and the simulation period chosen at initialisation. */
module Configuration {
  import opened PlannerTypes

  /** The sample count used along one velocity axis: a non-positive request means one sample. */
  function CoerceSamples(n: int): (r: int)
    ensures r >= 1
    ensures n > 0 ==> r == n
    ensures n <= 0 ==> r == 1
  {
    if n <= 0 then 1 else n
  }

  /** The configuration written back to the server: only the three sample counts may change. */
  function WriteBack(c: Config): (w: Config)
    ensures w.vxSamples >= 1 && w.vySamples >= 1 && w.vthSamples >= 1
    ensures c.vxSamples > 0 ==> w.vxSamples == c.vxSamples
    ensures c.vySamples > 0 ==> w.vySamples == c.vySamples
    ensures c.vthSamples > 0 ==> w.vthSamples == c.vthSamples
    ensures c.vxSamples <= 0 ==> w.vxSamples == 1
    ensures c.vySamples <= 0 ==> w.vySamples == 1
    ensures c.vthSamples <= 0 ==> w.vthSamples == 1
    ensures w.(vxSamples := c.vxSamples, vySamples := c.vySamples, vthSamples := c.vthSamples) == c
  {
    c.(vxSamples := CoerceSamples(c.vxSamples),
       vySamples := CoerceSamples(c.vySamples),
       vthSamples := CoerceSamples(c.vthSamples))
  }

  /** A configuration whose counts are already usable is its own write-back. */
  lemma WriteBackIdempotent(c: Config)
    ensures WriteBack(WriteBack(c)) == WriteBack(c)
  {
  }

  /** The sample counts the generator is given, one per axis (x, y, theta). */
  function SampleCounts(c: Config): (v: seq<int>)
    ensures |v| == 3
    ensures forall i :: 0 <= i < 3 ==> v[i] >= 1
    ensures v[0] == (if c.vxSamples > 0 then c.vxSamples else 1)
    ensures v[1] == (if c.vySamples > 0 then c.vySamples else 1)
    ensures v[2] == (if c.vthSamples > 0 then c.vthSamples else 1)
  {
    [CoerceSamples(c.vxSamples), CoerceSamples(c.vySamples), CoerceSamples(c.vthSamples)]
  }

  /** The planner's latch state: whether a first configuration has been seen, and the
      configuration stored on that occasion as the defaults. */
  datatype LatchState = LatchState(setup: bool, defaults: Config)

  const Unconfigured := LatchState(false, BlankConfig)

  /** The configuration the callback goes on to apply. */
  function Effective(s: LatchState, incoming: Config): (e: Config)
    ensures s.setup && incoming.restoreDefaults ==> e == s.defaults.(restoreDefaults := false)
    ensures !(s.setup && incoming.restoreDefaults) ==> e == incoming
    ensures s.setup ==> !e.restoreDefaults
  {
    if s.setup && incoming.restoreDefaults then s.defaults.(restoreDefaults := false) else incoming
  }

  /** One reconfiguration callback: the latch state afterwards and the configuration
      written back to the server. */
  function Step(s: LatchState, incoming: Config): (r: (LatchState, Config))
    ensures r.0.setup
    ensures s.setup ==> r.0 == s
    ensures !s.setup ==> r.0.defaults == incoming
    ensures s.setup && incoming.restoreDefaults ==>
              r.1 == WriteBack(s.defaults.(restoreDefaults := false)) && !r.1.restoreDefaults
    ensures !(s.setup && incoming.restoreDefaults) ==> r.1 == WriteBack(incoming)
  {
    var e := Effective(s, incoming);
    var s' := if s.setup then s else LatchState(true, e);
    (s', WriteBack(e))
  }

  /** A run of reconfiguration callbacks: the final latch state and every configuration
      written back, in order. */
  function Run(s: LatchState, cs: seq<Config>): (LatchState, seq<Config>)
    decreases |cs|
  {
    if cs == [] then (s, [])
    else
      var first := Step(s, cs[0]);
      var rest := Run(first.0, cs[1..]);
      (rest.0, [first.1] + rest.1)
  }

  /** Once set up, no further callback alters the latch state or the stored defaults. */
  lemma {:induction false} SetUpIsStable(s: LatchState, cs: seq<Config>)
    requires s.setup
    ensures Run(s, cs).0 == s
    decreases |cs|
  {
    if cs != [] {
      SetUpIsStable(Step(s, cs[0]).0, cs[1..]);
    }
  }

  /** Whatever follows, the stored defaults are the very first configuration received. */
  lemma {:induction false} DefaultsAreFirstConfig(cs: seq<Config>)
    requires |cs| > 0
    ensures Run(Unconfigured, cs).0 == LatchState(true, cs[0])
  {
    SetUpIsStable(Step(Unconfigured, cs[0]).0, cs[1..]);
  }

  /** A restore request after any non-empty history brings back the first configuration,
      with the restore flag cleared and its sample counts coerced. */
  lemma RestoreBringsBackFirstConfig(cs: seq<Config>, request: Config)
    requires |cs| > 0 && request.restoreDefaults
    ensures Step(Run(Unconfigured, cs).0, request).1 == WriteBack(cs[0].(restoreDefaults := false))
  {
    DefaultsAreFirstConfig(cs);
  }

  /** Every configuration ever written back asks for at least one sample on each axis. */
  lemma {:induction false} WrittenCountsPositive(s: LatchState, cs: seq<Config>)
    ensures |Run(s, cs).1| == |cs|
    ensures forall i :: 0 <= i < |cs| ==>
              Run(s, cs).1[i].vxSamples >= 1 && Run(s, cs).1[i].vySamples >= 1 && Run(s, cs).1[i].vthSamples >= 1
    decreases |cs|
  {
    if cs != [] {
      WrittenCountsPositive(Step(s, cs[0]).0, cs[1..]);
    }
  }

  /** Feeding the written-back configuration in again (as the server does when nothing
      changed) is a fixed point: same latch state, same configuration. */
  lemma WriteBackIsFixedPoint(s: LatchState, c: Config)
    requires !Step(s, c).1.restoreDefaults
    ensures Step(Step(s, c).0, Step(s, c).1) == Step(s, c)
  {
  }

  /** The weights the callback gives the five weighted critics. */
  datatype Weights = Weights(path: real, alignment: real, goal: real, goalFront: real, obstacle: real)

  function CriticWeights(resolution: real, c: Config): (w: Weights)
    ensures w.path == w.alignment && w.goal == w.goalFront
    ensures w.path == resolution * c.pathDistanceBias * 0.5
    ensures w.goal == resolution * c.goalDistanceBias * 0.5
    ensures w.obstacle == resolution * c.occdistScale
    ensures resolution >= 0.0 && c.pathDistanceBias >= 0.0 && c.goalDistanceBias >= 0.0 && c.occdistScale >= 0.0 ==>
              w.path >= 0.0 && w.goal >= 0.0 && w.obstacle >= 0.0
  {
    Weights(resolution * c.pathDistanceBias * 0.5, resolution * c.pathDistanceBias * 0.5,
            resolution * c.goalDistanceBias * 0.5, resolution * c.goalDistanceBias * 0.5,
            resolution * c.occdistScale)
  }

  /** The simulation period: the reciprocal of the configured controller frequency if one
      was found and is positive, otherwise 0.05 s (20 Hz). `frequency` is None when the
      parameter search fails. */
  function SimPeriod(frequency: Option<real>): (p: real)
    ensures p > 0.0
    ensures frequency.Some? && frequency.value > 0.0 ==> p * frequency.value == 1.0
    ensures !(frequency.Some? && frequency.value > 0.0) ==> p == 0.05
  {
    if frequency.Some? && frequency.value > 0.0 then 1.0 / frequency.value else 0.05
  }
}
