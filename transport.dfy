/** What MonteCarloSimulator.run computes (BioMonteCarlo/simulation.py:55-84),
    written as functions over the mesh's sequences. The random source is a
    sequence of exponential draws e = -ln(u), one per in-mesh step; the step
    taken is e / mu_s. */
module Transport {
  import opened Mesh
  import opened Photons

  /** The part of a photon the driver reads and writes. */
  datatype Walk = Walk(path: seq<Vec3>, weight: real, alive: bool)

  /** How a trial or a run ends: normally, or at the point where the source
      raises an error (or, for the draws, where the injected stream runs out). */
  datatype Halt =
    | Completed
    | OutOfDraws             // the injected draws are used up
    | EmptyMesh              // the source reads b[0] of an empty mesh: IndexError
    | InfiniteStep           // mu_s == 0: numpy divides to inf, which no real models
    | ProfileIndexError(depth: real)  // layer index past the end of the profile: IndexError

  datatype TrialEnd = TrialEnd(walk: Walk, profile: seq<real>, draws: seq<real>, halt: Halt)

  datatype RunEnd = RunEnd(paths: seq<seq<Vec3>>, profile: seq<real>, draws: seq<real>, halt: Halt)

  /** s is what is left of t after some prefix has been used up. */
  predicate IsSuffix(s: seq<real>, t: seq<real>)
    decreases |t|
  {
    s == t || (|t| > 0 && IsSuffix(s, t[1..]))
  }

  /** The photon the driver creates: Photon(start) binds start to the position,
      so the direction keeps its default. */
  function Launch(start: Vec3): Walk
  {
    Walk([start], 1.0, true)
  }

  /** The escape test at the top of the while loop. */
  predicate Outside(b: seq<real>, z: real)
    requires |b| > 0
  {
    z < b[0] || z > b[|b| - 1]
  }

  /** The arithmetic of one in-mesh step: the step length, the energy deposited
      and the photon's rescaled weight. */
  datatype Event = Event(step: real, deposit: real, weight: real)

  /** The step is draw / mu_s; the deposit weight * mu_a * step uses the weight
      before the linear rescaling weight * (1 - mu_a * step). */
  function StepEvent(weight: real, muA: real, muS: real, draw: real): Event
    requires muS != 0.0
  {
    var step := draw / muS;
    Event(step, weight * muA * step, weight * (1.0 - muA * step))
  }

  /** What one pass of the while loop body leads to: another pass, from a new
      profile, walk and draw sequence, or the end of the trial. */
  datatype Next = Continue(profile: seq<real>, walk: Walk, draws: seq<real>) | Stop(end: TrialEnd)

  /** One pass of the `while photon.alive` body for a live photon. */
  function Iterate(b: seq<real>, props: seq<Properties>, profile: seq<real>, w: Walk, draws: seq<real>): (n: Next)
    requires WellFormed(b, props) && |w.path| > 0 && w.alive
    ensures n.Continue? ==> |n.walk.path| > 0 && |n.profile| == |profile|
    ensures n.Continue? ==> (n.draws == draws && !n.walk.alive) || (|draws| > 0 && n.draws == draws[1..])
    ensures n.Stop? ==> |n.end.profile| == |profile| && IsSuffix(n.end.draws, draws)
  {
    if |b| == 0 then Stop(TrialEnd(w, profile, draws, EmptyMesh))
    else
      var z := Last(w.path).z;
      if Outside(b, z) then Continue(profile, w.(alive := false), draws)
      else if |draws| == 0 then Stop(TrialEnd(w, profile, draws, OutOfDraws))
      else
        var i := LayerIndex(b, z);
        var layer := props[i];
        if layer["mu_s"] == 0.0 then Stop(TrialEnd(w, profile, draws, InfiniteStep))
        else
          var ev := StepEvent(w.weight, layer["mu_a"], layer["mu_s"], draws[0]);
          var moved := w.(path := w.path + [Add(Last(w.path), Scale(DefaultDirection, ev.step))],
                          alive := !(w.weight < DefaultThreshold));
          if i >= |profile| then Stop(TrialEnd(moved, profile, draws[1..], ProfileIndexError(z)))
          else
            Continue(profile[i := profile[i] + ev.deposit], moved.(weight := ev.weight), draws[1..])
  }

  /** The `while photon.alive` loop of one trial, from walk w with the given
      profile and draws. */
  function Trial(b: seq<real>, props: seq<Properties>, profile: seq<real>, w: Walk, draws: seq<real>): (e: TrialEnd)
    requires WellFormed(b, props) && |w.path| > 0
    ensures |e.profile| == |profile| && IsSuffix(e.draws, draws)
    decreases |draws|, if w.alive then 1 else 0
  {
    if !w.alive then TrialEnd(w, profile, draws, Completed)
    else
      match Iterate(b, props, profile, w, draws)
      case Stop(e) => e
      case Continue(p, w', d) =>
        Trial(b, props, p, w', d)
  }

  /** The `for _ in range(count)` loop: one trial per photon, each finished path
      appended to paths. A trial that halts abnormally ends the run. */
  function Trials(b: seq<real>, props: seq<Properties>, start: Vec3, count: int,
                  paths: seq<seq<Vec3>>, profile: seq<real>, draws: seq<real>): (r: RunEnd)
    requires WellFormed(b, props)
    ensures |paths| <= |r.paths| <= |paths| + (if count < 0 then 0 else count)
    ensures r.halt == Completed ==> |r.paths| == |paths| + (if count < 0 then 0 else count)
    ensures |r.profile| == |profile|
    decreases if count < 0 then 0 else count
  {
    if count <= 0 then RunEnd(paths, profile, draws, Completed)
    else
      var e := Trial(b, props, profile, Launch(start), draws);
      if e.halt != Completed then RunEnd(paths, e.profile, e.draws, e.halt)
      else Trials(b, props, start, count - 1, paths + [e.walk.path], e.profile, e.draws)
  }

  /** A live photon exactly on the outer boundary b[n-1] gets layer n-1; with a
      profile of n-1 entries, the deposit into it raises an index error after the
      photon has moved. */
  lemma OuterBoundaryRaises(b: seq<real>, props: seq<Properties>, profile: seq<real>, w: Walk, draws: seq<real>)
    requires WellFormed(b, props) && |w.path| > 0 && w.alive && |b| > 0 && |profile| == |b| - 1
    requires Last(w.path).z == b[|b| - 1] && |draws| > 0 && props[|b| - 1]["mu_s"] != 0.0
    ensures Trial(b, props, profile, w, draws).halt == ProfileIndexError(b[|b| - 1])
  {
    var i := LayerIndex(b, b[|b| - 1]);
    assert i == |b| - 1;
    IterateInMesh(b, props, profile, w, draws, i, StepEvent(w.weight, props[i]["mu_a"], props[i]["mu_s"], draws[0]));
    TrialStops(b, props, profile, w, draws);
  }

  /** One in-mesh pass of the loop body: the photon moves by draws[0] / mu_s along
      +z, the weight check sees the weight before rescaling, only profile[i]
      grows, by the deposit, and the weight is then rescaled, in the pass where
      the check kills the photon too. */
  lemma IterateInMesh(b: seq<real>, props: seq<Properties>, profile: seq<real>, w: Walk, draws: seq<real>,
                      i: int, ev: Event)
    requires WellFormed(b, props) && |w.path| > 0 && w.alive && |b| > 0
    requires !Outside(b, Last(w.path).z) && |draws| > 0
    requires i == LayerIndex(b, Last(w.path).z) && props[i]["mu_s"] != 0.0
    requires ev == StepEvent(w.weight, props[i]["mu_a"], props[i]["mu_s"], draws[0])
    ensures 0 <= i < |b|
    ensures var moved := Walk(w.path + [Add(Last(w.path), Scale(DefaultDirection, ev.step))], w.weight, !(w.weight < DefaultThreshold));
            Iterate(b, props, profile, w, draws) ==
              if i >= |profile| then Stop(TrialEnd(moved, profile, draws[1..], ProfileIndexError(Last(w.path).z)))
              else Continue(profile[i := profile[i] + ev.deposit], moved.(weight := ev.weight), draws[1..])
  {
  }

  /** A pass that ends the trial ends it with that pass's outcome. */
  lemma TrialStops(b: seq<real>, props: seq<Properties>, profile: seq<real>, w: Walk, draws: seq<real>)
    requires WellFormed(b, props) && |w.path| > 0 && w.alive
    requires Iterate(b, props, profile, w, draws).Stop?
    ensures Trial(b, props, profile, w, draws) == Iterate(b, props, profile, w, draws).end
  {
  }

  /** A pass that continues the trial leaves the rest of the trial to the next pass. */
  lemma TrialContinues(b: seq<real>, props: seq<Properties>, profile: seq<real>, w: Walk, draws: seq<real>)
    requires WellFormed(b, props) && |w.path| > 0 && w.alive
    requires Iterate(b, props, profile, w, draws).Continue?
    ensures var n := Iterate(b, props, profile, w, draws);
            Trial(b, props, profile, w, draws) == Trial(b, props, n.profile, n.walk, n.draws)
  {
  }
}
