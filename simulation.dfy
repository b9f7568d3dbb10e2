/** The simulation driver (BioMonteCarlo/simulation.py): photon trials against one
    mesh, collecting the paths and accumulating the absorption profile in place. */
module Simulation {
  import opened Mesh
  import opened Photons
  import opened Transport

  class MonteCarloSimulator {
    const mesh: LayeredMesh
    const numPhotons: int
    const initialPhotonDirection: Vec3
    var photonPaths: seq<seq<Vec3>>
    const absorptionProfile: array<real>

    /** __init__: no paths yet and one zero per layer below the last boundary
        (zeros_like(b[:-1]), empty for an empty mesh). */
    constructor (mesh: LayeredMesh, numPhotons: int, initialPhotonDirection: Vec3 := DefaultDirection)
      ensures this.mesh == mesh && this.numPhotons == numPhotons
      ensures this.initialPhotonDirection == initialPhotonDirection
      ensures photonPaths == [] && fresh(absorptionProfile)
      ensures absorptionProfile.Length == if |mesh.boundaries| == 0 then 0 else |mesh.boundaries| - 1
      ensures forall i :: 0 <= i < absorptionProfile.Length ==> absorptionProfile[i] == 0.0
    {
      this.mesh := mesh;
      this.numPhotons := numPhotons;
      this.initialPhotonDirection := initialPhotonDirection;
      photonPaths := [];
      var layers := if |mesh.boundaries| == 0 then 0 else |mesh.boundaries| - 1;
      absorptionProfile := new real[layers](_ => 0.0);
    }

    /** run, with the random draws injected. The new paths and profile are the
        ones Trials computes from the old ones; halt says whether every trial
        finished or where the run stopped. */
    method Run(draws: seq<real>) returns (halt: Halt)
      requires mesh.Valid()
      modifies this, absorptionProfile
      ensures var r := Trials(mesh.boundaries, mesh.properties, initialPhotonDirection, numPhotons,
                              old(photonPaths), old(absorptionProfile[..]), draws);
              photonPaths == r.paths && absorptionProfile[..] == r.profile && halt == r.halt
    {
      ghost var result := Trials(mesh.boundaries, mesh.properties, initialPhotonDirection, numPhotons,
                                 photonPaths, absorptionProfile[..], draws);
      var t, k := 0, 0;
      while t < numPhotons
        invariant 0 <= t && (t <= numPhotons || t == 0) && 0 <= k <= |draws|
        invariant Trials(mesh.boundaries, mesh.properties, initialPhotonDirection, numPhotons - t,
                         photonPaths, absorptionProfile[..], draws[k..]) == result
      {
        ghost var b, props, p0, d0 := mesh.boundaries, mesh.properties, absorptionProfile[..], draws[k..];
        var photon := new Photon(initialPhotonDirection);
        assert Walk(photon.path, photon.weight, photon.alive) == Launch(initialPhotonDirection);
        var trialHalt;
        k, trialHalt := Propagate(photon, draws, k);
        ghost var e := Trial(b, props, p0, Launch(initialPhotonDirection), d0);
        assert e == TrialEnd(Walk(photon.path, photon.weight, photon.alive), absorptionProfile[..], draws[k..], trialHalt);
        if trialHalt != Completed {
          assert result == RunEnd(photonPaths, absorptionProfile[..], draws[k..], trialHalt);
          return trialHalt;
        }
        assert result == Trials(b, props, initialPhotonDirection, numPhotons - t - 1,
                                photonPaths + [photon.path], absorptionProfile[..], draws[k..]);
        photonPaths := photonPaths + [photon.path];
        t := t + 1;
      }
      halt := Completed;
    }

    /** The `while photon.alive` loop of run for one photon, consuming draws from
        index k0 on: the photon, the profile and the draws left end as Trial says. */
    method Propagate(photon: Photon, draws: seq<real>, k0: nat) returns (k: nat, halt: Halt)
      requires mesh.Valid() && photon.Valid() && photon.direction == DefaultDirection && k0 <= |draws|
      modifies photon`path, photon`weight, photon`alive, absorptionProfile
      ensures k <= |draws| && photon.Valid()
      ensures Trial(mesh.boundaries, mesh.properties, old(absorptionProfile[..]),
                    Walk(old(photon.path), old(photon.weight), old(photon.alive)), draws[k0..]) ==
              TrialEnd(Walk(photon.path, photon.weight, photon.alive), absorptionProfile[..], draws[k..], halt)
    {
      ghost var trial := Trial(mesh.boundaries, mesh.properties, absorptionProfile[..],
                               Walk(photon.path, photon.weight, photon.alive), draws[k0..]);
      k := k0;
      while photon.alive
        invariant photon.Valid() && photon.direction == DefaultDirection && k <= |draws|
        invariant Trial(mesh.boundaries, mesh.properties, absorptionProfile[..],
                        Walk(photon.path, photon.weight, photon.alive), draws[k..]) == trial
        decreases |draws| - k, if photon.alive then 1 else 0
      {
        ghost var w0, p0, d0 := Walk(photon.path, photon.weight, photon.alive), absorptionProfile[..], draws[k..];
        var stop;
        k, stop := Pass(photon, draws, k);
        if stop.Some? {
          TrialStops(mesh.boundaries, mesh.properties, p0, w0, d0);
          return k, stop.value;
        }
        TrialContinues(mesh.boundaries, mesh.properties, p0, w0, d0);
      }
      halt := Completed;
    }

    /** One pass of the `while photon.alive` body for a live photon: the escape
        test, the layer lookup, the step, move, check_weight, the deposit into
        the profile and the rescaling of the weight, as Iterate says. A halt is
        returned where the source would raise (or the draws run out). */
    method Pass(photon: Photon, draws: seq<real>, k0: nat) returns (k: nat, stop: Option<Halt>)
      requires mesh.Valid() && photon.Valid() && photon.direction == DefaultDirection && k0 <= |draws|
      requires photon.alive
      modifies photon`path, photon`weight, photon`alive, absorptionProfile
      ensures k <= |draws| && photon.Valid() && photon.direction == DefaultDirection
      ensures var w := Walk(photon.path, photon.weight, photon.alive);
              Iterate(mesh.boundaries, mesh.properties, old(absorptionProfile[..]),
                      Walk(old(photon.path), old(photon.weight), old(photon.alive)), draws[k0..]) ==
              match stop
              case Some(h) => Stop(TrialEnd(w, absorptionProfile[..], draws[k..], h))
              case None => Continue(absorptionProfile[..], w, draws[k..])
    {
      var b, props := mesh.boundaries, mesh.properties;
      ghost var w0, p0, d0 := Walk(photon.path, photon.weight, photon.alive), absorptionProfile[..], draws[k0..];
      k := k0;
      var currentPosition := photon.Current();
      if |b| == 0 {
        assert Iterate(b, props, p0, w0, d0) == Stop(TrialEnd(w0, p0, d0, EmptyMesh));
        return k, Some(EmptyMesh);
      }
      if Outside(b, currentPosition.z) {
        photon.alive := false;
        assert Iterate(b, props, p0, w0, d0) == Continue(p0, w0.(alive := false), d0);
        return k, None;
      }
      var layerIndex := LayerIndex(b, currentPosition.z);
      var layerProps := props[layerIndex];
      if k == |draws| {
        assert Iterate(b, props, p0, w0, d0) == Stop(TrialEnd(w0, p0, d0, OutOfDraws));
        return k, Some(OutOfDraws);
      }
      if layerProps["mu_s"] == 0.0 {
        assert Iterate(b, props, p0, w0, d0) == Stop(TrialEnd(w0, p0, d0, InfiniteStep));
        return k, Some(InfiniteStep);
      }
      // step_size = draw / mu_s, with the deposit and rescaled weight of this step
      var ev := StepEvent(photon.weight, layerProps["mu_a"], layerProps["mu_s"], draws[k]);
      assert d0[0] == draws[k] && d0[1..] == draws[k + 1..];
      IterateInMesh(b, props, p0, w0, d0, layerIndex, ev);
      k := k + 1;
      photon.Move(ev.step);
      photon.CheckWeight();
      if layerIndex >= absorptionProfile.Length {
        return k, Some(ProfileIndexError(currentPosition.z));
      }
      absorptionProfile[layerIndex] := absorptionProfile[layerIndex] + ev.deposit;
      photon.weight := ev.weight;
      assert absorptionProfile[..] == p0[layerIndex := p0[layerIndex] + ev.deposit];
      stop := None;
    }
  }
}
