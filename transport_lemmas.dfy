/** What the driver's bookkeeping guarantees, proved about Transport's
    functions: the shape of every stored path, the number of paths, photons that
    start outside the mesh, where the profile index error can happen, and when
    the profile and the weights stay non-negative. */
module TransportProperties {
  import opened Mesh
  import opened Photons
  import opened Transport

  /** Consecutive points of a path differ only in depth. */
  predicate AlongZ(path: seq<Vec3>)
  {
    forall k :: 0 <= k < |path| - 1 ==> path[k + 1].x == path[k].x && path[k + 1].y == path[k].y
  }

  /** Consecutive points of a path never lose depth. */
  predicate Rising(path: seq<Vec3>)
  {
    forall k :: 0 <= k < |path| - 1 ==> path[k].z <= path[k + 1].z
  }

  /** q is p, or p with one more point at the same x and y. */
  predicate OneStep(p: seq<Vec3>, q: seq<Vec3>)
  {
    |p| > 0 && |p| <= |q| <= |p| + 1 && q[..|p|] == p &&
    (|q| == |p| + 1 ==> q[|p|].x == p[|p| - 1].x && q[|p|].y == p[|p| - 1].y)
  }

  /** Draws are non-negative (as -ln(u) is) and every layer scatters. */
  predicate Forward(props: seq<Properties>, draws: seq<real>)
  {
    (forall d :: d in draws ==> 0.0 <= d) &&
    (forall p :: p in props ==> "mu_s" in p && 0.0 < p["mu_s"])
  }

  /** Forward, every draw at most cap, absorption non-negative and
      mu_a * cap <= mu_s in every layer: no step is longer than 1 / mu_a, so the
      linear rescaling never makes a weight negative. */
  predicate Attenuating(props: seq<Properties>, draws: seq<real>, cap: real)
  {
    Forward(props, draws) &&
    (forall d :: d in draws ==> d <= cap) &&
    (forall p :: p in props ==> "mu_a" in p && "mu_s" in p && 0.0 <= p["mu_a"] && p["mu_a"] * cap <= p["mu_s"])
  }

  /** The state a pass leaves behind, whether the trial goes on or stops. */
  function After(n: Next): TrialEnd
  {
    match n
    case Continue(p, w, d) => TrialEnd(w, p, d, Completed)
    case Stop(e) => e
  }

  predicate NonNegative(s: seq<real>)
  {
    forall j :: 0 <= j < |s| ==> 0.0 <= s[j]
  }

  /** What is left of the draws satisfies whatever Forward or Attenuating
      says of all of them. */
  lemma {:induction false} SuffixKeepsForward(props: seq<Properties>, draws: seq<real>, rest: seq<real>, cap: real)
    requires IsSuffix(rest, draws)
    ensures Forward(props, draws) ==> Forward(props, rest)
    ensures Attenuating(props, draws, cap) ==> Attenuating(props, rest, cap)
    decreases |draws|
  {
    if rest != draws {
      SuffixKeepsForward(props, draws[1..], rest, cap);
      forall d | d in draws[1..] ensures d in draws {
        var j :| 0 <= j < |draws[1..]| && draws[1..][j] == d;
        assert draws[j + 1] == d;
      }
    }
  }

  /** What one step means: the step is the draw scaled by 1 / mu_s, and the
      weight the photon loses is exactly what is deposited in the profile. */
  lemma StepConserves(weight: real, muA: real, muS: real, draw: real)
    requires muS != 0.0
    ensures var ev := StepEvent(weight, muA, muS, draw);
            ev.step * muS == draw && ev.deposit + ev.weight == weight
  {
  }

  /** The deposit and the rescaled weight of one step: with weight, mu_a and the
      step non-negative the deposit is non-negative, and when mu_a * step <= 1
      the new weight lies between 0 and the old one. */
  lemma DepositBounds(weight: real, muA: real, muS: real, draw: real)
    requires muS != 0.0
    requires 0.0 <= weight && 0.0 <= muA && 0.0 <= StepEvent(weight, muA, muS, draw).step
    ensures var ev := StepEvent(weight, muA, muS, draw);
            0.0 <= ev.deposit &&
            (muA * ev.step <= 1.0 ==> 0.0 <= ev.weight <= weight)
  {
    var ev := StepEvent(weight, muA, muS, draw);
    var a := muA * ev.step;
    assert 0.0 <= a;
    assert ev.deposit == weight * a;
    assert ev.weight == weight - weight * a;
    if a <= 1.0 {
      assert weight * a <= weight * 1.0;
    }
  }

  /** A non-negative draw over a positive mu_s is a non-negative step, and with
      mu_a non-negative, mu_a * draw <= mu_s bounds mu_a * step by 1. */
  lemma StepBounds(weight: real, muA: real, muS: real, draw: real)
    requires 0.0 < muS && 0.0 <= draw
    ensures var ev := StepEvent(weight, muA, muS, draw);
            0.0 <= ev.step && (0.0 <= muA && muA * draw <= muS ==> muA * ev.step <= 1.0)
  {
    var ev := StepEvent(weight, muA, muS, draw);
    assert ev.step * muS == draw;
    if 0.0 <= muA && muA * draw <= muS {
      assert (muA * ev.step) * muS == muA * draw;
    }
  }

  /** A step along z keeps a path along z, and keeps it rising when it does not
      go down. */
  lemma OneStepKeeps(p: seq<Vec3>, q: seq<Vec3>)
    requires OneStep(p, q)
    ensures AlongZ(p) ==> AlongZ(q)
    ensures Rising(p) && (|q| == |p| + 1 ==> p[|p| - 1].z <= q[|p|].z) ==> Rising(q)
  {
    forall k | 0 <= k < |p| ensures q[k] == p[k] {
      assert q[k] == q[..|p|][k];
    }
  }

  /** Paths only grow at the end: a prefix of a prefix is a prefix. */
  lemma PrefixTrans<T>(p: seq<T>, q: seq<T>, r: seq<T>)
    requires |p| <= |q| <= |r| && q[..|p|] == p && r[..|q|] == q
    ensures r[..|p|] == p
  {
    assert r[..|p|] == r[..|q|][..|p|];
  }

  /** One pass of the loop body adds at most one point, at the same x and y,
      keeps the profile's length, and uses up at most the first draw. */
  lemma IterateShape(b: seq<real>, props: seq<Properties>, profile: seq<real>, w: Walk, draws: seq<real>)
    requires WellFormed(b, props) && |w.path| > 0 && w.alive
    ensures var a := After(Iterate(b, props, profile, w, draws));
            OneStep(w.path, a.walk.path) && |a.profile| == |profile| && IsSuffix(a.draws, draws) &&
            (Forward(props, draws) && |a.walk.path| == |w.path| + 1 ==> Last(w.path).z <= Last(a.walk.path).z)
  {
    if |b| > 0 && !Outside(b, Last(w.path).z) && |draws| > 0 {
      var i := LayerIndex(b, Last(w.path).z);
      if props[i]["mu_s"] != 0.0 {
        var ev := StepEvent(w.weight, props[i]["mu_a"], props[i]["mu_s"], draws[0]);
        IterateInMesh(b, props, profile, w, draws, i, ev);
        if Forward(props, draws) {
          assert props[i] in props && draws[0] in draws;
          StepBounds(w.weight, props[i]["mu_a"], props[i]["mu_s"], draws[0]);
        }
      }
    }
  }

  /** A trial only appends to the path, along z, and only upwards when the draws
      are non-negative and every mu_s positive. */
  lemma {:induction false} TrialPath(b: seq<real>, props: seq<Properties>, profile: seq<real>, w: Walk, draws: seq<real>)
    requires WellFormed(b, props) && |w.path| > 0
    ensures var e := Trial(b, props, profile, w, draws);
            |w.path| <= |e.walk.path| && e.walk.path[..|w.path|] == w.path &&
            (AlongZ(w.path) ==> AlongZ(e.walk.path)) &&
            (Forward(props, draws) && Rising(w.path) ==> Rising(e.walk.path))
    decreases |draws|, if w.alive then 1 else 0
  {
    if w.alive {
      var n := Iterate(b, props, profile, w, draws);
      var a := After(n);
      IterateShape(b, props, profile, w, draws);
      OneStepKeeps(w.path, a.walk.path);
      if n.Continue? {
        TrialContinues(b, props, profile, w, draws);
        TrialPath(b, props, n.profile, n.walk, n.draws);
        SuffixKeepsForward(props, draws, n.draws, 0.0);
        PrefixTrans(w.path, n.walk.path, Trial(b, props, n.profile, n.walk, n.draws).walk.path);
      } else {
        TrialStops(b, props, profile, w, draws);
      }
    }
  }

  /** Each trial of a run stores a path that starts at the launch point and
      moves along z only; paths already stored stay; a completed run stores
      exactly count new paths, and the profile keeps its length. */
  lemma {:induction false} TrialsKeepEarlier(b: seq<real>, props: seq<Properties>, start: Vec3, count: int,
                                       paths: seq<seq<Vec3>>, profile: seq<real>, draws: seq<real>)
    requires WellFormed(b, props)
    ensures Trials(b, props, start, count, paths, profile, draws).paths[..|paths|] == paths
    decreases if count < 0 then 0 else count
  {
    if count > 0 {
      var e := Trial(b, props, profile, Launch(start), draws);
      if e.halt == Completed {
        var paths' := paths + [e.walk.path];
        TrialsKeepEarlier(b, props, start, count - 1, paths', e.profile, e.draws);
        PrefixTrans(paths, paths', Trials(b, props, start, count - 1, paths', e.profile, e.draws).paths);
      }
    }
  }

  /** The draws a trial leaves over still satisfy Forward and Attenuating. */
  lemma TrialKeepsAttenuating(b: seq<real>, props: seq<Properties>, profile: seq<real>, w: Walk,
                              draws: seq<real>, cap: real)
    requires WellFormed(b, props) && |w.path| > 0
    ensures Forward(props, draws) ==> Forward(props, Trial(b, props, profile, w, draws).draws)
    ensures Attenuating(props, draws, cap) ==> Attenuating(props, Trial(b, props, profile, w, draws).draws, cap)
  {
    var e := Trial(b, props, profile, w, draws);
    SuffixKeepsForward(props, draws, e.draws, cap);
  }

  /** A path that starts at the launch point and moves along z only. */
  predicate StraightFrom(path: seq<Vec3>, start: Vec3)
  {
    |path| > 0 && path[0] == start && AlongZ(path)
  }

  /** Every path a run stores starts at the launch point and moves along z only. */
  lemma {:induction false} TrialsStraight(b: seq<real>, props: seq<Properties>, start: Vec3, count: int,
                                          paths: seq<seq<Vec3>>, profile: seq<real>, draws: seq<real>)
    requires WellFormed(b, props)
    ensures var r := Trials(b, props, start, count, paths, profile, draws);
            forall j :: |paths| <= j < |r.paths| ==> StraightFrom(r.paths[j], start)
    decreases if count < 0 then 0 else count
  {
    if count > 0 {
      var e := Trial(b, props, profile, Launch(start), draws);
      if e.halt == Completed {
        var paths' := paths + [e.walk.path];
        TrialPath(b, props, profile, Launch(start), draws);
        assert e.walk.path[0] == e.walk.path[..1][0] == start;
        TrialsKeepEarlier(b, props, start, count - 1, paths', e.profile, e.draws);
        TrialsStraight(b, props, start, count - 1, paths', e.profile, e.draws);
        var r := Trials(b, props, start, count - 1, paths', e.profile, e.draws);
        assert Trials(b, props, start, count, paths, profile, draws) == r;
        AppendedPath(paths, e.walk.path, r.paths, path => StraightFrom(path, start));
      }
    }
  }

  /** Appending one path that has property P in front of paths that all have
      it: the bookkeeping behind TrialsStraight and TrialsRising. */
  lemma AppendedPath(paths: seq<seq<Vec3>>, path: seq<Vec3>, all: seq<seq<Vec3>>, P: seq<Vec3> -> bool)
    requires |paths| + 1 <= |all| && all[..|paths| + 1] == paths + [path] && P(path)
    requires forall j :: |paths| + 1 <= j < |all| ==> P(all[j])
    ensures forall j :: |paths| <= j < |all| ==> P(all[j])
  {
    assert all[|paths|] == all[..|paths| + 1][|paths|] == path;
  }

  /** Every path a run stores only goes deeper when the draws are non-negative
      and every mu_s positive. */
  lemma {:induction false} TrialsRising(b: seq<real>, props: seq<Properties>, start: Vec3, count: int,
                                        paths: seq<seq<Vec3>>, profile: seq<real>, draws: seq<real>)
    requires WellFormed(b, props) && Forward(props, draws)
    ensures var r := Trials(b, props, start, count, paths, profile, draws);
            forall j :: |paths| <= j < |r.paths| ==> Rising(r.paths[j])
    decreases if count < 0 then 0 else count
  {
    if count > 0 {
      var e := Trial(b, props, profile, Launch(start), draws);
      if e.halt == Completed {
        var paths' := paths + [e.walk.path];
        TrialPath(b, props, profile, Launch(start), draws);
        TrialKeepsAttenuating(b, props, profile, Launch(start), draws, 0.0);
        TrialsKeepEarlier(b, props, start, count - 1, paths', e.profile, e.draws);
        TrialsRising(b, props, start, count - 1, paths', e.profile, e.draws);
        var r := Trials(b, props, start, count - 1, paths', e.profile, e.draws);
        assert Trials(b, props, start, count, paths, profile, draws) == r;
        AppendedPath(paths, e.walk.path, r.paths, Rising);
      }
    }
  }

  /** With no photons to run, nothing is stored and nothing is deposited. */
  lemma NoPhotons(b: seq<real>, props: seq<Properties>, start: Vec3, count: int,
                  paths: seq<seq<Vec3>>, profile: seq<real>, draws: seq<real>)
    requires WellFormed(b, props) && count <= 0
    ensures Trials(b, props, start, count, paths, profile, draws) == RunEnd(paths, profile, draws, Completed)
  {
  }

  /** A photon launched outside [b[0], b[n-1]] dies at the first escape test:
      every trial stores the one-point path [start], deposits nothing and draws
      nothing. */
  lemma {:induction false} LaunchedOutside(b: seq<real>, props: seq<Properties>, start: Vec3, count: nat,
                                           paths: seq<seq<Vec3>>, profile: seq<real>, draws: seq<real>)
    requires WellFormed(b, props) && |b| > 0 && Outside(b, start.z)
    ensures Trials(b, props, start, count, paths, profile, draws) ==
            RunEnd(paths + seq(count, _ => [start]), profile, draws, Completed)
  {
    if count > 0 {
      assert Iterate(b, props, profile, Launch(start), draws) == Continue(profile, Launch(start).(alive := false), draws);
      TrialContinues(b, props, profile, Launch(start), draws);
      assert Trial(b, props, profile, Launch(start), draws) == TrialEnd(Launch(start).(alive := false), profile, draws, Completed);
      LaunchedOutside(b, props, start, count - 1, paths + [[start]], profile, draws);
      assert paths + [[start]] + seq(count - 1, _ => [start]) == paths + seq(count, _ => [start]);
    }
  }

  /** The profile index error happens only for a photon exactly on the outer
      boundary b[n-1], when the profile has one entry per layer below it. */
  lemma {:induction false} TrialIndexError(b: seq<real>, props: seq<Properties>, profile: seq<real>, w: Walk, draws: seq<real>)
    requires WellFormed(b, props) && |w.path| > 0 && |b| > 0 && |profile| == |b| - 1
    ensures var e := Trial(b, props, profile, w, draws);
            e.halt.ProfileIndexError? ==> e.halt.depth == b[|b| - 1]
    decreases |draws|, if w.alive then 1 else 0
  {
    if w.alive {
      var n := Iterate(b, props, profile, w, draws);
      IterateShape(b, props, profile, w, draws);
      if n.Continue? {
        TrialIndexError(b, props, n.profile, n.walk, n.draws);
      } else if !Outside(b, Last(w.path).z) && |draws| > 0 {
        var i := LayerIndex(b, Last(w.path).z);
        if props[i]["mu_s"] != 0.0 {
          var ev := StepEvent(w.weight, props[i]["mu_a"], props[i]["mu_s"], draws[0]);
          IterateInMesh(b, props, profile, w, draws, i, ev);
        }
      }
    }
  }

  /** The same for a whole run: it can stop with a profile index error only at
      a depth equal to the last boundary. */
  lemma {:induction false} RunIndexError(b: seq<real>, props: seq<Properties>, start: Vec3, count: int,
                                         paths: seq<seq<Vec3>>, profile: seq<real>, draws: seq<real>)
    requires WellFormed(b, props) && |b| > 0 && |profile| == |b| - 1
    ensures var r := Trials(b, props, start, count, paths, profile, draws);
            r.halt.ProfileIndexError? ==> r.halt.depth == b[|b| - 1]
    decreases if count < 0 then 0 else count
  {
    if count > 0 {
      var e := Trial(b, props, profile, Launch(start), draws);
      TrialIndexError(b, props, profile, Launch(start), draws);
      if e.halt == Completed {
        RunIndexError(b, props, start, count - 1, paths + [e.walk.path], e.profile, e.draws);
      }
    }
  }

  /** One in-mesh step in a layer that satisfies Attenuating deposits a
      non-negative amount and leaves a weight between 0 and the old one. */
  lemma AttenuatedStep(weight: real, muA: real, muS: real, draw: real, cap: real)
    requires 0.0 < muS && 0.0 <= muA && 0.0 <= draw <= cap && muA * cap <= muS && 0.0 <= weight
    ensures var ev := StepEvent(weight, muA, muS, draw);
            0.0 <= ev.deposit && 0.0 <= ev.weight <= weight
  {
    assert muA * draw <= muA * cap by {
      assert muA * (cap - draw) >= 0.0;
    }
    StepBounds(weight, muA, muS, draw);
    DepositBounds(weight, muA, muS, draw);
  }

  /** One pass of the loop body keeps the profile non-negative and the weight
      between 0 and its old value, when the steps are bounded by 1 / mu_a. */
  lemma IterateNonNegative(b: seq<real>, props: seq<Properties>, profile: seq<real>, w: Walk, draws: seq<real>, cap: real)
    requires WellFormed(b, props) && |w.path| > 0 && w.alive
    requires Attenuating(props, draws, cap) && NonNegative(profile) && 0.0 <= w.weight
    ensures var a := After(Iterate(b, props, profile, w, draws));
            NonNegative(a.profile) && 0.0 <= a.walk.weight <= w.weight
  {
    if |b| > 0 && !Outside(b, Last(w.path).z) && |draws| > 0 {
      var i := LayerIndex(b, Last(w.path).z);
      var layer := props[i];
      assert layer in props && draws[0] in draws;
      var ev := StepEvent(w.weight, layer["mu_a"], layer["mu_s"], draws[0]);
      IterateInMesh(b, props, profile, w, draws, i, ev);
      AttenuatedStep(w.weight, layer["mu_a"], layer["mu_s"], draws[0], cap);
      if i < |profile| {
        var p' := profile[i := profile[i] + ev.deposit];
        assert NonNegative(p') by {
          forall j | 0 <= j < |p'| ensures 0.0 <= p'[j] {
            if j != i {
              assert p'[j] == profile[j];
            }
          }
        }
      }
    }
  }

  /** Over a whole trial the profile stays non-negative and the weight never
      grows or goes negative, when the steps are bounded by 1 / mu_a. */
  lemma {:induction false} TrialNonNegative(b: seq<real>, props: seq<Properties>, profile: seq<real>, w: Walk,
                                            draws: seq<real>, cap: real)
    requires WellFormed(b, props) && |w.path| > 0
    requires Attenuating(props, draws, cap) && NonNegative(profile) && 0.0 <= w.weight
    ensures var e := Trial(b, props, profile, w, draws);
            NonNegative(e.profile) && 0.0 <= e.walk.weight <= w.weight
    decreases |draws|, if w.alive then 1 else 0
  {
    if w.alive {
      var n := Iterate(b, props, profile, w, draws);
      IterateNonNegative(b, props, profile, w, draws, cap);
      if n.Continue? {
        IterateShape(b, props, profile, w, draws);
        SuffixKeepsForward(props, draws, n.draws, cap);
        TrialContinues(b, props, profile, w, draws);
        TrialNonNegative(b, props, n.profile, n.walk, n.draws, cap);
      } else {
        TrialStops(b, props, profile, w, draws);
      }
    }
  }

  /** Over a whole run the absorption profile stays non-negative, when the steps
      are bounded by 1 / mu_a. */
  lemma {:induction false} RunNonNegative(b: seq<real>, props: seq<Properties>, start: Vec3, count: int,
                                          paths: seq<seq<Vec3>>, profile: seq<real>, draws: seq<real>, cap: real)
    requires WellFormed(b, props) && Attenuating(props, draws, cap) && NonNegative(profile)
    ensures NonNegative(Trials(b, props, start, count, paths, profile, draws).profile)
    decreases if count < 0 then 0 else count
  {
    if count > 0 {
      var e := Trial(b, props, profile, Launch(start), draws);
      TrialNonNegative(b, props, profile, Launch(start), draws, cap);
      if e.halt == Completed {
        TrialKeepsAttenuating(b, props, profile, Launch(start), draws, cap);
        RunNonNegative(b, props, start, count - 1, paths + [e.walk.path], e.profile, e.draws, cap);
        assert Trials(b, props, start, count, paths, profile, draws) ==
               Trials(b, props, start, count - 1, paths + [e.walk.path], e.profile, e.draws);
      }
    }
  }

  /** Without the bound mu_a * step <= 1 the profile can go negative: one layer
      with mu_s = mu_a = 1 and draws 2 then 3 deposit 2, then -3, and leave the
      photon with weight 2. */
  lemma NegativeDeposit(p: Properties)
    requires p == map["n" := 1.0, "mu_s" := 1.0, "mu_a" := 1.0, "g" := 0.0]
    ensures Trials([0.0, 10.0], [p, p], Vec3(0.0, 0.0, 1.0), 1, [], [0.0], [2.0, 3.0]) ==
            RunEnd([[Vec3(0.0, 0.0, 1.0), Vec3(0.0, 0.0, 3.0), Vec3(0.0, 0.0, 6.0)]], [-1.0], [], Completed)
  {
    var b, props := [0.0, 10.0], [p, p];
    var w0 := Launch(Vec3(0.0, 0.0, 1.0));
    var w1 := Walk([Vec3(0.0, 0.0, 1.0), Vec3(0.0, 0.0, 3.0)], -1.0, true);
    var w2 := Walk([Vec3(0.0, 0.0, 1.0), Vec3(0.0, 0.0, 3.0), Vec3(0.0, 0.0, 6.0)], 2.0, false);
    assert LayerIndex(b, 1.0) == 0 && LayerIndex(b, 3.0) == 0;
    IterateInMesh(b, props, [0.0], w0, [2.0, 3.0], 0, StepEvent(1.0, 1.0, 1.0, 2.0));
    assert Iterate(b, props, [0.0], w0, [2.0, 3.0]) == Continue([2.0], w1, [3.0]);
    IterateInMesh(b, props, [2.0], w1, [3.0], 0, StepEvent(-1.0, 1.0, 1.0, 3.0));
    assert Iterate(b, props, [2.0], w1, [3.0]) == Continue([-1.0], w2, []);
    TrialContinues(b, props, [0.0], w0, [2.0, 3.0]);
    TrialContinues(b, props, [2.0], w1, [3.0]);
    assert Trial(b, props, [0.0], w0, [2.0, 3.0]) == TrialEnd(w2, [-1.0], [], Completed);
  }
}
