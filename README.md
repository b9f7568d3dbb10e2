# BioMonteCarlo photon-transport core in Dafny

BioMonteCarlo is a Monte Carlo simulator of light in layered biological tissue. This project
models its core: the layered mesh, the photon, and the simulation driver.

**The mesh** (`mesh.dfy`, module `Mesh`) is class `LayeredMesh`. It holds two sequences:
- the depth boundaries;
- the optical-property records, one per boundary.

`AddLayer` validates a new layer before appending it:
- the boundary must lie above the last one;
- the record must carry the four keys `n`, `mu_s`, `mu_a` and `g`.

The lookups are pure functions over the two sequences:
- `LayerIndex` is the range test followed by numpy's `searchsorted(..., side='right') - 1`, computed with `SearchSortedRight`. Its own postconditions say which layer it returns.
- `PropertiesAt` returns the record of that layer.

**The photon** (`photon.dfy`, module `Photons`) is class `Photon`. Its fields are position, direction, path, weight and alive. Its operations are:
- the dataclass constructor together with `__post_init__`;
- `move`, which appends to the path in place;
- `check_weight`.

**The driver** (`simulation.dfy`, module `Simulation`) is class `MonteCarloSimulator`:
- the constructor allocates the absorption profile as an array of zeros, one per layer below the last boundary;
- `Run` is the `for` loop over photons;
- `Propagate` is the `while photon.alive` loop;
- `Pass` is one pass of that loop body.

What the driver computes is written as functions in `transport.dfy` (module `Transport`):
- `Iterate` is one pass of the loop body;
- `Trial` is the whole `while` loop for one photon;
- `Trials` is the whole run.

Each method's postcondition ties its result to these functions:
- `Run`: the new paths, the new profile and the halt are the ones `Trials` gives.
- `Propagate` and `Pass`: the photon, the profile and the draws left over are the ones `Trial` and `Iterate` give.

`transport_lemmas.dfy` (module `TransportProperties`) proves what the run guarantees, about those functions.

Three helper functions have no row of their own:
- `Validate` holds the two checks of `add_layer` (`mesh.py:37-40`). The `AddLayer` row states them.
- `StepEvent` holds the arithmetic of one step (`simulation.py:76`, `81-82`). The `StepConserves` and `IterateInMesh` rows state it.
- `Launch` is the new photon of `run` (`simulation.py:64`). The `TrialsStraight` row states where it starts.

**Randomness.** The random source is a parameter of `Run`: a sequence of exponential draws `e = -ln(u)`, one per in-mesh step. The step is `e / mu_s`, as in `simulation.py:76`.

**Failures.** The run stops with a `Halt` value, not a precondition, in these cases:
- An empty mesh: reading `b[0]` raises.
- A photon exactly at the last boundary: it is given layer `n-1`, but the profile has only `n-1` entries, so the write raises IndexError.
- `mu_s == 0`: the code does not fail here; numpy's division gives an infinite step. Exact reals have no infinity, so the model stops with `InfiniteStep` (see "Left out").
- The injected draws run out.

Every earlier step of the run keeps its effect. For the two exceptions, this is what the code does.

Where the code and its documentation differ, the model follows the code:
- **Default position.** It is `(0, 0, 1)` (`photon.py:37`), not the origin the docstring names (`photon.py:18`).
- **Start position.** `run` passes the initial direction to `Photon` positionally (`simulation.py:64`), so it becomes the photon's position. Every photon therefore starts at `initial_photon_direction` and moves along the default direction `(0, 0, 1)`.
- **Weight check.** `check_weight` sees the weight before it is rescaled. The deposit and the rescaling still happen in the pass where the photon dies (`simulation.py:77-82`).
- **Negative weights.** The rescaling `w * (1 - mu_a * step)` is linear, so a step longer than `1 / mu_a` makes the weight negative, and the next deposit negative. `NegativeDeposit` shows a run whose profile ends at -1. Non-negativity is proved under that bound only (`RunNonNegative`).

## Model

| member | source | states |
|---|---|---|
| Mesh.SearchSortedRight | BioMonteCarlo/mesh.py:64 | the insertion point after all equal elements: every element before it is <= v, every element from it on is > v |
| Mesh.LayerIndex | BioMonteCarlo/mesh.py:62-64 | -1 exactly when z < b[0] or z > b[n-1]; otherwise the largest i with b[i] <= z, with z < b[i+1] when i+1 < n; i = n-1 only when z == b[n-1] |
| Mesh.BoundaryStartsLayer | BioMonteCarlo/mesh.py:64 | a depth equal to boundary b[k] of a strictly increasing mesh maps to layer k, the layer that begins there |
| Mesh.PropertiesAt | BioMonteCarlo/mesh.py:81-84 | None exactly outside [b[0], b[n-1]]; otherwise the record of a layer i with b[i] <= z < b[i+1], which carries the four required keys |
| Mesh.SecondLayerExample | tests/test_mesh.py:31-41 | with boundaries [0, 1.5, 3.0], depth 2.0 gets the second record |
| Mesh.AppendKeepsIncreasing | BioMonteCarlo/mesh.py:37-46 | appending a boundary above the last keeps the boundaries strictly increasing |
| Mesh.LayeredMesh.constructor | BioMonteCarlo/mesh.py:15-16 | a new mesh has no boundaries and no records |
| Mesh.LayeredMesh.AddLayer | BioMonteCarlo/mesh.py:37-46 | fails with BoundaryNotIncreasing iff the mesh is non-empty and boundary <= last boundary; fails with MissingProperty iff the boundary check passes and a key is missing; a failure changes nothing; a success appends exactly the boundary and the record; strict increase and equal lengths are kept |
| Mesh.LayeredMesh.GetLayerIndex | BioMonteCarlo/mesh.py:62-64 | on a non-empty mesh, an index in [-1, n) that is LayerIndex of the current boundaries |
| Mesh.LayeredMesh.GetPropertiesAt | BioMonteCarlo/mesh.py:81-84 | None iff GetLayerIndex is -1, otherwise the record at that index |
| Photons.Photon.constructor | BioMonteCarlo/photon.py:37-48 | position and direction default to (0, 0, 1); path is [position], weight 1.0, alive |
| Photons.Photon.Move | BioMonteCarlo/photon.py:63-64 | appends exactly old path[-1] + direction * step; earlier points, position, direction, weight and alive are unchanged |
| Photons.MoveAlongDefault | BioMonteCarlo/photon.py:39 | a move along the default direction changes only the depth, by the step |
| Photons.Photon.CheckWeight | BioMonteCarlo/photon.py:112-124 | default threshold 0.001; alive becomes old alive and not (weight < threshold), so a dead photon is never revived; weight and path are unchanged |
| Transport.Iterate | BioMonteCarlo/simulation.py:66-82 | a pass that continues keeps a non-empty path and the profile's length, and either kills the photon without drawing or uses exactly one draw; a pass that stops keeps the profile's length and leaves a suffix of the draws |
| Transport.IterateInMesh | BioMonteCarlo/simulation.py:73-82 | inside the mesh the looked-up index is in [0, n); the photon moves by draw / mu_s along +z; check_weight sees the pre-rescale weight w; only profile[i] changes, by w * mu_a * step; the weight becomes w * (1 - mu_a * step), even in the pass that kills the photon; an index past the profile ends the run with an index error |
| Transport.Trial | BioMonteCarlo/simulation.py:65-82 | the `while photon.alive` loop: the profile keeps its length, and the draws left over are what remains after some prefix was used |
| Transport.Trials | BioMonteCarlo/simulation.py:63-84 | the `for` loop of run: at most num_photons paths are added, exactly num_photons when every trial completes; the profile keeps its length |
| Transport.OuterBoundaryRaises | BioMonteCarlo/simulation.py:73-81 | a live photon exactly at b[n-1], with a draw left and mu_s != 0, gets layer n-1 and makes the trial stop with an index error at depth b[n-1] when the profile has n-1 entries |
| TransportProperties.StepConserves | BioMonteCarlo/simulation.py:76-82 | step * mu_s is the draw, and the deposit plus the rescaled weight is the old weight: what the photon loses is what is deposited |
| TransportProperties.StepBounds | BioMonteCarlo/simulation.py:76 | a non-negative draw over a positive mu_s is a non-negative step; mu_a * draw <= mu_s bounds mu_a * step by 1 |
| TransportProperties.DepositBounds | BioMonteCarlo/simulation.py:81-82 | with weight, mu_a and step non-negative, the deposit is non-negative; if also mu_a * step <= 1, the new weight lies in [0, w] |
| TransportProperties.AttenuatedStep | BioMonteCarlo/simulation.py:76-82 | under the draw cap, one step deposits a non-negative amount and leaves a weight in [0, w] |
| TransportProperties.IterateShape | BioMonteCarlo/simulation.py:66-82 | one pass adds at most one point, with the same x and y; the point is no shallower when the draws are non-negative and mu_s > 0; the profile keeps its length; at most the first draw is used |
| TransportProperties.TrialPath | BioMonteCarlo/simulation.py:65-82 | a trial only appends to the path; the path moves along z only, and only deeper when the draws are non-negative and mu_s > 0 |
| TransportProperties.TrialsKeepEarlier | BioMonteCarlo/simulation.py:63-84 | the paths stored before the run stay, in order, at the front of the new paths |
| TransportProperties.TrialsStraight | BioMonteCarlo/simulation.py:63-84 | every stored path starts at initial_photon_direction and changes only in z |
| TransportProperties.TrialsRising | BioMonteCarlo/simulation.py:63-84 | with non-negative draws and every mu_s > 0, every stored path only goes deeper |
| TransportProperties.NoPhotons | BioMonteCarlo/simulation.py:63 | with num_photons <= 0, the run completes with paths, profile and draws unchanged |
| TransportProperties.LaunchedOutside | BioMonteCarlo/simulation.py:63-84 | photons launched outside [b[0], b[n-1]] each store the one-point path [start], deposit nothing and use no draw |
| TransportProperties.TrialIndexError | BioMonteCarlo/simulation.py:73-81 | with a profile of n-1 entries, a trial can stop on an index error only at depth b[n-1] |
| TransportProperties.RunIndexError | BioMonteCarlo/simulation.py:63-84 | with a profile of n-1 entries, a run can stop on an index error only at depth b[n-1] |
| TransportProperties.IterateNonNegative | BioMonteCarlo/simulation.py:66-82 | when every draw is at most cap, mu_a >= 0, mu_s > 0 and mu_a * cap <= mu_s: one pass keeps the profile non-negative and the weight in [0, w] |
| TransportProperties.TrialNonNegative | BioMonteCarlo/simulation.py:65-82 | under the same bound, a trial keeps the profile non-negative and never raises the weight or makes it negative |
| TransportProperties.RunNonNegative | BioMonteCarlo/simulation.py:63-84 | under the same bound, a run from a non-negative profile leaves it non-negative |
| TransportProperties.NegativeDeposit | BioMonteCarlo/simulation.py:81-82 | without the bound, one layer with mu_s = mu_a = 1 and draws 2 then 3 ends with profile [-1] and weight 2 |
| Simulation.MonteCarloSimulator.constructor | BioMonteCarlo/simulation.py:48-53 | stores mesh, count and direction; no paths; a fresh profile of max(n-1, 0) zeros |
| Simulation.MonteCarloSimulator.Run | BioMonteCarlo/simulation.py:63-84 | the new paths, the new profile and the halt are those Trials gives for num_photons photons from the old state |
| Simulation.MonteCarloSimulator.Propagate | BioMonteCarlo/simulation.py:65-82 | the photon's final path, weight and alive, the profile, and the draws left over are those Trial gives |
| Simulation.MonteCarloSimulator.Pass | BioMonteCarlo/simulation.py:66-82 | one pass changes the photon and the profile exactly as Iterate says, and returns where the source would raise |

## Left out

- `LayeredMesh.plot`, `MonteCarloSimulator.plot_photon_paths` and `BioMonteCarlo/analysis.py`: plotting and reporting, with no effect on the engine.
- `Photon.scatter`, `Photon.absorb` and `BioMonteCarlo/henyey_greenstein.py`: `run` never calls them, and they rest on `np.random`, `exp` and trigonometry. The direction therefore stays `(0, 0, 1)` throughout a run.
- `np.random.rand` and `np.log`: the draws `-ln(u)` are a parameter of `Run`. Running out of draws stops the run with `OutOfDraws`, which has no counterpart in the code; it is what bounds the otherwise unbounded `while` loop.
- Floating point: all quantities are exact reals. `NaN` and `inf` values, a draw of `inf` (from `u == 0`) and rounding are not modelled.
- InfiniteStep: with `mu_s == 0` the code does not stop. It takes an infinite step, the path gains the point `(nan, nan, inf)` and `profile[i]` becomes `inf` (`nan` when `mu_a == 0`). The photon then escapes and the run goes on with the remaining photons. The model cannot represent these values, so it halts the whole run at that pass.
- numpy dtypes: an all-integer boundary array gives an integer profile in the code, which truncates the deposits; the model keeps every profile real.
- Property records are `map<string, real>`. Non-numeric keyword values are not modelled.
- Positions and directions are 3-vectors; arrays of other lengths are not modelled.
- The `LayeredMesh(boundaries, properties)` constructor and the `layer_boundaries` / `layer_properties` attributes that `tests/test_mesh.py` uses do not exist in `mesh.py`. That API is not modelled; the expected lookup of the test is `SecondLayerExample`.
- Writes to the mesh's private fields other than through `add_layer` are not modelled: `LayeredMesh.Valid` assumes the mesh was built by `AddLayer`.
- `docs/examples/` are scripts and are not part of this model.
- RunNonNegative: holds only under the draw cap (`mu_a * cap <= mu_s`, all draws in `[0, cap]`). The code itself allows negative deposits, as `NegativeDeposit` shows.
