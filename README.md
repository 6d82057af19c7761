# scqubits qubit base class: the spectrum-sweep core

This project models the orchestration layer of scqubits' `QuantumSystem` and
`QubitBaseClass` (`scqubits/core/qubit_base.py`). A qubit object carries named
real-valued attributes (`flux`, `ng`, `EJ`, ...). Its spectrum routines work as
follows:

- They set those attributes one parameter value at a time.
- They call an eigensolver at each value and collect the results in input order.
- Optionally, they shift every energy row by its own ground energy.
- Finally, they restore the swept attribute.

The dispersion routine also does these things:

- It normalises its `levels`/`transitions` arguments.
- It derives how many levels must be solved.
- It reduces an energy cube `[induced sample][swept value][level]` to `max - min` over the induced samples.

The matrix-element routine runs a sweep with eigenstates. It then builds one
matrix-element table per parameter value.

The numerical parts are collaborators the model cannot see: the subclass's
`hilbertdim()` and `hamiltonian()`, scipy's `eigh`, `order_eigensystem`, the
operator methods and `get_matrixelement_table`. They are fields of the datatype
`Eigen.Hamiltonian`, which holds them as functions of the parameter state. Its
`Valid()` predicate states their contracts:

- a window of `n` eigenvalues has `n` entries;
- an ordered eigensystem is ascending, has one vector per value, and holds the
  same eigenvalues `eigh` returns for the same Hamiltonian and window;
- a matrix-element table is square in the number of vectors.

Modules, following the structure of the Python file:

- `Base` — errors (`AttributeError`; `DimensionError`, the model's name for
  the ValueError scipy raises for an eigenvalue window outside the Hilbert
  space; `ValueError`; `IndexError`; `TypeError`), `Result`, `Option`, the
  parameter map and `Sorted`.
- `Eigen` — `_evals_calc` (solve then `np.sort`), `_esys_calc`,
  `matrixelement_table`, and the sort with its uniqueness lemmas.
- `Sweep` — the per-point solve (`_evals_for_paramval` / `_esys_for_paramval`),
  the sequential map that stops at the first raising point, the energy and
  state tables, and the in-place ground subtraction.
- `Arguments` — the `levels`/`transitions` normalisation, `max_level`, and the
  `evals_count` derivation of `plot_matelem_vs_paramvals`.
- `Dispersion` — the cube reduction, its value lemmas and the transpose.
- `QubitBase` — the class `Qubit`. It holds the collaborators, `_init_params`
  and the attribute map `params`, which the methods update in place.

Facts about the code that the model keeps:

- The code has no `try/finally`, so the swept attribute is restored only when
  the sweep returns normally. When a solve raises, the attribute is left at the
  value that raised, and the postconditions of `Qubit.GetSpectrumVsParamvals`
  and `Qubit.MapParamvals` say so.
- `_compute_dispersion` likewise restores both attributes only on its normal
  return.
- `subtract_ground` applies to both the eigenvalues-only sweep and the
  eigenstates sweep, since the shift loop follows both branches.
- In `get_matelements_vs_paramvals` the operator matrix is taken inside
  `matrixelement_table` (line 303), after the sweep has restored the swept
  attribute (line 416). For an operator that depends on the swept parameter,
  each slice pairs that point's eigenvectors with the operator at the original
  value. `Qubit.GetMatelementsVsParamvals` states exactly this.
- Attributes and methods share one namespace. An operator name that is a
  numeric attribute is found by `getattr` first, and calling it raises a
  TypeError. `Eigen.MatrixelementTable` checks this before looking for an
  operator method.

## Model

| member | source | states |
|---|---|---|
| Eigen.EvalsCalc | scqubits/core/qubit_base.py:188-193 | succeeds exactly when `1 <= evals_count <= hilbertdim()`, otherwise a dimension error; the result has `evals_count` entries, is ascending and is a permutation of the solver's values |
| Eigen.EsysCalc | scqubits/core/qubit_base.py:195-201 | succeeds exactly in the same window; `evals_count` ascending values with one eigenvector each |
| Eigen.EvalsAgreeWithEsys | scqubits/core/qubit_base.py:188-201 | `eigenvals` and `eigensys` at the same state succeed in the same window and return the same ascending eigenvalues |
| Eigen.Sort | scqubits/core/qubit_base.py:193 | `np.sort`: ascending, same multiset, same length |
| Eigen.Insert | scqubits/core/qubit_base.py:193 | inserting into an ascending sequence keeps it ascending, adds exactly the value and starts with the smaller of the value and the old head |
| Eigen.SortedPermutationUnique | scqubits/core/qubit_base.py:193 | two ascending sequences with the same values are equal, so the sorted spectrum is determined by the solver's values alone |
| Eigen.SortDependsOnlyOnValues | scqubits/core/qubit_base.py:188-193 | the sorted eigenvalues do not depend on the order in which the solver returned them |
| Eigen.SortOfSorted | scqubits/core/qubit_base.py:193 | sorting an ascending sequence changes nothing |
| Eigen.MatrixelementTable | scqubits/core/qubit_base.py:301-304 | eigenvectors solved on the fly only when none are given (dimension error outside the window), then `getattr` of the operator (a type error when the name is a numeric attribute, which is then called; an attribute error when it is neither an attribute nor an operator method); succeeds exactly when the vectors exist and the name is an operator method; the table is square in the number of eigenvectors |
| QubitBase.Qubit.GetInitdata | scqubits/core/qubit_base.py:124-127 | exactly the `_init_params` names, each with its current attribute value |
| QubitBase.Qubit.SetParams | scqubits/core/qubit_base.py:154-159 | every keyword becomes an attribute with its value and nothing else changes (`params == old(params) + kwargs`) |
| QubitBase.Qubit.SetAndReturn | scqubits/core/qubit_base.py:824-848 | sets one attribute, changes nothing else, returns the object itself |
| QubitBase.Qubit.Eigenvals | scqubits/core/qubit_base.py:203-234 | `_evals_calc` at the current attributes: the window condition decides success, and the values are ascending with `evals_count` entries |
| QubitBase.Qubit.Eigensys | scqubits/core/qubit_base.py:236-268 | `_esys_calc` at the current attributes, with the same window condition and shapes |
| QubitBase.Qubit.MatrixelementTable | scqubits/core/qubit_base.py:270-311 | the method's steps give `Eigen.MatrixelementTable` at the current attributes, and the table is square in the given vectors or in `evals_count` |
| QubitBase.Qubit.EvalsForParamval | scqubits/core/qubit_base.py:319-323 | sets the attribute and returns the eigenvalues solved at the new state |
| QubitBase.Qubit.EsysForParamval | scqubits/core/qubit_base.py:313-317 | sets the attribute and returns the eigensystem solved at the new state |
| QubitBase.Qubit.SolveForParamval | scqubits/core/qubit_base.py:365-389 | the function the map applies: the eigensystem or the eigenvalues solver, chosen by `get_eigenstates`, with the attribute set |
| Sweep.SolvePoint | scqubits/core/qubit_base.py:313-323 | the per-point solve fails exactly outside the window; it yields `evals_count` ascending values, and vectors exactly when eigenstates are requested |
| Sweep.CollectDone | scqubits/core/qubit_base.py:373-383 | a completed sequential map has one point per input, and point `n` is result `n` |
| Sweep.CollectFailed | scqubits/core/qubit_base.py:373-383 | a failed map reports an input whose result raised, with that error, and every earlier result succeeded (the first failure) |
| Sweep.FailurePersists | scqubits/core/qubit_base.py:373-383 | once a prefix of the map has raised, the whole map raises the same way |
| Sweep.CollectStep | scqubits/core/qubit_base.py:373-383 | extending a completed prefix by one input appends that input's point or stops there with its error |
| Sweep.SweepPoints | scqubits/core/qubit_base.py:364-410 | a completed sweep has row `n` equal to the solve with the attribute set to `param_vals[n]`; a failed sweep fails at the first value whose solve raised |
| Sweep.Solves | scqubits/core/qubit_base.py:365-407 | one result per parameter value, result `n` being the solve with the attribute set to `param_vals[n]` |
| Sweep.SolveSweep | scqubits/core/qubit_base.py:364-410 | the sequential map (`list(target_map(func, param_vals))` at lines 373-383 and 397-407) of the per-point solve: a completed sweep has one point per value, a failed one fails at one of the values |
| Sweep.SweepDoneIffAllSolve | scqubits/core/qubit_base.py:364-410 | a sweep completes exactly when every parameter value is inside the eigenvalue window |
| Sweep.SweepOrdering | scqubits/core/qubit_base.py:365-384 | the energy table has one row per value, and row `n` is `_evals_calc` at `param_vals[n]`, with `evals_count` ascending entries, in input order |
| Sweep.SweepOrderingWithStates | scqubits/core/qubit_base.py:387-410 | row `n` of the energy and state tables is the ordered eigensystem solved at `param_vals[n]` |
| Sweep.Shift | scqubits/core/qubit_base.py:414 | a row shifted by its own original first entry: same length, the first entry becomes 0, every difference between two entries is kept, and ascending order is kept |
| Sweep.ShiftRows | scqubits/core/qubit_base.py:412-414 | one row per row of the table, each shifted by its own original first entry |
| Sweep.SubtractGround | scqubits/core/qubit_base.py:412-414 | the in-place loop leaves every row shifted by its own original first entry |
| QubitBase.Qubit.MapParamvals | scqubits/core/qubit_base.py:364-410 | the loop computes the sequential map of the per-point solve over `param_vals`, and leaves the attribute at the last value it applied (the failing one when a solve raised) |
| QubitBase.Qubit.GetSpectrumVsParamvals | scqubits/core/qubit_base.py:325-433 | a missing attribute raises before anything changes; a raising solve propagates and leaves the attribute at that value; otherwise the attribute is restored and the record holds the (shifted) energy table, the init data, the name, the values and the optional state table |
| Arguments.Flatten | scqubits/core/qubit_base.py:814 | two indices per pair, and only indices some pair mentions |
| Arguments.FlattenInOrder | scqubits/core/qubit_base.py:814 | pair `k` occupies positions `2k` and `2k + 1`, so every index of every pair is present, in order |
| Arguments.MaxIndex | scqubits/core/qubit_base.py:815 | `max()` / `np.max` of a non-empty index sequence: one of its entries, and no entry exceeds it |
| Arguments.Normalise | scqubits/core/qubit_base.py:532-535 | an int `levels` becomes a singleton and leaves `transitions` alone; otherwise reading `transitions[0]` of an empty tuple raises an index error, and a bare pair is wrapped as a one-pair tuple; the requested pairs never change |
| Arguments.MaxLevel | scqubits/core/qubit_base.py:460 | the largest index of `levels` when it is truthy, else of the flattened transitions; raises exactly when there are none; solving `max_level + 1` levels covers every index the reduction reads |
| Arguments.EvalsCount | scqubits/core/qubit_base.py:811-815 | an int gives itself; a list of pairs gives one more than its largest index, which bounds every index and is attained; an empty list raises |
| Dispersion.MaxOf | scqubits/core/qubit_base.py:475 | `np.max`: attained by some sample and bounds them all |
| Dispersion.MinOf | scqubits/core/qubit_base.py:475-477 | `np.min`: attained by some sample and below them all |
| Dispersion.TransitionRow | scqubits/core/qubit_base.py:474-477 | one entry per swept value; entry `k` for pair `(i, j)` bounds every difference of `E[., k, i] - E[., k, j]` between two induced samples and is one of them |
| Dispersion.LevelRow | scqubits/core/qubit_base.py:481-482 | one entry per swept value; entry `k` for level `j` bounds every difference of `E[., k, j]` between two induced samples and is one of them |
| Dispersion.Spread | scqubits/core/qubit_base.py:475-477 | `max - min` is never negative, bounds every difference of two samples and equals one of them |
| Dispersion.SpreadZeroIffConstant | scqubits/core/qubit_base.py:482 | the spread is zero exactly when all samples are equal |
| Dispersion.Dispersions | scqubits/core/qubit_base.py:471-482 | one row per requested level when `levels` is given, else one per transition pair, each with one entry per swept value, all non-negative; unpacking a bare pair raises a type error exactly when no levels are given and the transitions are a bare pair |
| Dispersion.ReduceCube | scqubits/core/qubit_base.py:471-482 | the row-filling loops compute `Dispersions` |
| Dispersion.TransitionDispersionValues | scqubits/core/qubit_base.py:473-477 | entry `(q, k)` for pair `(i, j)` bounds every difference of `E[., k, i] - E[., k, j]` between two induced samples and is attained |
| Dispersion.LevelDispersionValues | scqubits/core/qubit_base.py:479-482 | entry `(q, k)` for level `j` is `max - min` of `E[., k, j]`: it bounds every difference and is attained |
| Dispersion.FlatLevelHasZeroDispersion | scqubits/core/qubit_base.py:479-482 | a level has zero dispersion at a swept value exactly when its energy is the same in every induced sample |
| Dispersion.Transpose | scqubits/core/qubit_base.py:557 | `dispersion.T`: dimensions swapped and `t[k][r] == d[r][k]` |
| Dispersion.TransposeTwice | scqubits/core/qubit_base.py:557 | transposing twice gives the table back |
| QubitBase.LabelsFor | scqubits/core/qubit_base.py:556 | `levels or transitions`: the levels exactly when they are given and non-empty, the transitions otherwise |
| QubitBase.DispersionTable | scqubits/core/qubit_base.py:458-482 | a missing dispersion attribute raises first, then a missing swept attribute, before `max_level` and the reduction; when it succeeds, the table has one non-negative row per request, each of the swept length |
| QubitBase.Qubit.ComputeDispersion | scqubits/core/qubit_base.py:435-486 | returns the cube and `DispersionTable` of the state before the call; both attributes are restored unless the reduction raised after the composite sweep, in which case they keep the sweep's last values |
| QubitBase.Qubit.GetDispersionVsParamvals | scqubits/core/qubit_base.py:488-559 | normalisation first (an index error leaves everything as it was); the record holds the cube, the init data, the labels `levels or transitions` and the transposed dispersion; after normalisation the reduction cannot fail after the sweep, so the attributes always end as they began |
| QubitBase.Qubit.GetMatelementsVsParamvals | scqubits/core/qubit_base.py:561-613 | a sweep with eigenstates, then slice `index` is the matrix-element table of `state_table[index]`, attached to the sweep's record; the table has shape `(len(param_vals), evals_count, evals_count)`; once there is at least one value, an operator name that is a numeric attribute raises a type error and one that names nothing raises an attribute error; a negative `evals_count` that gets through the sweep (no values) makes `np.empty` raise a value error |
| QubitBase.AssembleTables | scqubits/core/qubit_base.py:384-414 | the energy table (shifted row by row when `subtract_ground`) and, when eigenstates were requested, the state table, both from the sweep's points in order |
| QubitBase.MatelemSlices | scqubits/core/qubit_base.py:601-610 | one table per point's eigenvectors, each square in their number |

## Left out

- Numerical linear algebra: `eigh`, `order_eigensystem`, `recast_esys_mapdata`, `get_matrixelement_table` and the operator matrices are opaque functions with shape contracts only. Floating point is modelled by exact reals, and complex entries by pairs of reals.
- Solver failures other than the eigenvalue window are not modelled, for example non-convergence of `eigh`.
- The parallel map (`get_map_method`, `num_cpus > 1`, worker copies of the object) is not modelled. The model is the sequential map.
- Progress and status output (`tqdm`, `InfoBar`) is observational I/O and is not modelled.
- The `filename`, `return_spectrumdata` and `return_datastore` options, and `SpectrumData`/`DataStore` construction and file output, are not modelled. Results are plain records. The second identical `SpectrumData` built at lines 417-423 is not modelled separately.
- The `ref_param` rescaling of `get_dispersion_vs_paramvals` (`param_vals /= ...`) works on floating-point arrays in place and is not modelled.
- The composite sweep over `HilbertSpace`/`ParameterSweep` is not part of this model. Its energy cube is an input with at least one induced sample. Its last values for the two attributes are an input pair (`lastApplied`). The `np.linspace(0.0, 1.0, point_count)` grid and `point_count` are therefore not modelled.
- QubitBase.Qubit.ComputeDispersion: failures inside the composite sweep itself are not modelled, nor is a bare int `levels` passed to `_compute_dispersion` directly (it takes the normalised form only).
- Negative (from-the-end) indices in `levels` and `transitions` are not modelled: they are natural numbers. Tuples of arity other than two in `transitions` are not modelled either.
- Attribute values are reals.
- QubitBase.Qubit.GetInitdata: it assumes every `_init_params` name is an attribute (a class invariant), so the `AttributeError` that `getattr` would raise otherwise is not modelled.
- Eigen.MatrixelementTable: the operator map holds only zero-argument operator methods. A method that needs arguments (such as `potential`) raises a TypeError when called at line 303. A zero-argument method that is not an operator (such as `hilbertdim` or `eigenvals`) is called there, and its result is passed to `get_matrixelement_table` at line 304. The model has no such names and gives an attribute error for both.
- Eigen.MatrixelementTable: the dimensions of the eigenvectors are not modelled, so a mismatch between the eigenvectors and the operator matrix is not an error in the model. The table builder is total on any matrix and vectors. In the code, `get_matrixelement_table` fails when given vectors whose length differs from the operator's dimension (line 304).
- QubitBase.Qubit.GetMatelementsVsParamvals: the dimension mismatch that lines 394-396 allow is not modelled. For a system whose Hilbert dimension varies with the swept parameter, the eigenvectors of point `n` can have a different length than the operator taken at the restored state (lines 303 and 416). The code's table builder then fails, while the model returns `Ok`.
- QubitBase.Qubit.GetSpectrumVsParamvals: parameter names are the numeric attributes only. A `param_name` that names a method (such as `"hamiltonian"`) passes the `getattr` at line 361 in the code and is then overwritten by `setattr`. The model gives an attribute error for it, because it has no method-valued attributes.
- Default argument values are not modelled; every argument is explicit. The defaults are `evals_count=6` (lines 205, 238, 274, 329, 566), `subtract_ground=False` and `get_eigenstates=False` (lines 330-331), `transitions=(0, 1)` (lines 440, 494), `point_count=50` (lines 442, 496) and `select_elems=4` (line 780).
- Eigen.MatrixelementTable: the Hermitian symmetry of a matrix-element table is not stated, because the table builder is opaque.
- Plotting, widgets, `create`, `wavefunction` and friends are UI and not modelled. So are `__repr__`, `__str__`, `__eq__` and `__hash__`, the instance counter of `__new__`/`__del__`, the `__init_subclass__` registry and `truncated_dim`.
