/** QuantumSystem / QubitBaseClass: a qubit object whose named parameters are
    changed in place, with the single-point solves, the parameter sweep, the
    dispersion computation and the matrix elements along a sweep. */
module QubitBase {
  import opened Base
  import opened Eigen
  import opened Sweep
  import opened Arguments
  import opened Dispersion

  /** A SpectrumData record as a sweep hands it to the caller. */
  datatype SpectrumData = SpectrumData(
    energyTable: seq<seq<real>>,
    systemParams: Params,
    paramName: string,
    paramVals: seq<real>,
    stateTable: Option<seq<seq<Vector>>>,
    matrixelemTable: Option<seq<Matrix>>)

  /** The labels of a dispersion result: `levels or transitions`. */
  datatype Labels = LevelLabels(levels: seq<nat>) | TransitionLabels(transitions: TransitionsArg)

  function LabelsFor(levels: Option<seq<nat>>, transitions: TransitionsArg): (l: Labels)
    ensures l.LevelLabels? <==> levels.Some? && levels.value != []
    ensures l.LevelLabels? ==> l.levels == levels.value
    ensures l.TransitionLabels? ==> l.transitions == transitions
  {
    if levels.Some? && levels.value != [] then LevelLabels(levels.value) else TransitionLabels(transitions)
  }

  /** The SpectrumData record get_dispersion_vs_paramvals returns. */
  datatype DispersionData = DispersionData(
    energyTable: Cube,
    systemParams: Params,
    paramName: string,
    paramVals: seq<real>,
    labels: Labels,
    dispersion: seq<seq<real>>)

  /** What _compute_dispersion computes from the parameter state p before the
      call: both names must exist, max_level must exist, then the reduction. */
  function DispersionTable(p: Params, dispersionName: string, paramName: string, swept: nat,
                           transitions: TransitionsArg, levels: Option<seq<nat>>, cube: Cube)
    : (r: Result<seq<seq<real>>>)
    requires |cube| > 0
    requires MaxLevel(transitions, levels).Ok? ==>
               CubeShaped(cube, swept, MaxLevel(transitions, levels).value + 1)
    ensures dispersionName !in p ==> r == Err(AttributeError(dispersionName))
    ensures dispersionName in p && paramName !in p ==> r == Err(AttributeError(paramName))
    ensures r.Ok? ==> |r.value| == (if levels.Some? then |levels.value| else |PairsOf(transitions)|)
    ensures r.Ok? ==> Rectangular(r.value, swept)
    ensures r.Ok? ==> forall q, k :: 0 <= q < |r.value| && 0 <= k < swept ==> r.value[q][k] >= 0.0
  {
    if dispersionName !in p then Err(AttributeError(dispersionName))
    else if paramName !in p then Err(AttributeError(paramName))
    else
      var maxLevel := MaxLevel(transitions, levels);
      if maxLevel.Err? then Err(maxLevel.error)
      else Dispersions(cube, swept, maxLevel.value + 1, transitions, levels)
  }

  /** The reduction raised after the composite sweep had already changed the
      two attributes: both names and max_level exist, but the transitions are a
      bare (i, j) tuple and no levels are given. */
  predicate FailsAfterSweep(p: Params, dispersionName: string, paramName: string,
                            transitions: TransitionsArg, levels: Option<seq<nat>>)
  {
    dispersionName in p && paramName in p && MaxLevel(transitions, levels).Ok? &&
    levels.None? && transitions.OnePair?
  }

  /** A qubit object: the behaviour its concrete class supplies, the names of its
      constructor parameters (_init_params), and its current named attributes. */
  class Qubit {
    const system: Hamiltonian
    const initParams: set<string>
    var params: Params

    /** The collaborators keep their shape contracts, and every constructor
        parameter is an attribute of the object (attributes are only ever
        added or overwritten). */
    ghost predicate Valid()
      reads this
    {
      system.Valid() && initParams <= params.Keys
    }

    constructor (system: Hamiltonian, initParams: set<string>, params: Params)
      requires system.Valid() && initParams <= params.Keys
      ensures Valid()
      ensures this.system == system
      ensures this.initParams == initParams && this.params == params
    {
      this.system := system;
      this.initParams := initParams;
      this.params := params;
    }

    /** get_initdata: the constructor parameters with their current values. */
    function GetInitdata(): (d: Params)
      reads this
      requires Valid()
      ensures d.Keys == initParams
      ensures forall name :: name in d ==> d[name] == params[name]
    {
      map name | name in initParams :: params[name]
    }

    /** set_params: every keyword argument becomes an attribute; nothing else changes. */
    method SetParams(kwargs: Params)
      requires Valid()
      modifies this
      ensures Valid()
      ensures params == old(params) + kwargs
    {
      var pending := kwargs.Keys;
      while pending != {}
        invariant pending <= kwargs.Keys
        invariant Valid()
        invariant params == old(params) + (map name | name in kwargs.Keys - pending :: kwargs[name])
        decreases pending
      {
        var name :| name in pending;
        params := params[name := kwargs[name]];
        pending := pending - {name};
      }
      assert (map name | name in kwargs.Keys - {} :: kwargs[name]) == kwargs;
    }

    /** set_and_return: one attribute set, the object itself returned. */
    method SetAndReturn(attrName: string, value: real) returns (q: Qubit)
      requires Valid()
      modifies this
      ensures Valid()
      ensures q == this
      ensures params == old(params)[attrName := value]
    {
      params := params[attrName := value];
      q := this;
    }

    /** eigenvals: the lowest evalsCount eigenvalues at the current parameters,
        ascending; a window outside the Hilbert space raises. */
    method Eigenvals(evalsCount: int) returns (r: Result<seq<real>>)
      requires Valid()
      ensures r == EvalsCalc(system, params, evalsCount)
      ensures r.Ok? <==> InWindow(system, params, evalsCount)
      ensures r.Ok? ==> |r.value| == evalsCount && Sorted(r.value)
    {
      r := EvalsCalc(system, params, evalsCount);
    }

    /** eigensys: the lowest evalsCount eigenpairs at the current parameters. */
    method Eigensys(evalsCount: int) returns (r: Result<Eigensystem>)
      requires Valid()
      ensures r == EsysCalc(system, params, evalsCount)
      ensures r.Ok? <==> InWindow(system, params, evalsCount)
      ensures r.Ok? ==> |r.value.evals| == evalsCount && |r.value.evecs| == evalsCount && Sorted(r.value.evals)
    {
      r := EsysCalc(system, params, evalsCount);
    }

    /** matrixelement_table: eigenvectors solved on the fly when none are given,
        then the operator looked up by name, then the table of its elements. */
    method MatrixelementTable(operator: string, evecs: Option<seq<Vector>>, evalsCount: int)
      returns (r: Result<Matrix>)
      requires Valid()
      ensures r == Eigen.MatrixelementTable(system, params, operator, evecs, evalsCount)
      ensures r.Ok? && evecs.Some? ==> IsSquare(r.value, |evecs.value|)
      ensures r.Ok? && evecs.None? ==> IsSquare(r.value, evalsCount)
    {
      var vecs: seq<Vector>;
      if evecs.None? {
        var esys := Eigensys(evalsCount);
        if esys.Err? {
          return Err(esys.error);
        }
        vecs := esys.value.evecs;
      } else {
        vecs := evecs.value;
      }
      if operator in params {
        // getattr finds the numeric attribute first, and calling it raises
        return Err(TypeError);
      }
      if operator !in system.operators {
        return Err(AttributeError(operator));
      }
      var operatorMatrix := system.operators[operator](params);
      r := Ok(system.matelems(operatorMatrix, vecs));
    }

    /** _evals_for_paramval: set the attribute, then solve for eigenvalues. */
    method EvalsForParamval(paramval: real, paramName: string, evalsCount: int)
      returns (r: Result<seq<real>>)
      requires Valid()
      modifies this
      ensures Valid()
      ensures params == old(params)[paramName := paramval]
      ensures r == EvalsCalc(system, params, evalsCount)
    {
      params := params[paramName := paramval];
      r := Eigenvals(evalsCount);
    }

    /** _esys_for_paramval: set the attribute, then solve for eigenpairs. */
    method EsysForParamval(paramval: real, paramName: string, evalsCount: int)
      returns (r: Result<Eigensystem>)
      requires Valid()
      modifies this
      ensures Valid()
      ensures params == old(params)[paramName := paramval]
      ensures r == EsysCalc(system, params, evalsCount)
    {
      params := params[paramName := paramval];
      r := Eigensys(evalsCount);
    }

    /** The sequential map of the per-point solve over paramVals (num_cpus == 1):
        results in input order; the first failure aborts the map and leaves the
        attribute at the failing value, otherwise at the last value. */
    method MapParamvals(paramName: string, paramVals: seq<real>, evalsCount: int, getEigenstates: bool)
      returns (o: Outcome)
      requires Valid()
      modifies this
      ensures Valid()
      ensures o == SolveSweep(system, old(params), paramName, paramVals, evalsCount, getEigenstates)
      ensures var last := LastApplied(paramVals, o);
              params == if last.Some? then old(params)[paramName := last.value] else old(params)
    {
      ghost var p0 := params;
      ghost var rs := Solves(system, p0, paramName, paramVals, evalsCount, getEigenstates);
      var points: seq<Point> := [];
      var n := 0;
      while n < |paramVals|
        invariant 0 <= n <= |paramVals|
        invariant Valid()
        invariant Collect(rs[..n]) == Done(points)
        invariant |points| == n
        invariant params == if n == 0 then p0 else p0[paramName := paramVals[n - 1]]
      {
        if n > 0 {
          SetTwice(p0, paramName, paramVals[n - 1], paramVals[n]);
        }
        var point := SolveForParamval(paramVals[n], paramName, evalsCount, getEigenstates);
        assert point == rs[n];
        CollectStep(rs, n, points);
        if point.Err? {
          FailurePersists(rs, n + 1);
          return Failed(n, point.error);
        }
        points := points + [point.value];
        n := n + 1;
      }
      assert rs[..n] == rs;
      o := Done(points);
    }

    /** The function the map applies: _esys_for_paramval when eigenstates are
        requested, _evals_for_paramval otherwise. */
    method SolveForParamval(paramval: real, paramName: string, evalsCount: int, getEigenstates: bool)
      returns (point: Result<Point>)
      requires Valid()
      modifies this
      ensures Valid()
      ensures params == old(params)[paramName := paramval]
      ensures point == SolvePoint(system, params, evalsCount, getEigenstates)
    {
      if getEigenstates {
        var esys := EsysForParamval(paramval, paramName, evalsCount);
        point := if esys.Ok? then Ok(WithStates(esys.value.evals, esys.value.evecs)) else Err(esys.error);
      } else {
        var evals := EvalsForParamval(paramval, paramName, evalsCount);
        point := if evals.Ok? then Ok(EvalsOnly(evals.value)) else Err(evals.error);
      }
    }

    /** get_spectrum_vs_paramvals: save the attribute, solve at every value in
        order, optionally shift each row by its own ground energy, restore the
        attribute and wrap the tables. A missing attribute raises before anything
        changes; a failing solve propagates with the attribute left at the value
        that failed (there is no try/finally). */
    method GetSpectrumVsParamvals(paramName: string, paramVals: seq<real>, evalsCount: int,
                                  subtractGround: bool, getEigenstates: bool)
      returns (r: Result<SpectrumData>)
      requires Valid()
      modifies this
      ensures Valid()
      ensures r.Ok? ==> params == old(params)
      ensures paramName !in old(params) ==> r == Err(AttributeError(paramName)) && params == old(params)
      ensures paramName in old(params) ==>
        var o := SolveSweep(system, old(params), paramName, paramVals, evalsCount, getEigenstates);
        (o.Failed? ==> o.at < |paramVals| && r == Err(o.error) && params == old(params)[paramName := paramVals[o.at]]) &&
        (o.Done? ==>
          params == old(params) &&
          r == Ok(SpectrumData(
                 if subtractGround then ShiftRows(EnergyTable(o.points)) else EnergyTable(o.points),
                 GetInitdata(), paramName, paramVals,
                 if getEigenstates then Some(StateTable(o.points)) else None,
                 None)))
    {
      if paramName !in params {
        return Err(AttributeError(paramName));
      }
      var previousParamval := params[paramName];
      ghost var before := params;
      ghost var expected := SolveSweep(system, before, paramName, paramVals, evalsCount, getEigenstates);
      var o := MapParamvals(paramName, paramVals, evalsCount, getEigenstates);
      if o.Failed? {
        return Err(o.error);
      }
      var energies, states := AssembleTables(o.points, subtractGround, getEigenstates);
      params := params[paramName := previousParamval];
      assert params == before;
      r := Ok(SpectrumData(energies, GetInitdata(), paramName, paramVals, states, None));
    }

    /** _compute_dispersion: save both attributes, let the composite sweep fill
        the energy cube (it last applied lastApplied to the two attributes),
        reduce the cube row by row, restore both attributes. The cube comes in
        as an argument with at least one induced sample. */
    method ComputeDispersion(dispersionName: string, paramName: string, paramVals: seq<real>,
                             transitions: TransitionsArg, levels: Option<seq<nat>>,
                             cube: Cube, lastApplied: (real, real))
      returns (r: Result<(Cube, seq<seq<real>>)>)
      requires Valid()
      requires |cube| > 0
      requires MaxLevel(transitions, levels).Ok? ==>
                 CubeShaped(cube, |paramVals|, MaxLevel(transitions, levels).value + 1)
      modifies this
      ensures Valid()
      ensures r.Ok? ==> params == old(params)
      ensures var d := DispersionTable(old(params), dispersionName, paramName, |paramVals|, transitions, levels, cube);
              (d.Ok? ==> r == Ok((cube, d.value))) && (d.Err? ==> r == Err(d.error))
      ensures !FailsAfterSweep(old(params), dispersionName, paramName, transitions, levels) ==>
                params == old(params)
      ensures FailsAfterSweep(old(params), dispersionName, paramName, transitions, levels) ==>
                params == old(params)[dispersionName := lastApplied.0][paramName := lastApplied.1]
    {
      ghost var before := params;
      ghost var expected := DispersionTable(before, dispersionName, paramName, |paramVals|, transitions, levels, cube);
      if dispersionName !in params {
        return Err(AttributeError(dispersionName));
      }
      if paramName !in params {
        return Err(AttributeError(paramName));
      }
      var previousDispval := params[dispersionName];
      var previousParamval := params[paramName];
      var maxLevel := MaxLevel(transitions, levels);
      if maxLevel.Err? {
        assert expected == Err(maxLevel.error);
        return Err(maxLevel.error);
      }
      var width := maxLevel.value + 1;
      // the composite sweep over both names, solving for width levels, leaves
      // the attributes at the last values its update function applied
      params := params[dispersionName := lastApplied.0][paramName := lastApplied.1];
      var eigenenergies := cube;
      var dispersion := ReduceCube(cube, |paramVals|, width, transitions, levels);
      assert expected == dispersion;
      if dispersion.Err? {
        return Err(dispersion.error);
      }
      params := params[paramName := previousParamval];
      params := params[dispersionName := previousDispval];
      assert params == before;
      r := Ok((eigenenergies, dispersion.value));
    }

    /** get_dispersion_vs_paramvals: normalise levels/transitions, compute the
        dispersion and wrap it with the labels `levels or transitions` and the
        dispersion table transposed to [swept index][row]. */
    method GetDispersionVsParamvals(dispersionName: string, paramName: string, paramVals: seq<real>,
                                    transitions: TransitionsArg, levels: LevelsArg,
                                    cube: Cube, lastApplied: (real, real))
      returns (r: Result<DispersionData>)
      requires Valid()
      requires |cube| > 0
      requires Normalise(levels, transitions).Ok? ==>
                 var nm := Normalise(levels, transitions).value;
                 MaxLevel(nm.transitions, nm.levels).Ok? ==>
                   CubeShaped(cube, |paramVals|, MaxLevel(nm.transitions, nm.levels).value + 1)
      modifies this
      ensures Valid()
      ensures params == old(params)
      ensures Normalise(levels, transitions).Err? ==> r == Err(IndexError)
      ensures Normalise(levels, transitions).Ok? ==>
        var nm := Normalise(levels, transitions).value;
        var d := DispersionTable(old(params), dispersionName, paramName, |paramVals|, nm.transitions, nm.levels, cube);
        (d.Err? ==> r == Err(d.error)) &&
        (d.Ok? ==> r == Ok(DispersionData(cube, GetInitdata(), paramName, paramVals,
                                          LabelsFor(nm.levels, nm.transitions),
                                          Transpose(d.value, |paramVals|))))
    {
      var normalised := Normalise(levels, transitions);
      if normalised.Err? {
        return Err(normalised.error);
      }
      var nm := normalised.value;
      var result := ComputeDispersion(dispersionName, paramName, paramVals, nm.transitions, nm.levels,
                                      cube, lastApplied);
      if result.Err? {
        return Err(result.error);
      }
      var (eigenenergies, dispersion) := result.value;
      r := Ok(DispersionData(eigenenergies, GetInitdata(), paramName, paramVals,
                             LabelsFor(nm.levels, nm.transitions), Transpose(dispersion, |paramVals|)));
    }

    /** get_matelements_vs_paramvals: a sweep with eigenstates, then one
        matrix-element table per parameter value from that point's eigenvectors
        (the operator evaluated at the restored parameters), attached to the
        sweep's record. */
    method GetMatelementsVsParamvals(operator: string, paramName: string, paramVals: seq<real>, evalsCount: int)
      returns (r: Result<SpectrumData>)
      requires Valid()
      modifies this
      ensures Valid()
      ensures r.Ok? ==> params == old(params)
      ensures paramName !in old(params) ==> r == Err(AttributeError(paramName)) && params == old(params)
      ensures paramName in old(params) ==>
        var o := SolveSweep(system, old(params), paramName, paramVals, evalsCount, true);
        (o.Failed? ==> o.at < |paramVals| && r == Err(o.error) && params == old(params)[paramName := paramVals[o.at]]) &&
        (o.Done? ==> params == old(params)) &&
        (o.Done? && evalsCount < 0 ==> r == Err(ValueError)) &&
        (o.Done? && |paramVals| > 0 && operator in old(params) ==> r == Err(TypeError)) &&
        (o.Done? && |paramVals| > 0 && operator !in old(params) && operator !in system.operators ==>
           r == Err(AttributeError(operator))) &&
        (o.Done? && evalsCount >= 0 &&
         (|paramVals| == 0 || (operator !in old(params) && operator in system.operators)) ==>
           r == Ok(SpectrumData(EnergyTable(o.points), GetInitdata(), paramName, paramVals,
                                Some(StateTable(o.points)),
                                Some(MatelemSlices(system, params, operator, StateTable(o.points))))))
      ensures r.Ok? ==> r.value.matrixelemTable.Some? && |r.value.matrixelemTable.value| == |paramVals|
      ensures r.Ok? ==> forall n :: 0 <= n < |paramVals| ==> IsSquare(r.value.matrixelemTable.value[n], evalsCount)
    {
      var spectrumdata := GetSpectrumVsParamvals(paramName, paramVals, evalsCount, false, true);
      if spectrumdata.Err? {
        return Err(spectrumdata.error);
      }
      SweepOrderingWithStates(system, old(params), paramName, paramVals, evalsCount);
      if evalsCount < 0 {
        // np.empty refuses the negative dimensions of (len(param_vals), evals_count, evals_count)
        return Err(ValueError);
      }
      var specdata := spectrumdata.value;
      var states := specdata.stateTable.value;
      var matelemTable := new Matrix[|paramVals|];
      for index := 0 to |paramVals|
        modifies matelemTable
        invariant forall m :: 0 <= m < index ==>
                    operator in system.operators && operator !in params &&
                    matelemTable[m] == Eigen.MatrixelementTable(system, params, operator, Some(states[m]), evalsCount).value
      {
        var evecs := states[index];
        var table := MatrixelementTable(operator, Some(evecs), evalsCount);
        if table.Err? {
          return Err(table.error);
        }
        matelemTable[index] := table.value;
      }
      assert matelemTable[..] == MatelemSlices(system, params, operator, states);
      r := Ok(specdata.(matrixelemTable := Some(matelemTable[..])));
    }
  }

  /** The tables a sweep returns: the eigenvalue rows, shifted in place by
      their ground energies when asked, and the eigenvectors when asked. */
  method AssembleTables(points: seq<Point>, subtractGround: bool, getEigenstates: bool)
    returns (energies: seq<seq<real>>, states: Option<seq<seq<Vector>>>)
    ensures energies == if subtractGround then ShiftRows(EnergyTable(points)) else EnergyTable(points)
    ensures states == if getEigenstates then Some(StateTable(points)) else None
  {
    var eigenvalueTable := new seq<real>[|points|](n requires 0 <= n < |points| => points[n].evals);
    assert eigenvalueTable[..] == EnergyTable(points);
    if subtractGround {
      SubtractGround(eigenvalueTable);
    }
    energies := eigenvalueTable[..];
    states := if getEigenstates then Some(StateTable(points)) else None;
  }

  /** The matrix-element tables of a sweep, one per point's eigenvectors, each
      square in the number of those eigenvectors. */
  function MatelemSlices(h: Hamiltonian, p: Params, operator: string, states: seq<seq<Vector>>)
    : (t: seq<Matrix>)
    requires h.Valid()
    requires (operator in h.operators && operator !in p) || states == []
    ensures |t| == |states|
    ensures forall n :: 0 <= n < |states| ==> IsSquare(t[n], |states[n]|)
  {
    seq(|states|, n requires 0 <= n < |states| =>
      Eigen.MatrixelementTable(h, p, operator, Some(states[n]), 0).value)
  }
}
