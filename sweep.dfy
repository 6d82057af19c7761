/** The parameter sweep as a specification: what solving at every parameter
    value yields, in input order, and the ground-state subtraction applied to
    the assembled energy table. */
module Sweep {
  import opened Base
  import opened Eigen

  /** The solve at one parameter value: eigenvalues only (_evals_for_paramval)
      or eigenvalues with eigenvectors (_esys_for_paramval). */
  datatype Point =
    | EvalsOnly(evals: seq<real>)
    | WithStates(evals: seq<real>, evecs: seq<Vector>)

  function SolvePoint(h: Hamiltonian, p: Params, count: int, withStates: bool): (r: Result<Point>)
    requires h.Valid()
    ensures r.Ok? <==> InWindow(h, p, count)
    ensures r.Err? ==> r.error == DimensionError
    ensures r.Ok? ==> |r.value.evals| == count && Sorted(r.value.evals)
    ensures r.Ok? ==> (r.value.WithStates? <==> withStates)
    ensures r.Ok? && withStates ==> |r.value.evecs| == count
  {
    if withStates then
      match EsysCalc(h, p, count)
      case Ok(es) => Ok(WithStates(es.evals, es.evecs))
      case Err(e) => Err(e)
    else
      match EvalsCalc(h, p, count)
      case Ok(evals) => Ok(EvalsOnly(evals))
      case Err(e) => Err(e)
  }

  /** How a sequential map over the parameter values ends: every point solved,
      or aborted by the first point whose solve raised. */
  datatype Outcome = Done(points: seq<Point>) | Failed(at: nat, error: Error)

  /** A sequential map over per-point results, in order: it stops at the first
      result that is an error. CollectDone, CollectFailed, FailurePersists and
      CollectStep state what it yields. */
  function Collect(rs: seq<Result<Point>>): Outcome
    decreases |rs|
  {
    if rs == [] then Done([])
    else
      var last := |rs| - 1;
      var before := Collect(rs[..last]);
      if before.Failed? then before
      else if rs[last].Err? then Failed(last, rs[last].error)
      else Done(before.points + [rs[last].value])
  }

  /** A completed map has one point per result, point n being result n. */
  lemma {:induction false} CollectDone(rs: seq<Result<Point>>)
    requires Collect(rs).Done?
    decreases |rs|
    ensures |Collect(rs).points| == |rs|
    ensures forall n :: 0 <= n < |rs| ==> rs[n] == Ok(Collect(rs).points[n])
  {
    if rs != [] {
      var last := |rs| - 1;
      var prefix := rs[..last];
      CollectDone(prefix);
      forall n | 0 <= n < last ensures rs[n] == Ok(Collect(rs).points[n]) {
        assert prefix[n] == rs[n];
      }
    }
  }

  /** A failed map stops at an erroneous result, with its error, and every
      result before it is a success: the map stops at the first failure. */
  lemma {:induction false} CollectFailed(rs: seq<Result<Point>>)
    requires Collect(rs).Failed?
    decreases |rs|
    ensures Collect(rs).at < |rs|
    ensures rs[Collect(rs).at] == Err(Collect(rs).error)
    ensures forall n :: 0 <= n < Collect(rs).at ==> rs[n].Ok?
  {
    var last := |rs| - 1;
    var prefix := rs[..last];
    if Collect(prefix).Failed? {
      CollectFailed(prefix);
      forall n | 0 <= n <= Collect(prefix).at ensures prefix[n] == rs[n] { }
    } else {
      CollectDone(prefix);
      forall n | 0 <= n < last ensures prefix[n] == rs[n] { }
    }
  }

  /** Once a prefix has failed, the whole map fails the same way. */
  lemma {:induction false} FailurePersists(rs: seq<Result<Point>>, m: nat)
    requires m <= |rs|
    requires Collect(rs[..m]).Failed?
    decreases |rs|
    ensures Collect(rs) == Collect(rs[..m])
  {
    if m == |rs| {
      assert rs[..m] == rs;
    } else {
      var prefix := rs[..|rs| - 1];
      assert prefix[..m] == rs[..m];
      FailurePersists(prefix, m);
    }
  }

  /** Extending a completed prefix by one result: the map over rs[..n + 1] fails
      at n exactly when result n is an error, and otherwise appends its point. */
  lemma CollectStep(rs: seq<Result<Point>>, n: nat, points: seq<Point>)
    requires n < |rs|
    requires Collect(rs[..n]) == Done(points)
    ensures Collect(rs[..n + 1]) == if rs[n].Err? then Failed(n, rs[n].error) else Done(points + [rs[n].value])
  {
    assert rs[..n + 1][..n] == rs[..n];
  }

  /** The per-point results of a sweep, in the order of the values. */
  function Solves(h: Hamiltonian, p: Params, name: string, vals: seq<real>,
                  count: int, withStates: bool): (rs: seq<Result<Point>>)
    requires h.Valid()
    ensures |rs| == |vals|
    ensures forall n :: 0 <= n < |vals| ==> rs[n] == SolvePoint(h, p[name := vals[n]], count, withStates)
  {
    seq(|vals|, n requires 0 <= n < |vals| => SolvePoint(h, p[name := vals[n]], count, withStates))
  }

  /** The sequential map of the per-point solve over vals, with the attribute
      name set to each value in turn: a completed sweep has one point per
      value, and a failed one fails at one of the values. */
  function SolveSweep(h: Hamiltonian, p: Params, name: string, vals: seq<real>,
                      count: int, withStates: bool): (o: Outcome)
    requires h.Valid()
    ensures o.Done? ==> |o.points| == |vals|
    ensures o.Failed? ==> o.at < |vals|
  {
    var rs := Solves(h, p, name, vals, count, withStates);
    if Collect(rs).Done? then
      CollectDone(rs);
      Collect(rs)
    else
      CollectFailed(rs);
      Collect(rs)
  }

  /** What a sweep yields: when it completes, one point per value, point n being
      the solve at vals[n]; when it fails, the failing index is a value whose
      solve raised, with that error, and every solve before it succeeded. */
  lemma SweepPoints(h: Hamiltonian, p: Params, name: string, vals: seq<real>,
                    count: int, withStates: bool)
    requires h.Valid()
    ensures var o := SolveSweep(h, p, name, vals, count, withStates);
            (o.Done? ==> |o.points| == |vals|) &&
            (o.Done? ==> forall n :: 0 <= n < |vals| ==>
               SolvePoint(h, p[name := vals[n]], count, withStates) == Ok(o.points[n])) &&
            (o.Failed? ==> o.at < |vals|) &&
            (o.Failed? ==> SolvePoint(h, p[name := vals[o.at]], count, withStates) == Err(o.error)) &&
            (o.Failed? ==> forall n :: 0 <= n < o.at ==>
               SolvePoint(h, p[name := vals[n]], count, withStates).Ok?)
  {
    var rs := Solves(h, p, name, vals, count, withStates);
    if Collect(rs).Done? {
      CollectDone(rs);
    } else {
      CollectFailed(rs);
    }
  }

  /** The value the map last applied to the swept attribute: the failing value
      when it aborted, the last value when it completed, none when there were
      no values. */
  function LastApplied(vals: seq<real>, o: Outcome): Option<real>
  {
    if o.Failed? then (if o.at < |vals| then Some(vals[o.at]) else None)
    else if vals == [] then None
    else Some(vals[|vals| - 1])
  }

  /** A sweep completes exactly when the solve succeeds at every parameter value. */
  lemma SweepDoneIffAllSolve(h: Hamiltonian, p: Params, name: string, vals: seq<real>,
                             count: int, withStates: bool)
    requires h.Valid()
    ensures SolveSweep(h, p, name, vals, count, withStates).Done? <==>
              forall n :: 0 <= n < |vals| ==> InWindow(h, p[name := vals[n]], count)
  {
    SweepPoints(h, p, name, vals, count, withStates);
    var o := SolveSweep(h, p, name, vals, count, withStates);
    if o.Failed? {
      assert !InWindow(h, p[name := vals[o.at]], count);
    }
  }

  /** The energy table: one row per parameter value. */
  function EnergyTable(points: seq<Point>): (t: seq<seq<real>>)
    ensures |t| == |points|
    ensures forall n :: 0 <= n < |points| ==> t[n] == points[n].evals
  {
    seq(|points|, n requires 0 <= n < |points| => points[n].evals)
  }

  /** The eigenvector table: the per-point eigenvectors, one entry per parameter
      value (a values-only point contributes none). */
  function StateTable(points: seq<Point>): (t: seq<seq<Vector>>)
    ensures |t| == |points|
    ensures forall n :: 0 <= n < |points| && points[n].WithStates? ==> t[n] == points[n].evecs
  {
    seq(|points|, n requires 0 <= n < |points| => if points[n].WithStates? then points[n].evecs else [])
  }

  /** Ordering: row n of the values-only table is _evals_calc with the swept
      attribute set to vals[n], and every row has count ascending entries. */
  lemma SweepOrdering(h: Hamiltonian, p: Params, name: string, vals: seq<real>, count: int)
    requires h.Valid()
    requires SolveSweep(h, p, name, vals, count, false).Done?
    ensures var t := EnergyTable(SolveSweep(h, p, name, vals, count, false).points);
            |t| == |vals| &&
            forall n :: 0 <= n < |vals| ==>
              EvalsCalc(h, p[name := vals[n]], count) == Ok(t[n]) && |t[n]| == count && Sorted(t[n])
  {
    SweepPoints(h, p, name, vals, count, false);
    var pts := SolveSweep(h, p, name, vals, count, false).points;
    forall n | 0 <= n < |vals|
      ensures EvalsCalc(h, p[name := vals[n]], count) == Ok(EnergyTable(pts)[n])
    {
      assert SolvePoint(h, p[name := vals[n]], count, false) == Ok(pts[n]);
    }
  }

  /** Ordering with eigenstates: row n pairs the ordered eigensystem solved at
      vals[n], values in the energy table and vectors in the state table. */
  lemma SweepOrderingWithStates(h: Hamiltonian, p: Params, name: string, vals: seq<real>, count: int)
    requires h.Valid()
    requires SolveSweep(h, p, name, vals, count, true).Done?
    ensures var pts := SolveSweep(h, p, name, vals, count, true).points;
            (forall n :: 0 <= n < |pts| ==> pts[n].WithStates?) &&
            var t, s := EnergyTable(pts), StateTable(pts);
            |t| == |s| == |vals| &&
            forall n :: 0 <= n < |vals| ==>
              EsysCalc(h, p[name := vals[n]], count) == Ok(Eigensystem(t[n], s[n])) && |s[n]| == count
  {
    SweepPoints(h, p, name, vals, count, true);
    var pts := SolveSweep(h, p, name, vals, count, true).points;
    forall n | 0 <= n < |vals|
      ensures pts[n].WithStates? && EsysCalc(h, p[name := vals[n]], count) == Ok(Eigensystem(pts[n].evals, pts[n].evecs))
    {
      assert SolvePoint(h, p[name := vals[n]], count, true) == Ok(pts[n]);
    }
  }

  /** One row shifted by its own first entry: the first entry becomes zero and
      every difference between two entries of the row is kept. */
  function Shift(row: seq<real>): (r: seq<real>)
    ensures |r| == |row|
    ensures |row| > 0 ==> r[0] == 0.0
    ensures forall i, j :: 0 <= i < |row| && 0 <= j < |row| ==> r[i] - r[j] == row[i] - row[j]
    ensures Sorted(row) ==> Sorted(r)
  {
    if row == [] then []
    else
      var ground := row[0];
      seq(|row|, i requires 0 <= i < |row| => row[i] - ground)
  }

  /** subtract_ground: every row shifted by its own original first entry. */
  function ShiftRows(t: seq<seq<real>>): (r: seq<seq<real>>)
    ensures |r| == |t|
    ensures forall n :: 0 <= n < |t| ==> r[n] == Shift(t[n])
  {
    seq(|t|, n requires 0 <= n < |t| => Shift(t[n]))
  }

  /** scqubits/core/qubit_base.py:412-414: shift every row of the energy table in place. */
  method SubtractGround(table: array<seq<real>>)
    modifies table
    ensures table[..] == ShiftRows(old(table[..]))
  {
    for n := 0 to table.Length
      invariant forall m :: 0 <= m < n ==> table[m] == Shift(old(table[m]))
      invariant forall m :: n <= m < table.Length ==> table[m] == old(table[m])
    {
      table[n] := Shift(table[n]);
    }
  }
}
