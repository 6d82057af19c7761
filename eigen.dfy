/** The single-point eigenvalue problem of a qubit: the collaborators the base
    class relies on (hilbertdim, the Hermitian eigensolver, the eigensystem
    ordering, the operator methods and the matrix-element table builder), and
    the sorting, solving and matrix-element steps built from them. */
module Eigen {
  import opened Base

  datatype Complex = Complex(re: real, im: real)
  type Vector = seq<Complex>
  type Matrix = seq<seq<Complex>>

  predicate IsSquare(m: Matrix, n: nat)
  {
    |m| == n && forall i :: 0 <= i < n ==> |m[i]| == n
  }

  /** Eigenvalues with the eigenvectors that belong to them, position by position. */
  datatype Eigensystem = Eigensystem(evals: seq<real>, evecs: seq<Vector>)

  /** What a concrete qubit class and the numerical libraries supply, each as a
      function of the object's current parameter state:
      - hilbertdim: the subclass's hilbertdim();
      - eigh: the eigenvalues scipy's eigh returns for hamiltonian() with the
        index window (0, n - 1), in the order the library produces them;
      - esys: eigh with eigenvectors, passed through order_eigensystem;
      - operators: the operator-returning methods reachable by getattr;
      - matelems: get_matrixelement_table(operator_matrix, evecs). */
  datatype Hamiltonian = Hamiltonian(
    hilbertdim: Params -> nat,
    eigh: (Params, nat) -> seq<real>,
    esys: (Params, nat) -> Eigensystem,
    operators: map<string, Params -> Matrix>,
    matelems: (Matrix, seq<Vector>) -> Matrix)
  {
    /** The contracts of the collaborators: a window of n eigenvalues has n
        entries; an ordered eigensystem holds the same eigenvalues of the same
        Hamiltonian, ascending, with one vector per value; and a matrix-element
        table is square in the number of vectors. */
    ghost predicate Valid()
    {
      && (forall p, n :: 1 <= n <= hilbertdim(p) ==> |eigh(p, n)| == n)
      && (forall p, n :: 1 <= n <= hilbertdim(p) ==>
            |esys(p, n).evals| == n && |esys(p, n).evecs| == n && Sorted(esys(p, n).evals))
      && (forall p, n :: 1 <= n <= hilbertdim(p) ==> OrderingKeepsEvals(p, n))
      && (forall m, vs :: IsSquare(matelems(m, vs), |vs|))
    }

    /** order_eigensystem only reorders: the eigensystem holds the eigenvalues
        eigh returns for the same Hamiltonian and window. */
    ghost predicate OrderingKeepsEvals(p: Params, n: nat)
    {
      multiset(esys(p, n).evals) == multiset(eigh(p, n))
    }
  }

  /** Insertion of one value into an ascending sequence: the result starts
      with the smaller of the value and the old first entry. */
  function Insert(x: real, s: seq<real>): (r: seq<real>)
    requires Sorted(s)
    ensures |r| == |s| + 1
    ensures Sorted(r)
    ensures r[0] == if s == [] || x <= s[0] then x else s[0]
    ensures multiset(r) == multiset(s) + multiset{x}
  {
    if s == [] then [x]
    else if x <= s[0] then
      SortedCons(x, s);
      [x] + s
    else
      assert s == [s[0]] + s[1..];
      SortedTail(s);
      var t := Insert(x, s[1..]);
      SortedCons(s[0], t);
      [s[0]] + t
  }

  lemma SortedCons(a: real, t: seq<real>)
    requires Sorted(t)
    requires t != [] ==> a <= t[0]
    ensures Sorted([a] + t)
  {
    forall i, j | 0 <= i < j < |t| + 1 ensures ([a] + t)[i] <= ([a] + t)[j] {
      if i > 0 {
        assert ([a] + t)[i] == t[i - 1];
      }
    }
  }

  /** np.sort: the ascending arrangement of the same values. */
  function Sort(s: seq<real>): (r: seq<real>)
    ensures Sorted(r)
    ensures multiset(r) == multiset(s)
    ensures |r| == |s|
  {
    if s == [] then []
    else
      assert s == [s[0]] + s[1..];
      Insert(s[0], Sort(s[1..]))
  }

  lemma SortedTail(s: seq<real>)
    requires Sorted(s) && s != []
    ensures Sorted(s[1..])
  {
    forall i, j | 0 <= i < j < |s| - 1 ensures s[1..][i] <= s[1..][j] {
      assert s[1..][i] == s[i + 1] && s[1..][j] == s[j + 1];
    }
  }

  /** Two ascending sequences holding the same values are equal. */
  lemma {:induction false} SortedPermutationUnique(a: seq<real>, b: seq<real>)
    requires Sorted(a) && Sorted(b)
    requires multiset(a) == multiset(b)
    ensures a == b
  {
    if a == [] {
      assert |b| == |multiset(b)| == 0;
    } else {
      assert |b| == |multiset(b)| == |a|;
      assert a[0] in multiset(b) && b[0] in multiset(a);
      var i :| 0 <= i < |b| && b[i] == a[0];
      var j :| 0 <= j < |a| && a[j] == b[0];
      assert a[0] == b[0];
      assert a == [a[0]] + a[1..];
      assert b == [b[0]] + b[1..];
      assert multiset(a) == multiset{a[0]} + multiset(a[1..]);
      assert multiset(b) == multiset{b[0]} + multiset(b[1..]);
      assert multiset(a[1..]) == multiset(a) - multiset{a[0]};
      assert multiset(b[1..]) == multiset(b) - multiset{b[0]};
      SortedTail(a);
      SortedTail(b);
      SortedPermutationUnique(a[1..], b[1..]);
    }
  }

  /** The sorted eigenvalues do not depend on the order the solver returned them in. */
  lemma SortDependsOnlyOnValues(a: seq<real>, b: seq<real>)
    requires multiset(a) == multiset(b)
    ensures Sort(a) == Sort(b)
  {
    SortedPermutationUnique(Sort(a), Sort(b));
  }

  /** Sorting an already ascending sequence leaves it as it is. */
  lemma SortOfSorted(s: seq<real>)
    requires Sorted(s)
    ensures Sort(s) == s
  {
    SortedPermutationUnique(Sort(s), s);
  }

  /** The window (0, count - 1) is inside the Hilbert space. */
  predicate InWindow(h: Hamiltonian, p: Params, count: int)
  {
    1 <= count <= h.hilbertdim(p)
  }

  /** _evals_calc: the lowest count eigenvalues, sorted ascending. */
  function EvalsCalc(h: Hamiltonian, p: Params, count: int): (r: Result<seq<real>>)
    requires h.Valid()
    ensures r.Ok? <==> InWindow(h, p, count)
    ensures r.Err? ==> r.error == DimensionError
    ensures r.Ok? ==> |r.value| == count && Sorted(r.value)
    ensures r.Ok? ==> multiset(r.value) == multiset(h.eigh(p, count))
  {
    if InWindow(h, p, count) then Ok(Sort(h.eigh(p, count))) else Err(DimensionError)
  }

  /** _esys_calc: the lowest count eigenpairs, ordered ascending by eigenvalue. */
  function EsysCalc(h: Hamiltonian, p: Params, count: int): (r: Result<Eigensystem>)
    requires h.Valid()
    ensures r.Ok? <==> InWindow(h, p, count)
    ensures r.Err? ==> r.error == DimensionError
    ensures r.Ok? ==> |r.value.evals| == count && |r.value.evecs| == count && Sorted(r.value.evals)
  {
    if InWindow(h, p, count) then Ok(h.esys(p, count)) else Err(DimensionError)
  }

  /** eigenvals and eigensys at the same state agree: both succeed in the same
      window and give the same ascending eigenvalues. */
  lemma EvalsAgreeWithEsys(h: Hamiltonian, p: Params, count: int)
    requires h.Valid()
    ensures EvalsCalc(h, p, count).Ok? <==> EsysCalc(h, p, count).Ok?
    ensures EvalsCalc(h, p, count).Ok? ==> EvalsCalc(h, p, count).value == EsysCalc(h, p, count).value.evals
  {
    if InWindow(h, p, count) {
      assert h.OrderingKeepsEvals(p, count);
      SortedPermutationUnique(EvalsCalc(h, p, count).value, EsysCalc(h, p, count).value.evals);
    }
  }

  /** matrixelement_table: the eigenvectors (given, or solved for count levels),
      then the named operator's matrix, then the table of its elements. */
  function MatrixelementTable(h: Hamiltonian, p: Params, operator: string,
                              evecs: Option<seq<Vector>>, count: int): (r: Result<Matrix>)
    requires h.Valid()
    ensures evecs.None? && !InWindow(h, p, count) ==> r == Err(DimensionError)
    ensures (evecs.Some? || InWindow(h, p, count)) && operator in p ==> r == Err(TypeError)
    ensures (evecs.Some? || InWindow(h, p, count)) && operator !in p && operator !in h.operators ==>
              r == Err(AttributeError(operator))
    ensures r.Ok? <==> (evecs.Some? || InWindow(h, p, count)) && operator !in p && operator in h.operators
    ensures r.Ok? && evecs.Some? ==> IsSquare(r.value, |evecs.value|)
    ensures r.Ok? && evecs.None? ==> IsSquare(r.value, count)
  {
    var vecs :=
      if evecs.Some? then Ok(evecs.value)
      else match EsysCalc(h, p, count)
        case Ok(es) => Ok(es.evecs)
        case Err(e) => Err(e);
    if vecs.Err? then Err(vecs.error)
    else if operator in p then Err(TypeError)
    else if operator !in h.operators then Err(AttributeError(operator))
    else Ok(h.matelems(h.operators[operator](p), vecs.value))
  }
}
