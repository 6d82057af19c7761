/** The argument conventions of the dispersion and matrix-element entry points:
    how levels/transitions are normalised, how many levels a dispersion sweep
    must solve for, and how many eigenvalues a select_elems argument asks for. */
module Arguments {
  import opened Base

  /** An (i, j) pair of level indices. */
  type Pair = (nat, nat)

  /** The levels argument: None, a bare int, or a tuple of ints. */
  datatype LevelsArg = NoLevels | OneLevel(level: nat) | LevelTuple(levels: seq<nat>)

  /** The transitions argument: a single (i, j) tuple or a tuple of such pairs. */
  datatype TransitionsArg = OnePair(pair: Pair) | PairTuple(pairs: seq<Pair>)

  /** The pairs a transitions argument asks for, in order. */
  function PairsOf(t: TransitionsArg): seq<Pair>
  {
    match t
    case OnePair(pair) => [pair]
    case PairTuple(pairs) => pairs
  }

  predicate Mentions(pairs: seq<Pair>, x: nat)
  {
    exists k :: 0 <= k < |pairs| && (pairs[k].0 == x || pairs[k].1 == x)
  }

  /** The level indices of a sequence of pairs, flattened in order: two per
      pair, none that no pair mentions (FlattenInOrder places pair k). */
  function Flatten(pairs: seq<Pair>): (r: seq<nat>)
    ensures |r| == 2 * |pairs|
    ensures forall x :: x in r ==> Mentions(pairs, x)
  {
    if pairs == [] then []
    else
      var tail := Flatten(pairs[1..]);
      assert forall x :: Mentions(pairs[1..], x) ==> Mentions(pairs, x) by {
        forall x | Mentions(pairs[1..], x) ensures Mentions(pairs, x) {
          var k :| 0 <= k < |pairs[1..]| && (pairs[1..][k].0 == x || pairs[1..][k].1 == x);
          assert pairs[k + 1] == pairs[1..][k];
        }
      }
      assert Mentions(pairs, pairs[0].0) && Mentions(pairs, pairs[0].1);
      [pairs[0].0, pairs[0].1] + tail
  }

  /** Pair k occupies positions 2k and 2k + 1 of the flattening, so every
      index of every pair is in it. */
  lemma {:induction false} FlattenInOrder(pairs: seq<Pair>)
    ensures forall k :: 0 <= k < |pairs| ==>
              Flatten(pairs)[2 * k] == pairs[k].0 && Flatten(pairs)[2 * k + 1] == pairs[k].1
  {
    if pairs != [] {
      var tail := pairs[1..];
      FlattenInOrder(tail);
      assert Flatten(pairs) == [pairs[0].0, pairs[0].1] + Flatten(tail);
      forall k | 1 <= k < |pairs|
        ensures Flatten(pairs)[2 * k] == pairs[k].0 && Flatten(pairs)[2 * k + 1] == pairs[k].1
      {
        assert pairs[k] == tail[k - 1];
      }
    }
  }

  /** The largest entry of a non-empty sequence of indices. */
  function MaxIndex(s: seq<nat>): (m: nat)
    requires |s| > 0
    ensures m in s
    ensures forall x :: x in s ==> x <= m
  {
    if |s| == 1 then s[0]
    else
      var rest := MaxIndex(s[1..]);
      assert s == [s[0]] + s[1..];
      if s[0] >= rest then s[0] else rest
  }

  /** The levels argument as _compute_dispersion receives it. */
  function LevelsOption(levels: LevelsArg): Option<seq<nat>>
  {
    match levels
    case NoLevels => None
    case OneLevel(l) => Some([l])
    case LevelTuple(ls) => Some(ls)
  }

  datatype Normalised = Normalised(levels: Option<seq<nat>>, transitions: TransitionsArg)

  /** get_dispersion_vs_paramvals, lines 532-535: a bare int level becomes a
      singleton tuple; otherwise a transitions argument whose first element is
      an int (a single pair) is wrapped into a one-pair tuple. Reading
      transitions[0] of an empty tuple raises. */
  function Normalise(levels: LevelsArg, transitions: TransitionsArg): (r: Result<Normalised>)
    ensures r.Err? <==> !levels.OneLevel? && transitions == PairTuple([])
    ensures r.Err? ==> r.error == IndexError
    ensures r.Ok? ==> r.value.levels == LevelsOption(levels)
    ensures r.Ok? ==> PairsOf(r.value.transitions) == PairsOf(transitions)
    ensures r.Ok? && levels.OneLevel? ==> r.value.transitions == transitions
    ensures r.Ok? && !levels.OneLevel? ==> r.value.transitions.PairTuple?
  {
    if levels.OneLevel? then Ok(Normalised(Some([levels.level]), transitions))
    else if transitions == PairTuple([]) then Err(IndexError)
    else match transitions
      case OnePair(pair) => Ok(Normalised(LevelsOption(levels), PairTuple([pair])))
      case PairTuple(_) => Ok(Normalised(LevelsOption(levels), transitions))
  }

  /** Every level index the dispersion reduction reads is below width: the
      levels when given, the pairs' indices otherwise. */
  predicate WithinLevels(transitions: TransitionsArg, levels: Option<seq<nat>>, width: nat)
  {
    match levels
    case Some(ls) => forall q :: 0 <= q < |ls| ==> ls[q] < width
    case None => forall q :: 0 <= q < |PairsOf(transitions)| ==>
                   PairsOf(transitions)[q].0 < width && PairsOf(transitions)[q].1 < width
  }

  /** The indices the number of solved levels is taken from: levels when it is
      truthy (neither None nor empty), the flattened transitions otherwise. */
  function Requested(transitions: TransitionsArg, levels: Option<seq<nat>>): seq<nat>
  {
    if levels.Some? && levels.value != [] then levels.value else Flatten(PairsOf(transitions))
  }

  /** Line 460: max_level, the largest requested index; np.max of nothing raises.
      Solving max_level + 1 levels covers every level the reduction reads. */
  function MaxLevel(transitions: TransitionsArg, levels: Option<seq<nat>>): (r: Result<nat>)
    ensures r.Err? <==> Requested(transitions, levels) == []
    ensures r.Err? ==> r.error == ValueError
    ensures r.Ok? ==> r.value in Requested(transitions, levels)
    ensures r.Ok? ==> forall x :: x in Requested(transitions, levels) ==> x <= r.value
    ensures r.Ok? ==> WithinLevels(transitions, levels, r.value + 1)
  {
    var idx := Requested(transitions, levels);
    if idx == [] then Err(ValueError)
    else
      var m := MaxIndex(idx);
      assert WithinLevels(transitions, levels, m + 1) by {
        if levels.Some? {
          forall q | 0 <= q < |levels.value| ensures levels.value[q] <= m {
            assert levels.value[q] in levels.value;
          }
        } else {
          var ps := PairsOf(transitions);
          FlattenInOrder(ps);
          forall q | 0 <= q < |ps| ensures ps[q].0 <= m && ps[q].1 <= m {
            assert idx == Flatten(ps);
            assert idx[2 * q] == ps[q].0 && idx[2 * q + 1] == ps[q].1;
            assert idx[2 * q] in idx && idx[2 * q + 1] in idx;
          }
        }
      }
      Ok(m)
  }

  /** The select_elems argument of plot_matelem_vs_paramvals: a bare int or a
      list of (i, j) pairs. */
  datatype SelectElems = MaxElems(count: int) | ElemList(pairs: seq<Pair>)

  /** Lines 811-815: an int gives itself; a list of pairs gives one more than the
      largest index it mentions, and max() of an empty list raises. */
  function EvalsCount(select: SelectElems): (r: Result<int>)
    ensures select.MaxElems? ==> r == Ok(select.count)
    ensures select.ElemList? ==> (r.Err? <==> select.pairs == [])
    ensures r.Err? ==> r.error == ValueError
    ensures r.Ok? && select.ElemList? ==>
              forall k :: 0 <= k < |select.pairs| ==>
                select.pairs[k].0 < r.value && select.pairs[k].1 < r.value
    ensures r.Ok? && select.ElemList? ==> r.value >= 1 && Mentions(select.pairs, r.value - 1)
  {
    match select
    case MaxElems(count) => Ok(count)
    case ElemList(pairs) =>
      var flat := Flatten(pairs);
      FlattenInOrder(pairs);
      assert forall k :: 0 <= k < |pairs| ==> flat[2 * k] in flat && flat[2 * k + 1] in flat;
      if flat == [] then Err(ValueError) else Ok(MaxIndex(flat) + 1)
  }
}
