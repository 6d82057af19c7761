/** The reduction step of _compute_dispersion: from an energy cube indexed
    [induced sample][swept index][level] to the spread (max - min over the
    induced samples) of each requested transition or level at every swept value. */
module Dispersion {
  import opened Base
  import opened Arguments

  /** Energies indexed [induced sample][swept index][level]. */
  type Cube = seq<seq<seq<real>>>

  /** Every induced sample has swept rows, each holding width levels. */
  predicate CubeShaped(cube: Cube, swept: nat, width: nat)
  {
    forall a :: 0 <= a < |cube| ==>
      |cube[a]| == swept && forall k :: 0 <= k < swept ==> |cube[a][k]| == width
  }

  function MaxOf(s: seq<real>): (m: real)
    requires |s| > 0
    ensures exists a :: 0 <= a < |s| && s[a] == m
    ensures forall a :: 0 <= a < |s| ==> s[a] <= m
  {
    if |s| == 1 then s[0]
    else
      var rest := MaxOf(s[1..]);
      assert forall a :: 1 <= a < |s| ==> s[a] == s[1..][a - 1];
      if s[0] >= rest then s[0] else rest
  }

  function MinOf(s: seq<real>): (m: real)
    requires |s| > 0
    ensures exists a :: 0 <= a < |s| && s[a] == m
    ensures forall a :: 0 <= a < |s| ==> m <= s[a]
  {
    if |s| == 1 then s[0]
    else
      var rest := MinOf(s[1..]);
      assert forall a :: 1 <= a < |s| ==> s[a] == s[1..][a - 1];
      if s[0] <= rest then s[0] else rest
  }

  /** max - min: the largest difference between two samples, which is never negative. */
  function Spread(s: seq<real>): (d: real)
    requires |s| > 0
    ensures d >= 0.0
    ensures forall a, b :: 0 <= a < |s| && 0 <= b < |s| ==> s[a] - s[b] <= d
    ensures exists a, b :: 0 <= a < |s| && 0 <= b < |s| && d == s[a] - s[b]
  {
    MaxOf(s) - MinOf(s)
  }

  /** The spread is zero exactly when every sample is the same. */
  lemma SpreadZeroIffConstant(s: seq<real>)
    requires |s| > 0
    ensures Spread(s) == 0.0 <==> forall a :: 0 <= a < |s| ==> s[a] == s[0]
  {
    if Spread(s) == 0.0 {
      forall a | 0 <= a < |s| ensures s[a] == s[0] {
        assert s[a] - s[0] <= 0.0 && s[0] - s[a] <= 0.0;
      }
    } else {
      var a, b :| 0 <= a < |s| && 0 <= b < |s| && Spread(s) == s[a] - s[b];
      assert s[a] != s[b];
    }
  }

  /** energy_ij[:, k] = E[:, k, i] - E[:, k, j] over the induced samples. */
  function TransitionSamples(cube: Cube, swept: nat, width: nat, k: nat, i: nat, j: nat): (s: seq<real>)
    requires CubeShaped(cube, swept, width)
    requires k < swept && i < width && j < width
    ensures |s| == |cube|
    ensures forall a :: 0 <= a < |cube| ==> s[a] == cube[a][k][i] - cube[a][k][j]
  {
    seq(|cube|, a requires 0 <= a < |cube| => cube[a][k][i] - cube[a][k][j])
  }

  /** energy_j[:, k] = E[:, k, j] over the induced samples. */
  function LevelSamples(cube: Cube, swept: nat, width: nat, k: nat, j: nat): (s: seq<real>)
    requires CubeShaped(cube, swept, width)
    requires k < swept && j < width
    ensures |s| == |cube|
    ensures forall a :: 0 <= a < |cube| ==> s[a] == cube[a][k][j]
  {
    seq(|cube|, a requires 0 <= a < |cube| => cube[a][k][j])
  }

  /** Line 475: np.max(energy_ij, axis=0) - np.min(energy_ij, axis=0). Entry k
      bounds every difference of the transition energy between two induced
      samples at swept value k, and is one of those differences. */
  function TransitionRow(cube: Cube, swept: nat, width: nat, pair: Pair): (row: seq<real>)
    requires |cube| > 0 && CubeShaped(cube, swept, width)
    requires pair.0 < width && pair.1 < width
    ensures |row| == swept
    ensures forall k, a, b :: 0 <= k < swept && 0 <= a < |cube| && 0 <= b < |cube| ==>
              (cube[a][k][pair.0] - cube[a][k][pair.1]) - (cube[b][k][pair.0] - cube[b][k][pair.1]) <= row[k]
    ensures forall k :: 0 <= k < swept ==>
              exists a, b :: 0 <= a < |cube| && 0 <= b < |cube| &&
                row[k] == (cube[a][k][pair.0] - cube[a][k][pair.1]) - (cube[b][k][pair.0] - cube[b][k][pair.1])
  {
    var row := seq(swept, k requires 0 <= k < swept => Spread(TransitionSamples(cube, swept, width, k, pair.0, pair.1)));
    assert forall k :: 0 <= k < swept ==> row[k] == Spread(TransitionSamples(cube, swept, width, k, pair.0, pair.1));
    row
  }

  /** Line 482: np.max(energy_j, axis=0) - np.min(energy_j, axis=0). Entry k
      bounds every difference of level j's energy between two induced samples
      at swept value k, and is one of those differences. */
  function LevelRow(cube: Cube, swept: nat, width: nat, j: nat): (row: seq<real>)
    requires |cube| > 0 && CubeShaped(cube, swept, width)
    requires j < width
    ensures |row| == swept
    ensures forall k, a, b :: 0 <= k < swept && 0 <= a < |cube| && 0 <= b < |cube| ==>
              cube[a][k][j] - cube[b][k][j] <= row[k]
    ensures forall k :: 0 <= k < swept ==>
              exists a, b :: 0 <= a < |cube| && 0 <= b < |cube| && row[k] == cube[a][k][j] - cube[b][k][j]
  {
    var row := seq(swept, k requires 0 <= k < swept => Spread(LevelSamples(cube, swept, width, k, j)));
    assert forall k :: 0 <= k < swept ==> row[k] == Spread(LevelSamples(cube, swept, width, k, j));
    row
  }

  /** Lines 471-482: one row per requested level when levels is given, else one
      row per requested transition; unpacking a bare (i, j) tuple as a sequence
      of pairs raises. */
  function Dispersions(cube: Cube, swept: nat, width: nat,
                       transitions: TransitionsArg, levels: Option<seq<nat>>): (r: Result<seq<seq<real>>>)
    requires |cube| > 0 && CubeShaped(cube, swept, width)
    requires WithinLevels(transitions, levels, width)
    ensures r.Err? <==> levels.None? && transitions.OnePair?
    ensures r.Err? ==> r.error == TypeError
    ensures r.Ok? ==> |r.value| == (if levels.Some? then |levels.value| else |PairsOf(transitions)|)
    ensures r.Ok? ==> forall q :: 0 <= q < |r.value| ==> |r.value[q]| == swept
    ensures r.Ok? ==> forall q, k :: 0 <= q < |r.value| && 0 <= k < swept ==> r.value[q][k] >= 0.0
  {
    if levels.Some? then
      var ls := levels.value;
      Ok(seq(|ls|, q requires 0 <= q < |ls| => LevelRow(cube, swept, width, ls[q])))
    else if transitions.OnePair? then Err(TypeError)
    else
      var ps := PairsOf(transitions);
      Ok(seq(|ps|, q requires 0 <= q < |ps| => TransitionRow(cube, swept, width, ps[q])))
  }

  /** The loops of _compute_dispersion that fill the dispersion array one row
      per requested transition or level. */
  method ReduceCube(cube: Cube, swept: nat, width: nat,
                    transitions: TransitionsArg, levels: Option<seq<nat>>) returns (r: Result<seq<seq<real>>>)
    requires |cube| > 0 && CubeShaped(cube, swept, width)
    requires WithinLevels(transitions, levels, width)
    ensures r == Dispersions(cube, swept, width, transitions, levels)
  {
    var dispersions: array<seq<real>>;
    if levels.None? {
      if transitions.OnePair? {
        return Err(TypeError);
      }
      var pairs := PairsOf(transitions);
      dispersions := new seq<real>[|pairs|];
      for index := 0 to |pairs|
        invariant forall q :: 0 <= q < index ==> dispersions[q] == TransitionRow(cube, swept, width, pairs[q])
      {
        dispersions[index] := TransitionRow(cube, swept, width, pairs[index]);
      }
      assert dispersions[..] == Dispersions(cube, swept, width, transitions, levels).value;
    } else {
      var ls := levels.value;
      dispersions := new seq<real>[|ls|];
      for index := 0 to |ls|
        invariant forall q :: 0 <= q < index ==> dispersions[q] == LevelRow(cube, swept, width, ls[q])
      {
        dispersions[index] := LevelRow(cube, swept, width, ls[index]);
      }
      assert dispersions[..] == Dispersions(cube, swept, width, transitions, levels).value;
    }
    r := Ok(dispersions[..]);
  }

  /** Transition dispersion: entry (q, k) bounds every difference of the
      transition energy between two induced samples, equals one of them, and
      so is never negative. */
  lemma TransitionDispersionValues(cube: Cube, swept: nat, width: nat, pairs: seq<Pair>, q: nat, k: nat)
    requires |cube| > 0 && CubeShaped(cube, swept, width)
    requires WithinLevels(PairTuple(pairs), None, width)
    requires q < |pairs| && k < swept
    ensures var d := Dispersions(cube, swept, width, PairTuple(pairs), None).value[q][k];
            var (i, j) := pairs[q];
            d >= 0.0 &&
            (forall a, b :: 0 <= a < |cube| && 0 <= b < |cube| ==>
               (cube[a][k][i] - cube[a][k][j]) - (cube[b][k][i] - cube[b][k][j]) <= d) &&
            (exists a, b :: 0 <= a < |cube| && 0 <= b < |cube| &&
               d == (cube[a][k][i] - cube[a][k][j]) - (cube[b][k][i] - cube[b][k][j]))
  {
    assert PairsOf(PairTuple(pairs)) == pairs;
    var s := TransitionSamples(cube, swept, width, k, pairs[q].0, pairs[q].1);
    assert Dispersions(cube, swept, width, PairTuple(pairs), None).value[q][k] == Spread(s);
  }

  /** Level dispersion: entry (q, k) is max - min of E[., k, levels[q]]. */
  lemma LevelDispersionValues(cube: Cube, swept: nat, width: nat, levels: seq<nat>,
                               transitions: TransitionsArg, q: nat, k: nat)
    requires |cube| > 0 && CubeShaped(cube, swept, width)
    requires WithinLevels(transitions, Some(levels), width)
    requires q < |levels| && k < swept
    ensures var d := Dispersions(cube, swept, width, transitions, Some(levels)).value[q][k];
            var j := levels[q];
            d >= 0.0 &&
            (forall a, b :: 0 <= a < |cube| && 0 <= b < |cube| ==> cube[a][k][j] - cube[b][k][j] <= d) &&
            (exists a, b :: 0 <= a < |cube| && 0 <= b < |cube| && d == cube[a][k][j] - cube[b][k][j])
  {
    var s := LevelSamples(cube, swept, width, k, levels[q]);
    assert Dispersions(cube, swept, width, transitions, Some(levels)).value[q][k] == Spread(s);
  }

  /** A level whose energy does not move with the induced parameter has zero
      dispersion, and only such a level has. */
  lemma FlatLevelHasZeroDispersion(cube: Cube, swept: nat, width: nat, levels: seq<nat>,
                                   transitions: TransitionsArg, q: nat, k: nat)
    requires |cube| > 0 && CubeShaped(cube, swept, width)
    requires WithinLevels(transitions, Some(levels), width)
    requires q < |levels| && k < swept
    ensures Dispersions(cube, swept, width, transitions, Some(levels)).value[q][k] == 0.0 <==>
              forall a :: 0 <= a < |cube| ==> cube[a][k][levels[q]] == cube[0][k][levels[q]]
  {
    var s := LevelSamples(cube, swept, width, k, levels[q]);
    assert Dispersions(cube, swept, width, transitions, Some(levels)).value[q][k] == Spread(s);
    SpreadZeroIffConstant(s);
  }

  predicate Rectangular(d: seq<seq<real>>, cols: nat)
  {
    forall r :: 0 <= r < |d| ==> |d[r]| == cols
  }

  /** dispersion.T: rows become columns. */
  function Transpose(d: seq<seq<real>>, cols: nat): (t: seq<seq<real>>)
    requires Rectangular(d, cols)
    ensures |t| == cols && Rectangular(t, |d|)
    ensures forall k, r :: 0 <= k < cols && 0 <= r < |d| ==> t[k][r] == d[r][k]
  {
    seq(cols, k requires 0 <= k < cols => seq(|d|, r requires 0 <= r < |d| => d[r][k]))
  }

  /** Transposing twice gives the table back. */
  lemma TransposeTwice(d: seq<seq<real>>, cols: nat)
    requires Rectangular(d, cols)
    ensures Transpose(Transpose(d, cols), |d|) == d
  {
    var back := Transpose(Transpose(d, cols), |d|);
    forall r | 0 <= r < |d| ensures back[r] == d[r] {
      assert |back[r]| == cols == |d[r]|;
    }
  }
}
