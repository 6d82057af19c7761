/** Shared vocabulary: the errors a sweep can raise, the result wrapper and the
    parameter state of a quantum system. */
module Base {

  /** The exceptions the modelled code lets propagate to its caller. */
  datatype Error =
    | AttributeError(name: string)  // getattr of a name that is neither an attribute nor a method
    | DimensionError                // scipy's ValueError for an eigenvalue window (0, evals_count - 1)
                                    // outside the Hilbert space, kept apart from the ValueError below
    | ValueError                    // max() / np.max() of an empty sequence, np.empty of a negative size
    | IndexError                    // transitions[0] of an empty tuple
    | TypeError                     // unpacking a bare int as an (i, j) pair; calling a number

  datatype Result<+T> = Ok(value: T) | Err(error: Error)

  datatype Option<+T> = None | Some(value: T)

  /** The named real-valued attributes of a system object (flux, ng, EJ, ...). */
  type Params = map<string, real>

  predicate Sorted(s: seq<real>)
  {
    forall i, j :: 0 <= i < j < |s| ==> s[i] <= s[j]
  }

  /** Setting an attribute twice keeps only the second value. */
  lemma SetTwice(p: Params, name: string, a: real, b: real)
    ensures p[name := a][name := b] == p[name := b]
  {
  }
}
