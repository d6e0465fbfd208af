/**
 * The linearised (conductance, current) pair that every channel and synapse returns
 * to the compartment-voltage solver, and the left-to-right accumulation of such
 * pairs that the compartment performs into `g_val` and `i_val`.
 */
module Linearized {

  datatype GI = GI(g: real, i: real) {
    function Plus(o: GI): GI {
      GI(g + o.g, i + o.i)
    }
  }

  const Zero: GI := GI(0.0, 0.0)

  /** Add the pairs of `s` into `acc`, first element first. */
  function Fold(acc: GI, s: seq<GI>): GI
    decreases |s|
  {
    if s == [] then acc else Fold(acc, s[..|s| - 1]).Plus(s[|s| - 1])
  }

  /** The sum of the conductance components of `s`. */
  function SumG(s: seq<GI>): real
    decreases |s|
  {
    if s == [] then 0.0 else SumG(s[..|s| - 1]) + s[|s| - 1].g
  }

  /** The sum of the current components of `s`. */
  function SumI(s: seq<GI>): real
    decreases |s|
  {
    if s == [] then 0.0 else SumI(s[..|s| - 1]) + s[|s| - 1].i
  }

  /** Accumulating is the element-wise sum: conductances add up, and so do currents. */
  lemma {:induction false} FoldElementwise(acc: GI, s: seq<GI>)
    ensures Fold(acc, s) == GI(acc.g + SumG(s), acc.i + SumI(s))
    decreases |s|
  {
    if s != [] {
      FoldElementwise(acc, s[..|s| - 1]);
    }
  }

  /** Accumulating a concatenation is accumulating one part after the other. */
  lemma {:induction false} FoldAppend(acc: GI, a: seq<GI>, b: seq<GI>)
    ensures Fold(acc, a + b) == Fold(Fold(acc, a), b)
    decreases |b|
  {
    if b == [] {
      assert a + b == a;
    } else {
      assert (a + b)[..|a + b| - 1] == a + b[..|b| - 1];
      FoldAppend(acc, a, b[..|b| - 1]);
    }
  }
}
