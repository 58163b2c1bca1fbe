/**
 Row-major enumeration of a product of two sequences: the order in which two
 nested `for` loops visit (x, y), outer loop over the first sequence.
 */
module Sweeps {

  /** f(x, y) for every y, in order. */
  function Row<A, B, T>(x: A, ys: seq<B>, f: (A, B) -> T): seq<T>
  {
    seq(|ys|, j requires 0 <= j < |ys| => f(x, ys[j]))
  }

  /** f(x, y) for every x (outer) and every y (inner), row by row. */
  function Sweep<A, B, T>(xs: seq<A>, ys: seq<B>, f: (A, B) -> T): seq<T>
    decreases |xs|
  {
    if xs == [] then [] else Sweep(xs[..|xs| - 1], ys, f) + Row(xs[|xs| - 1], ys, f)
  }

  /** A sweep holds one entry per pair. */
  lemma {:induction false} SweepLength<A, B, T>(xs: seq<A>, ys: seq<B>, f: (A, B) -> T)
    ensures |Sweep(xs, ys, f)| == |xs| * |ys|
    decreases |xs|
  {
    if xs != [] {
      SweepLength(xs[..|xs| - 1], ys, f);
      assert |xs| * |ys| == (|xs| - 1) * |ys| + |ys|;
    }
  }

  /** Entry i * |ys| + j of a sweep is f(xs[i], ys[j]). */
  lemma {:induction false} SweepAt<A, B, T>(xs: seq<A>, ys: seq<B>, f: (A, B) -> T, i: nat, j: nat)
    requires i < |xs| && j < |ys|
    ensures |Sweep(xs, ys, f)| == |xs| * |ys|
    ensures i * |ys| + j < |xs| * |ys|
    ensures Sweep(xs, ys, f)[i * |ys| + j] == f(xs[i], ys[j])
    decreases |xs|
  {
    var init := xs[..|xs| - 1];
    SweepLength(init, ys, f);
    SweepLength(xs, ys, f);
    assert |xs| * |ys| == (|xs| - 1) * |ys| + |ys|;
    if i < |xs| - 1 {
      SweepAt(init, ys, f, i, j);
    } else {
      assert i * |ys| == (|xs| - 1) * |ys|;
    }
  }

  /** With no inner values, a sweep is empty however many outer values it has. */
  lemma {:induction false} SweepNoColumns<A, B, T>(xs: seq<A>, f: (A, B) -> T)
    ensures Sweep(xs, [], f) == []
    decreases |xs|
  {
    if xs != [] {
      SweepNoColumns(xs[..|xs| - 1], f);
    }
  }

  /** One more outer value: the sweep over a longer prefix gains that value's row. */
  lemma SweepPrefixStep<A, B, T>(xs: seq<A>, i: nat, ys: seq<B>, f: (A, B) -> T)
    requires i < |xs|
    ensures Sweep(xs[..i + 1], ys, f) == Sweep(xs[..i], ys, f) + Row(xs[i], ys, f)
  {
    assert xs[..i + 1][..i] == xs[..i];
  }

  /** One more inner value: the row over a longer prefix gains that value's entry. */
  lemma RowPrefixStep<A, B, T>(x: A, ys: seq<B>, j: nat, f: (A, B) -> T)
    requires j < |ys|
    ensures Row(x, ys[..j + 1], f) == Row(x, ys[..j], f) + [f(x, ys[j])]
  {
  }
}
