/** Vectors and matrices of reals: a state vector is one concentration per
    component followed by the total flow, and a matrix holds one such vector
    per input stream (one row per input). */
module Vectors {

  /** A vector of `k` zeros (`arr * 0.` in the source). */
  function Zeros(k: nat): (z: seq<real>)
    ensures |z| == k
    ensures forall i :: 0 <= i < k ==> z[i] == 0.0
  {
    seq(k, _ => 0.0)
  }

  /** Every row has `width` entries. */
  predicate IsMatrix(m: seq<seq<real>>, width: nat)
  {
    forall i :: 0 <= i < |m| ==> |m[i]| == width
  }

  /** The sum of column `col` over all rows: `m[:, col].sum()`. */
  function ColumnSum(m: seq<seq<real>>, col: nat): real
    requires forall i :: 0 <= i < |m| ==> col < |m[i]|
  {
    if m == [] then 0.0 else m[0][col] + ColumnSum(m[1..], col)
  }

  /** A column that is zero outside row `p` sums to its entry in row `p`. */
  lemma {:induction false} ColumnSumOfOneRow(m: seq<seq<real>>, col: nat, p: nat)
    requires p < |m| && forall i :: 0 <= i < |m| ==> col < |m[i]|
    requires forall i :: 0 <= i < |m| && i != p ==> m[i][col] == 0.0
    ensures ColumnSum(m, col) == m[p][col]
    decreases |m|
  {
    if p == 0 {
      ColumnSumOfZeros(m[1..], col);
    } else {
      ColumnSumOfOneRow(m[1..], col, p - 1);
    }
  }

  /** A column of zeros sums to zero. */
  lemma {:induction false} ColumnSumOfZeros(m: seq<seq<real>>, col: nat)
    requires forall i :: 0 <= i < |m| ==> col < |m[i]| && m[i][col] == 0.0
    ensures ColumnSum(m, col) == 0.0
    decreases |m|
  {
    if m != [] {
      ColumnSumOfZeros(m[1..], col);
    }
  }

  /** Column `wc` of `w` times column `xc` of `x`, summed over the rows:
      `w[:, wc] @ x[:, xc]`. */
  function WeightedSum(w: seq<seq<real>>, x: seq<seq<real>>, wc: nat, xc: nat): real
    requires |w| == |x|
    requires forall i :: 0 <= i < |w| ==> wc < |w[i]| && xc < |x[i]|
  {
    if w == [] then 0.0 else w[0][wc] * x[0][xc] + WeightedSum(w[1..], x[1..], wc, xc)
  }

  /** The elementwise product `a * b` of two vectors of one length. */
  function Hadamard(a: seq<real>, b: seq<real>): (r: seq<real>)
    requires |a| == |b|
    ensures |r| == |a|
    ensures forall i :: 0 <= i < |a| ==> r[i] == a[i] * b[i]
  {
    seq(|a|, i requires 0 <= i < |a| => a[i] * b[i])
  }
}
