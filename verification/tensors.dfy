/** Exact real-valued stand-ins for the tensors the trainer manipulates:
    a `Vector` is one row, a `Matrix` is a batch of rows. */
module Tensors {

  type Vector = seq<real>
  type Matrix = seq<Vector>

  function Abs(x: real): (r: real)
    ensures r >= 0.0 && (r == x || r == -x)
  {
    if x < 0.0 then -x else x
  }

  /** Distance between two reals. */
  function Dist(x: real, y: real): (d: real)
    ensures d >= 0.0 && (d == x - y || d == y - x)
  {
    Abs(x - y)
  }

  /** `b ** k` for a whole number of steps `k`. */
  function Pow(b: real, k: nat): real
  {
    if k == 0 then 1.0 else b * Pow(b, k - 1)
  }

  /** A discount factor in [0, 1] raised to any power stays in [0, 1]. */
  lemma {:induction false} PowUnitInterval(b: real, k: nat)
    requires 0.0 <= b <= 1.0
    ensures 0.0 <= Pow(b, k) <= 1.0
  {
    if k > 0 {
      PowUnitInterval(b, k - 1);
      var p := Pow(b, k - 1);
      assert Pow(b, k) == b * p;
      assert 0.0 <= b * p <= 1.0 * p;
    }
  }

  /** `numpy.clip(x, -1, 1)`: the point of [-1, 1] nearest to `x`. */
  function ClipUnit(x: real): (r: real)
    ensures -1.0 <= r <= 1.0
    ensures -1.0 <= x <= 1.0 ==> r == x
    ensures forall y :: -1.0 <= y <= 1.0 ==> Dist(x, r) <= Dist(x, y)
  {
    if x < -1.0 then -1.0 else if x > 1.0 then 1.0 else x
  }

  lemma MulNonNeg(p: real, q: real)
    requires p >= 0.0 && q >= 0.0
    ensures p * q >= 0.0
  {
  }

  /** Multiplying by a factor of magnitude at most 1 never increases magnitude. */
  lemma ScaleBound(r: real, a: real)
    requires -1.0 <= a <= 1.0
    ensures Abs(r * a) <= Abs(r)
  {
    var m := Abs(r);
    MulNonNeg(m, 1.0 - a);
    MulNonNeg(m, 1.0 + a);
    assert m * (1.0 - a) == m - m * a && m * (1.0 + a) == m + m * a;
    assert r * a == m * a || r * a == -(m * a);
  }

  /** Scaling a clipped value by `range` stays within [-|range|, |range|]. */
  lemma ScaledClipBound(range: real, x: real)
    ensures Abs(range * ClipUnit(x)) <= Abs(range)
    ensures range > 0.0 ==> -range <= range * ClipUnit(x) <= range
  {
  }

  function Zeros(n: nat): (v: Vector)
    ensures |v| == n && forall j :: 0 <= j < n ==> v[j] == 0.0
  {
    seq(n, _ => 0.0)
  }

  /** Elementwise sum of two rows of equal width. */
  function AddVec(a: Vector, b: Vector): (v: Vector)
    requires |a| == |b|
    ensures |v| == |a| && forall j :: 0 <= j < |a| ==> v[j] == a[j] + b[j]
  {
    seq(|a|, j requires 0 <= j < |a| => a[j] + b[j])
  }

  function Sum(v: seq<real>): real
  {
    if v == [] then 0.0 else v[0] + Sum(v[1..])
  }

  /** The sum is monotone in every element. */
  lemma {:induction false} SumMonotone(u: seq<real>, v: seq<real>)
    requires |u| == |v|
    requires forall i :: 0 <= i < |u| ==> u[i] <= v[i]
    ensures Sum(u) <= Sum(v)
  {
    if u != [] {
      SumMonotone(u[1..], v[1..]);
    }
  }

  function Square(x: real): (r: real)
    ensures r >= 0.0
  {
    x * x
  }

  function SumSquares(v: seq<real>): real
  {
    if v == [] then 0.0 else Square(v[0]) + SumSquares(v[1..])
  }

  /** A sum of squares is never negative. */
  lemma {:induction false} SumSquaresNonNegative(v: seq<real>)
    ensures SumSquares(v) >= 0.0
  {
    if v != [] {
      SumSquaresNonNegative(v[1..]);
    }
  }

  /** The squares of all-zero differences sum to zero. */
  lemma {:induction false} SumSquaresOfZeros(v: seq<real>)
    requires forall i :: 0 <= i < |v| ==> v[i] == 0.0
    ensures SumSquares(v) == 0.0
  {
    if v != [] {
      SumSquaresOfZeros(v[1..]);
    }
  }

  /** A batch of `n` rows, each `w` columns wide. */
  predicate Shaped(m: Matrix, n: nat, w: nat)
  {
    |m| == n && forall i :: 0 <= i < |m| ==> |m[i]| == w
  }

  /** `torch.cat((a, b), dim=1)`: each row of `a` followed by the same row of `b`. */
  function ConcatCols(a: Matrix, b: Matrix): (m: Matrix)
    requires |a| == |b|
    ensures |m| == |a|
    ensures forall i :: 0 <= i < |m| ==> m[i] == a[i] + b[i]
  {
    seq(|a|, i requires 0 <= i < |a| => a[i] + b[i])
  }

  function Min(a: nat, b: nat): nat
  {
    if a <= b then a else b
  }

  /** `m[:, :k]` with Python's slicing: every row is cut to a prefix of at
      most `k` entries, so a row shorter than `k` is kept whole. */
  function TakeCols(m: Matrix, k: nat): (r: Matrix)
    ensures |r| == |m|
    ensures forall i :: 0 <= i < |m| ==> |r[i]| == Min(k, |m[i]|) && r[i] <= m[i]
  {
    seq(|m|, i requires 0 <= i < |m| => if k <= |m[i]| then m[i][..k] else m[i])
  }

  /** `m[:, k:]` with Python's slicing: every row loses its first `k`
      entries, so a row shorter than `k` leaves nothing. */
  function DropCols(m: Matrix, k: nat): (r: Matrix)
    ensures |r| == |m|
    ensures forall i :: 0 <= i < |m| ==> |r[i]| == |m[i]| - Min(k, |m[i]|)
  {
    seq(|m|, i requires 0 <= i < |m| => if k <= |m[i]| then m[i][k..] else [])
  }

  /** Whatever `k`, the two slices of a row rejoin to the row. */
  lemma TakeDropRejoin(m: Matrix, k: nat)
    ensures forall i :: 0 <= i < |m| ==> TakeCols(m, k)[i] + DropCols(m, k)[i] == m[i]
  {
  }

  /** Splitting a concatenated batch at the width of its first part gives
      both parts back, and the widths add up. */
  lemma SplitConcat(s: Matrix, a: Matrix, n: nat, k: nat, w: nat)
    requires Shaped(s, n, k) && Shaped(a, n, w)
    ensures Shaped(ConcatCols(s, a), n, k + w)
    ensures TakeCols(ConcatCols(s, a), k) == s
    ensures DropCols(ConcatCols(s, a), k) == a
  {
  }

  /** Conversely, a batch `k + w` columns wide splits into a `k`-wide state
      part and a `w`-wide action part. */
  lemma SplitShapes(m: Matrix, n: nat, k: nat, w: nat)
    requires Shaped(m, n, k + w)
    ensures Shaped(TakeCols(m, k), n, k) && Shaped(DropCols(m, k), n, w)
    ensures ConcatCols(TakeCols(m, k), DropCols(m, k)) == m
  {
    var c := ConcatCols(TakeCols(m, k), DropCols(m, k));
    forall i | 0 <= i < n ensures c[i] == m[i] {
      assert m[i] == m[i][..k] + m[i][k..];
    }
  }
}
