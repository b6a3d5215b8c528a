/** Tensors with their shape collapsed to a flat sequence of exact reals, and the elementwise
    arithmetic, reductions and products the parameter-map utilities apply to them. */
module Tensors {

  /** A tensor: its elements in row-major order. Exact reals stand for 32-bit floats. */
  type Tensor = seq<real>

  function Zeros(n: nat): Tensor {
    seq(n, _ => 0.0)
  }

  function Add(a: Tensor, b: Tensor): Tensor
    requires |a| == |b|
  {
    seq(|a|, e requires 0 <= e < |a| => a[e] + b[e])
  }

  function Sub(a: Tensor, b: Tensor): Tensor
    requires |a| == |b|
  {
    seq(|a|, e requires 0 <= e < |a| => a[e] - b[e])
  }

  function Negate(a: Tensor): Tensor {
    seq(|a|, e requires 0 <= e < |a| => -a[e])
  }

  /** In-place division of every element by a scalar (`t /= d`). */
  function DivideBy(a: Tensor, d: real): Tensor
    requires d != 0.0
  {
    seq(|a|, e requires 0 <= e < |a| => a[e] / d)
  }

  /** Every tensor of the list has n elements. */
  predicate AllLength(ts: seq<Tensor>, n: nat) {
    forall j :: 0 <= j < |ts| ==> |ts[j]| == n
  }

  /** The sum of element e over the list, added left to right. */
  function ColumnSum(ts: seq<Tensor>, e: nat): real
    requires forall j :: 0 <= j < |ts| ==> e < |ts[j]|
  {
    if ts == [] then 0.0 else ColumnSum(ts[..|ts| - 1], e) + ts[|ts| - 1][e]
  }

  /** The elementwise sum of a list of tensors of n elements. */
  function Sums(ts: seq<Tensor>, n: nat): Tensor
    requires AllLength(ts, n)
  {
    seq(n, e requires 0 <= e < n => ColumnSum(ts, e))
  }

  /** torch.mean(torch.stack(ts), dim=0): the elementwise mean of a non-empty list of equal-size tensors. */
  function Mean(ts: seq<Tensor>): Tensor
    requires |ts| > 0 && AllLength(ts, |ts[0]|)
  {
    DivideBy(Sums(ts, |ts[0]|), |ts| as real)
  }

  /** Adding one more tensor to a running elementwise sum extends the sum by that tensor. */
  lemma SumsStep(ts: seq<Tensor>, n: nat, j: nat)
    requires AllLength(ts, n) && j < |ts|
    ensures Add(Sums(ts[..j], n), ts[j]) == Sums(ts[..j + 1], n)
  {
    assert ts[..j + 1][..j] == ts[..j];
  }

  /** The mean of a single tensor is that tensor. */
  lemma MeanOfOne(t: Tensor)
    ensures Mean([t]) == t
  {
    forall e | 0 <= e < |t| ensures Mean([t])[e] == t[e] {
      assert [t][..0] == [];
      assert ColumnSum([t], e) == t[e];
    }
  }

  lemma {:induction false} ColumnSumOfCopies(t: Tensor, n: nat, e: nat)
    requires e < |t|
    ensures ColumnSum(seq(n, _ => t), e) == (n as real) * t[e]
  {
    if n > 0 {
      assert seq(n, _ => t)[..n - 1] == seq(n - 1, _ => t);
      ColumnSumOfCopies(t, n - 1, e);
    }
  }

  /** The mean of n >= 1 copies of one tensor is that tensor. */
  lemma MeanOfCopies(t: Tensor, n: nat)
    requires n > 0
    ensures Mean(seq(n, _ => t)) == t
  {
    forall e | 0 <= e < |t| ensures Mean(seq(n, _ => t))[e] == t[e] {
      ColumnSumOfCopies(t, n, e);
    }
  }

  /** When every column of a list sums to zero, the mean is the zero tensor. */
  lemma MeanOfCancellingList(ts: seq<Tensor>)
    requires |ts| > 0 && AllLength(ts, |ts[0]|)
    requires forall e :: 0 <= e < |ts[0]| ==> ColumnSum(ts, e) == 0.0
    ensures Mean(ts) == Zeros(|ts[0]|)
  {
  }

  /** The sum of all elements, added left to right (torch.sum). */
  function Total(a: Tensor): real {
    if a == [] then 0.0 else Total(a[..|a| - 1]) + a[|a| - 1]
  }

  /** Two flat vectors can be multiplied elementwise: equal lengths, or one of them has length 1. */
  predicate Broadcastable(a: Tensor, b: Tensor) {
    |a| == |b| || |a| == 1 || |b| == 1
  }

  /** s1 * s2 on one-dimensional tensors, broadcasting an operand of length 1. */
  function Product(a: Tensor, b: Tensor): Tensor
    requires Broadcastable(a, b)
  {
    if |a| == |b| then seq(|a|, e requires 0 <= e < |a| => a[e] * b[e])
    else if |a| == 1 then seq(|b|, e requires 0 <= e < |b| => a[0] * b[e])
    else seq(|a|, e requires 0 <= e < |a| => a[e] * b[0])
  }

  /** torch.sum(s1 * s2). */
  function Dot(a: Tensor, b: Tensor): real
    requires Broadcastable(a, b)
  {
    Total(Product(a, b))
  }

  /** The squared Euclidean norm. */
  function SqNorm(a: Tensor): real {
    Dot(a, a)
  }

  lemma DotSymmetric(a: Tensor, b: Tensor)
    requires Broadcastable(a, b)
    ensures Dot(a, b) == Dot(b, a)
  {
    assert Product(a, b) == Product(b, a);
  }

  lemma {:induction false} TotalNonNegative(a: Tensor)
    requires forall e :: 0 <= e < |a| ==> a[e] >= 0.0
    ensures Total(a) >= 0.0
  {
    if a != [] {
      TotalNonNegative(a[..|a| - 1]);
    }
  }

  lemma {:induction false} TotalNegate(a: Tensor)
    ensures Total(Negate(a)) == -Total(a)
  {
    if a != [] {
      assert Negate(a)[..|a| - 1] == Negate(a[..|a| - 1]);
      TotalNegate(a[..|a| - 1]);
    }
  }

  lemma SqNormNonNegative(a: Tensor)
    ensures SqNorm(a) >= 0.0
  {
    forall e | 0 <= e < |a| ensures Product(a, a)[e] >= 0.0 {
      var z := a[e];
      if z < 0.0 {
        assert z * z == (-z) * (-z);
      }
    }
    TotalNonNegative(Product(a, a));
  }

  /** The dot product of a vector with its negation is minus its squared norm. */
  lemma DotNegated(a: Tensor)
    ensures Broadcastable(a, Negate(a)) && Dot(a, Negate(a)) == -SqNorm(a)
  {
    forall e | 0 <= e < |a| ensures Product(a, Negate(a))[e] == Negate(Product(a, a))[e] {
      assert a[e] * -a[e] == -(a[e] * a[e]);
    }
    assert Product(a, Negate(a)) == Negate(Product(a, a));
    TotalNegate(Product(a, a));
  }
}
