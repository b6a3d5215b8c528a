/** pairwise_angles: the matrix of cosine-like similarities between the flattened parameter
    dicts of a list of clients, the input the server clusters on. The Euclidean norm is a
    parameter of the model: any function that is never negative. */
module Similarity {
  import opened Tensors
  import opened Faults
  import opened ParamSpec

  /** The 1e-12 added to the product of the norms. */
  const Eps: real := 0.000000000001

  /** Norms are never negative. */
  ghost predicate IsNorm(norm: Tensor -> real) {
    forall v :: 0.0 <= norm(v)
  }

  /** torch.sum(s1 * s2) / (torch.norm(s1) * torch.norm(s2) + 1e-12) for two flat vectors. */
  function Angle(a: Tensor, b: Tensor, norm: Tensor -> real): (r: real)
    requires Broadcastable(a, b)
    requires 0.0 <= norm(a) && 0.0 <= norm(b)
    ensures (r < 0.0 <==> Dot(a, b) < 0.0) && (r == 0.0 <==> Dot(a, b) == 0.0)
  {
    var d := norm(a) * norm(b);
    assert d >= 0.0 by { NonNegativeProduct(norm(a), norm(b)); }
    QuotientSign(Dot(a, b), d + Eps);
    Dot(a, b) / (d + Eps)
  }

  /** Dividing by a positive number keeps the sign. */
  lemma QuotientSign(x: real, d: real)
    requires d > 0.0
    ensures (x / d < 0.0 <==> x < 0.0) && (x / d == 0.0 <==> x == 0.0)
  {
    assert x / d * d == x;
  }

  lemma NonNegativeProduct(x: real, y: real)
    requires 0.0 <= x && 0.0 <= y
    ensures 0.0 <= x * y
  {
  }

  /** The score pairwise_angles stores at row i, column j: flatten(sources[i]) first, then
      flatten(sources[j]), then their product. */
  function Entry(ps: seq<Params>, i: nat, j: nat, norm: Tensor -> real): (r: Result<real>)
    requires i < |ps| && j < |ps|
    requires Covers(ps[i].names, ps[i].tensors) && Covers(ps[j].names, ps[j].tensors)
    requires 0.0 <= norm(Concat(ps[i].names, ps[i].tensors)) && 0.0 <= norm(Concat(ps[j].names, ps[j].tensors))
    ensures r.Failure? ==> r.error == EmptyConcat || r.error == NotBroadcastable
    ensures (&& ps[i].names != [] && ps[j].names != []
             && TotalLength(ps[i].names, ps[i].tensors) == TotalLength(ps[j].names, ps[j].tensors)) ==> r.Success?
  {
    var s1 := Flatten(ps[i]);
    var s2 := Flatten(ps[j]);
    if s1.Failure? then Failure(s1.error)
    else if s2.Failure? then Failure(s2.error)
    else if !Broadcastable(s1.value, s2.value) then Failure(NotBroadcastable)
    else Success(Angle(s1.value, s2.value, norm))
  }

  /** Every dict of the list has a tensor for each of its keys. */
  ghost predicate AllCovered(ps: seq<Params>) {
    forall j :: 0 <= j < |ps| ==> Covers(ps[j].names, ps[j].tensors)
  }

  /** (i, j) comes before (i', j') when the loops of pairwise_angles visit it first. */
  predicate Before(i: int, j: int, i': int, j': int) {
    i < i' || (i == i' && j < j')
  }

  /** Entry (i, j) fails, and every entry visited before it succeeds. */
  ghost predicate FirstFailingEntry(ps: seq<Params>, i: nat, j: nat, norm: Tensor -> real)
    requires AllCovered(ps) && IsNorm(norm)
  {
    && i < |ps| && j < |ps| && Entry(ps, i, j, norm).Failure?
    && forall a, b :: 0 <= a < |ps| && 0 <= b < |ps| && Before(a, b, i, j) ==> Entry(ps, a, b, norm).Success?
  }

  /** The rows of a square matrix. */
  function Rows(m: array2<real>): (rows: seq<seq<real>>)
    reads m
    ensures |rows| == m.Length0
    ensures forall i :: 0 <= i < m.Length0 ==> |rows[i]| == m.Length1
    ensures forall i, j :: 0 <= i < m.Length0 && 0 <= j < m.Length1 ==> rows[i][j] == m[i, j]
  {
    seq(m.Length0, i requires 0 <= i < m.Length0 reads m => seq(m.Length1, j requires 0 <= j < m.Length1 reads m => m[i, j]))
  }

  /** r is what pairwise_angles(ps) gives: the n-by-n symmetric matrix of entries when every
      entry succeeds, otherwise the error of the first entry, in visiting order, that raises. */
  ghost predicate IsAngleMatrix(ps: seq<Params>, norm: Tensor -> real, r: Result<seq<seq<real>>>)
    requires AllCovered(ps) && IsNorm(norm)
  {
    && (r.Success? <==> forall i, j :: 0 <= i < |ps| && 0 <= j < |ps| ==> Entry(ps, i, j, norm).Success?)
    && (r.Success? ==>
          && |r.value| == |ps|
          && (forall i :: 0 <= i < |ps| ==> |r.value[i]| == |ps|)
          && (forall i, j :: 0 <= i < |ps| && 0 <= j < |ps| ==> r.value[i][j] == Entry(ps, i, j, norm).value)
          && (forall i, j :: 0 <= i < |ps| && 0 <= j < |ps| ==> r.value[i][j] == r.value[j][i]))
    && (r.Failure? ==> exists i, j :: FirstFailingEntry(ps, i, j, norm) && r.error == Entry(ps, i, j, norm).error)
  }

  /** pairwise_angles(sources): fills an n-by-n zero matrix row by row and returns it as a plain
      matrix; the first entry that raises aborts the whole call. The dicts are only read. */
  method PairwiseAngles(sources: seq<Params>, norm: Tensor -> real) returns (r: Result<seq<seq<real>>>)
    requires AllCovered(sources) && IsNorm(norm)
    ensures IsAngleMatrix(sources, norm, r)
  {
    var n := |sources|;
    var angles := new real[n, n]((_, _) => 0.0);
    var i := 0;
    while i < n
      invariant 0 <= i <= n
      invariant forall a, b :: 0 <= a < i && 0 <= b < n ==>
                  Entry(sources, a, b, norm).Success? && angles[a, b] == Entry(sources, a, b, norm).value
    {
      var status, col := FillRow(angles, sources, i, norm);
      if status.Failed? {
        FirstFailureInRow(sources, i, col, norm);
        return Failure(status.fault);
      }
      i := i + 1;
    }
    r := Success(Rows(angles));
    forall a, b | 0 <= a < n && 0 <= b < n ensures Rows(angles)[a][b] == Rows(angles)[b][a] {
      EntrySymmetric(sources, a, b, norm);
    }
  }

  /** Entry (i, b) fails and the entries before it in row i succeed. */
  ghost predicate RowFailsAt(ps: seq<Params>, i: nat, b: nat, norm: Tensor -> real)
    requires AllCovered(ps) && IsNorm(norm) && i < |ps|
  {
    b < |ps| && Entry(ps, i, b, norm).Failure? && forall c :: 0 <= c < b ==> Entry(ps, i, c, norm).Success?
  }

  /** A failure in row i, after every earlier row succeeded, is the first failure of the matrix. */
  lemma FirstFailureInRow(ps: seq<Params>, i: nat, b: nat, norm: Tensor -> real)
    requires AllCovered(ps) && IsNorm(norm) && i < |ps|
    requires forall a, c :: 0 <= a < i && 0 <= c < |ps| ==> Entry(ps, a, c, norm).Success?
    requires RowFailsAt(ps, i, b, norm)
    ensures FirstFailingEntry(ps, i, b, norm)
  {
  }

  /** The inner loop of pairwise_angles: row i of the matrix, column by column. */
  method FillRow(angles: array2<real>, sources: seq<Params>, i: nat, norm: Tensor -> real)
    returns (status: Status, ghost col: nat)
    requires AllCovered(sources) && IsNorm(norm)
    requires angles.Length0 == angles.Length1 == |sources| && i < |sources|
    modifies angles
    ensures forall a, b :: 0 <= a < |sources| && 0 <= b < |sources| && a != i ==> angles[a, b] == old(angles[a, b])
    ensures status.Done? ==>
              forall b :: 0 <= b < |sources| ==>
                Entry(sources, i, b, norm).Success? && angles[i, b] == Entry(sources, i, b, norm).value
    ensures status.Failed? ==> RowFailsAt(sources, i, col, norm) && status.fault == Entry(sources, i, col, norm).error
  {
    var n := |sources|;
    var j := 0;
    while j < n
      invariant 0 <= j <= n
      invariant forall a, b :: 0 <= a < n && 0 <= b < n && a != i ==> angles[a, b] == old(angles[a, b])
      invariant forall b :: 0 <= b < j ==> Entry(sources, i, b, norm).Success? && angles[i, b] == Entry(sources, i, b, norm).value
    {
      var s1 := Flatten(sources[i]);
      var s2 := Flatten(sources[j]);
      if s1.Failure? {
        return Failed(s1.error), j;
      }
      if s2.Failure? {
        return Failed(s2.error), j;
      }
      if !Broadcastable(s1.value, s2.value) {
        return Failed(NotBroadcastable), j;
      }
      angles[i, j] := Angle(s1.value, s2.value, norm);
      j := j + 1;
    }
    return Done, 0;
  }

  /** The score of a with b is the score of b with a. */
  lemma AngleSymmetric(a: Tensor, b: Tensor, norm: Tensor -> real)
    requires Broadcastable(a, b) && 0.0 <= norm(a) && 0.0 <= norm(b)
    ensures Angle(a, b, norm) == Angle(b, a, norm)
  {
    DotSymmetric(a, b);
    assert norm(a) * norm(b) == norm(b) * norm(a);
  }

  /** The matrix is symmetric: entry (i, j) fails exactly when entry (j, i) does, and otherwise
      holds the same score. */
  lemma EntrySymmetric(ps: seq<Params>, i: nat, j: nat, norm: Tensor -> real)
    requires AllCovered(ps) && IsNorm(norm) && i < |ps| && j < |ps|
    ensures Entry(ps, i, j, norm).Success? <==> Entry(ps, j, i, norm).Success?
    ensures Entry(ps, i, j, norm).Success? ==> Entry(ps, i, j, norm).value == Entry(ps, j, i, norm).value
  {
    if Entry(ps, i, j, norm).Success? {
      AngleSymmetric(Flatten(ps[i]).value, Flatten(ps[j]).value, norm);
    }
  }

  /** A client whose update is the exact opposite of another's, and not zero, scores negative
      against it: such clients end up in different clusters. */
  lemma AngleOfOpposite(a: Tensor, norm: Tensor -> real)
    requires IsNorm(norm) && SqNorm(a) > 0.0
    ensures Broadcastable(a, Negate(a)) && Angle(a, Negate(a), norm) < 0.0
  {
    DotNegated(a);
    NonNegativeProduct(norm(a), norm(Negate(a)));
    var d := norm(a) * norm(Negate(a)) + Eps;
    assert d > 0.0;
    assert Dot(a, Negate(a)) < 0.0;
    NegativeQuotient(Dot(a, Negate(a)), d);
  }

  lemma NegativeQuotient(x: real, d: real)
    requires x < 0.0 && d > 0.0
    ensures x / d < 0.0
  {
  }

  /** On the diagonal, with a norm that is the square root of the sum of squares, the score is
      |a|^2 / (|a|^2 + 1e-12): never negative and always below one. */
  lemma SelfAngleBounds(a: Tensor, norm: Tensor -> real)
    requires IsNorm(norm) && norm(a) * norm(a) == SqNorm(a)
    ensures 0.0 <= Angle(a, a, norm) < 1.0
  {
    var s := SqNorm(a);
    SqNormNonNegative(a);
    assert Angle(a, a, norm) == s / (s + Eps);
    FractionBelowOne(s, Eps);
  }

  lemma FractionBelowOne(s: real, e: real)
    requires 0.0 <= s && 0.0 < e
    ensures 0.0 <= s / (s + e) < 1.0
  {
    var q := s / (s + e);
    assert q * (s + e) == s;
  }
}
