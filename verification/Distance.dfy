/** Squared Euclidean distance: the scalar loop and the two lane-split loops. */
module Distance {
  import opened RealSeq

  function Square(x: real): (y: real)
    ensures y >= 0.0
  {
    x * x
  }

  /** The squared distance of the first `n` coordinates. */
  function SquaredDistanceTo(a: seq<real>, b: seq<real>, n: nat): (d: real)
    requires n <= |a| && n <= |b|
    ensures d >= 0.0
  {
    if n == 0 then 0.0 else SquaredDistanceTo(a, b, n - 1) + Square(a[n - 1] - b[n - 1])
  }

  function SquaredDistance(a: seq<real>, b: seq<real>): (d: real)
    requires |a| == |b|
    ensures d >= 0.0
  {
    SquaredDistanceTo(a, b, |a|)
  }

  lemma {:induction false} DistanceSymmetric(a: seq<real>, b: seq<real>, n: nat)
    requires n <= |a| && n <= |b|
    ensures SquaredDistanceTo(a, b, n) == SquaredDistanceTo(b, a, n)
  {
    if n > 0 {
      DistanceSymmetric(a, b, n - 1);
      var x, y := a[n - 1], b[n - 1];
      assert (x - y) * (x - y) == (y - x) * (y - x);
    }
  }

  /** One coordinate alone never differs by more than the whole distance. */
  lemma {:induction false} CoordinateWithinDistance(a: seq<real>, b: seq<real>, n: nat, i: nat)
    requires i < n <= |a| && n <= |b|
    ensures Square(a[i] - b[i]) <= SquaredDistanceTo(a, b, n)
  {
    if i < n - 1 {
      CoordinateWithinDistance(a, b, n - 1, i);
    }
  }

  method SquaredDistanceScalar(lhs: seq<real>, rhs: seq<real>) returns (sum: real)
    requires |lhs| == |rhs|
    ensures sum == SquaredDistance(lhs, rhs)
  {
    sum := 0.0;
    for i := 0 to |lhs|
      invariant sum == SquaredDistanceTo(lhs, rhs, i)
    {
      var delta := lhs[i] - rhs[i];
      sum := sum + delta * delta;
    }
  }

  lemma SumUpdate(s: seq<real>, k: nat, x: real)
    requires k < |s|
    ensures Sum(s[k := s[k] + x]) == Sum(s) + x
  {
    var t := s[k := s[k] + x];
    SumRemoveAt(s, k);
    SumRemoveAt(t, k);
    assert RemoveAt(t, k) == RemoveAt(s, k);
  }

  lemma {:induction false} SumOfZeros(s: seq<real>)
    requires forall i :: 0 <= i < |s| ==> s[i] == 0.0
    ensures Sum(s) == 0.0
  {
    if s != [] {
      SumOfZeros(s[..|s| - 1]);
    }
  }

  /** Adds the squared differences of one block to the lane accumulators. */
  method AccumulateBlock(lanes: array<real>, lhs: seq<real>, rhs: seq<real>, base: nat)
    requires |lhs| == |rhs| && base + lanes.Length <= |lhs|
    requires Sum(lanes[..]) == SquaredDistanceTo(lhs, rhs, base)
    modifies lanes
    ensures Sum(lanes[..]) == SquaredDistanceTo(lhs, rhs, base + lanes.Length)
  {
    for k := 0 to lanes.Length
      invariant Sum(lanes[..]) == SquaredDistanceTo(lhs, rhs, base + k)
    {
      var delta := lhs[base + k] - rhs[base + k];
      ghost var before := lanes[..];
      lanes[k] := lanes[k] + delta * delta;
      SumUpdate(before, k, delta * delta);
      assert lanes[..] == before[k := before[k] + delta * delta];
    }
  }

  /** The lane-split loop: `width` accumulators, a horizontal sum, then a scalar tail.
      The AVX-512 loop has eight lanes; the NEON loop has four, kept in two registers. */
  method SquaredDistanceLanes(lhs: seq<real>, rhs: seq<real>, width: nat) returns (sum: real)
    requires |lhs| == |rhs| && width > 0
    ensures sum == SquaredDistance(lhs, rhs)
  {
    var lanes := new real[width](_ => 0.0);
    SumOfZeros(lanes[..]);
    var i := 0;
    while i + width <= |lhs|
      invariant 0 <= i <= |lhs|
      invariant Sum(lanes[..]) == SquaredDistanceTo(lhs, rhs, i)
      decreases |lhs| - i
    {
      AccumulateBlock(lanes, lhs, rhs, i);
      i := i + width;
    }
    sum := 0.0;
    for k := 0 to width
      invariant sum == Sum(lanes[..k])
    {
      sum := sum + lanes[k];
      assert lanes[..k + 1][..k] == lanes[..k];
    }
    assert lanes[..width] == lanes[..];
    while i < |lhs|
      invariant 0 <= i <= |lhs|
      invariant sum == SquaredDistanceTo(lhs, rhs, i)
    {
      var delta := lhs[i] - rhs[i];
      sum := sum + delta * delta;
      i := i + 1;
    }
  }

  datatype Backend = Scalar | Avx512 | Neon

  /** Dispatch: whichever backend is active, the distance is the same. */
  method SquaredDistanceSimd(backend: Backend, lhs: seq<real>, rhs: seq<real>) returns (sum: real)
    requires |lhs| == |rhs|
    ensures sum == SquaredDistance(lhs, rhs)
  {
    match backend
    case Scalar => sum := SquaredDistanceScalar(lhs, rhs);
    case Avx512 => sum := SquaredDistanceLanes(lhs, rhs, 8);
    case Neon => sum := SquaredDistanceLanes(lhs, rhs, 4);
  }
}
