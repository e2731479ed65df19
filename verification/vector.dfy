/**
 * Vectors of exact reals: the arithmetic part of vector.py.
 * Coordinates are Python Decimals in the source; here they are exact reals.
 */
module Vectors {
  import opened Wrappers

  /** Vector.TOLERANCE, taken as the exact rational 1/10^10. */
  const Tolerance: real := 0.0000000001

  function Abs(x: real): real { if x < 0.0 then -x else x }

  function Min(a: nat, b: nat): nat { if a <= b then a else b }

  /** zip(a, b) with each pair summed: stops at the end of the shorter input. */
  function ZipSum(a: seq<real>, b: seq<real>): (r: seq<real>)
    ensures |r| == Min(|a|, |b|)
    ensures forall i :: 0 <= i < |r| ==> r[i] == a[i] + b[i]
  {
    if a == [] || b == [] then [] else [a[0] + b[0]] + ZipSum(a[1..], b[1..])
  }

  /** zip(a, b) with each pair subtracted: stops at the end of the shorter input. */
  function ZipDifference(a: seq<real>, b: seq<real>): (r: seq<real>)
    ensures |r| == Min(|a|, |b|)
    ensures forall i :: 0 <= i < |r| ==> r[i] == a[i] - b[i]
  {
    if a == [] || b == [] then [] else [a[0] - b[0]] + ZipDifference(a[1..], b[1..])
  }

  /**
   * sum of the pairwise products of zip(a, b). The recursion adds from the
   * right; over exact reals addition is associative, so this is the same
   * number as Python's left-to-right sum.
   */
  function DotSum(a: seq<real>, b: seq<real>): real
  {
    if a == [] || b == [] then 0.0 else a[0] * b[0] + DotSum(a[1..], b[1..])
  }

  /** The Vector constructor given a list: an empty list is a ValueError. */
  function NewVector(coordinates: seq<real>): (r: Result<Vector>)
    ensures r.Err? <==> coordinates == []
    ensures r.Err? ==> r.error == EmptyCoordinates
    ensures r.Ok? ==> r.value.Valid() && r.value.Dimension() == |coordinates|
    ensures r.Ok? ==> forall i :: 0 <= i < |coordinates| ==> r.value.coordinates[i] == coordinates[i]
  {
    if coordinates == [] then Err(EmptyCoordinates) else Ok(Vector(coordinates))
  }

  datatype Vector = Vector(coordinates: seq<real>)
  {
    /** Every vector the constructor accepts has at least one coordinate. */
    predicate Valid() { coordinates != [] }

    function Dimension(): nat { |coordinates| }

    /** __eq__: exact comparison of the coordinate tuples. */
    function Equals(other: Vector): (r: bool)
      ensures r <==> Dimension() == other.Dimension() &&
                     forall i :: 0 <= i < Dimension() ==> coordinates[i] == other.coordinates[i]
    {
      coordinates == other.coordinates
    }

    /** add, as intended: the element-wise sum over zip of the two coordinate tuples. */
    function Add(other: Vector): (r: Vector)
      requires Valid() && other.Valid()
      ensures r.Valid() && r.Dimension() == Min(Dimension(), other.Dimension())
      ensures forall i :: 0 <= i < r.Dimension() ==> r.coordinates[i] == coordinates[i] + other.coordinates[i]
    {
      Vector(ZipSum(coordinates, other.coordinates))
    }

    /**
     * add, as written: the constructor is handed a lazy map object, which is
     * truthy and can be iterated but has no len(), so the constructor's
     * TypeError handler always fires.
     */
    function AddAsWritten(other: Vector): (r: Result<Vector>)
      requires Valid() && other.Valid()
      ensures r.Err? && r.error == NotIterable
    {
      Err(NotIterable)
    }

    /** substract: the element-wise difference over zip of the two coordinate tuples. */
    function Substract(other: Vector): (r: Vector)
      requires Valid() && other.Valid()
      ensures r.Valid() && r.Dimension() == Min(Dimension(), other.Dimension())
      ensures forall i :: 0 <= i < r.Dimension() ==> r.coordinates[i] == coordinates[i] - other.coordinates[i]
    {
      Vector(ZipDifference(coordinates, other.coordinates))
    }

    /** times_scalar: every coordinate multiplied by the factor. */
    function TimesScalar(factor: real): (r: Vector)
      requires Valid()
      ensures r.Valid() && r.Dimension() == Dimension()
      ensures forall i :: 0 <= i < r.Dimension() ==> r.coordinates[i] == coordinates[i] * factor
    {
      Vector(seq(|coordinates|, i requires 0 <= i < |coordinates| => coordinates[i] * factor))
    }

    /**
     * product: the dot product over zip of the two coordinate tuples. It is
     * symmetric, and the product of a vector with itself is never negative.
     */
    function Product(other: Vector): (r: real)
      ensures r == DotSum(other.coordinates, coordinates)
      ensures other == this ==> r >= 0.0
    {
      DotSumSymmetric(coordinates, other.coordinates);
      SumOfSquaresNonnegative(coordinates);
      DotSum(coordinates, other.coordinates)
    }

    /**
     * iszero: the magnitude sqrt(sum of squares) is below the tolerance,
     * which over the reals is the sum of squares being below its square.
     * Every coordinate of such a vector is within the tolerance of zero, and
     * a vector of exact zeros is such a vector.
     */
    function IsZero(): (r: bool)
      ensures r ==> forall i :: 0 <= i < Dimension() ==> Abs(coordinates[i]) < Tolerance
      ensures (forall i :: 0 <= i < Dimension() ==> coordinates[i] == 0.0) ==> r
    {
      SumOfSquaresTest(coordinates);
      Product(this) < Tolerance * Tolerance
    }

    /**
     * isparallel: true when either vector is zero; otherwise the decision
     * rests on the angle between them, which the source computes in floating
     * point with acos and which is a parameter here.
     */
    function IsParallel(other: Vector, flatAngle: (Vector, Vector) -> bool): (r: bool)
      ensures IsZero() || other.IsZero() ==> r
      ensures !IsZero() && !other.IsZero() ==> (r <==> flatAngle(this, other))
    {
      IsZero() || other.IsZero() || flatAngle(this, other)
    }

    /** isorthogonal: the dot product is within the tolerance of zero, in either order. */
    function IsOrthogonal(other: Vector): (r: bool)
      ensures r <==> -Tolerance < Product(other) < Tolerance
      ensures r <==> -Tolerance < other.Product(this) < Tolerance
    {
      Abs(Product(other)) < Tolerance
    }

    /** cross_product: unpacking each tuple into three names fails for any other length. */
    function CrossProduct(other: Vector): (r: Result<Vector>)
      ensures r.Ok? <==> Dimension() == 3 && other.Dimension() == 3
      ensures r.Err? ==> r.error == UnpackMismatch
      ensures r.Ok? ==> r.value.Valid() && r.value.Dimension() == 3
    {
      if Dimension() != 3 || other.Dimension() != 3 then Err(UnpackMismatch)
      else
        var x1, y1, z1 := coordinates[0], coordinates[1], coordinates[2];
        var x2, y2, z2 := other.coordinates[0], other.coordinates[1], other.coordinates[2];
        Ok(Vector([y1 * z2 - y2 * z1, -(x1 * z2 - x2 * z1), x1 * y2 - x2 * y1]))
    }
  }

  // ---------------------------------------------------------------------------
  // The dot product over zip

  lemma {:induction false} DotSumSymmetric(a: seq<real>, b: seq<real>)
    ensures DotSum(a, b) == DotSum(b, a)
  {
    if a != [] && b != [] {
      DotSumSymmetric(a[1..], b[1..]);
    }
  }

  /** Only the first min(|a|, |b|) coordinates take part in the dot product. */
  lemma {:induction false} DotSumTruncates(a: seq<real>, b: seq<real>)
    ensures DotSum(a, b) == DotSum(a[..Min(|a|, |b|)], b[..Min(|a|, |b|)])
  {
    var n := Min(|a|, |b|);
    if a != [] && b != [] {
      DotSumTruncates(a[1..], b[1..]);
      assert a[..n][1..] == a[1..][..n - 1];
      assert b[..n][1..] == b[1..][..n - 1];
    }
  }

  lemma {:induction false} DotSumOfDifference(a: seq<real>, b: seq<real>, c: seq<real>)
    requires |a| == |b|
    ensures DotSum(ZipDifference(a, b), c) == DotSum(a, c) - DotSum(b, c)
  {
    if a != [] && c != [] {
      var d := ZipDifference(a, b);
      assert d[1..] == ZipDifference(a[1..], b[1..]);
      DotSumOfDifference(a[1..], b[1..], c[1..]);
    }
  }

  lemma {:induction false} DotSumOfZeros(a: seq<real>, b: seq<real>)
    requires forall i :: 0 <= i < |a| ==> a[i] == 0.0
    ensures DotSum(a, b) == 0.0
  {
    if a != [] && b != [] {
      DotSumOfZeros(a[1..], b[1..]);
    }
  }

  lemma {:induction false} SumOfSquaresBoundsEachSquare(a: seq<real>, i: nat)
    requires i < |a|
    ensures 0.0 <= a[i] * a[i] <= DotSum(a, a)
  {
    var head, rest := a[0] * a[0], DotSum(a[1..], a[1..]);
    SumOfSquaresNonnegative(a[1..]);
    assert rest >= 0.0 && DotSum(a, a) == head + rest;
    assert head >= 0.0;
    if i > 0 {
      SumOfSquaresBoundsEachSquare(a[1..], i - 1);
      assert a[1..][i - 1] == a[i];
      assert a[i] * a[i] <= rest;
    }
  }

  /** A sum of squares is never negative, so the magnitude's square root is defined. */
  lemma {:induction false} SumOfSquaresNonnegative(a: seq<real>)
    ensures DotSum(a, a) >= 0.0
  {
    if a != [] {
      SumOfSquaresNonnegative(a[1..]);
      assert a[0] * a[0] >= 0.0;
    }
  }

  /** The sum-of-squares test bounds every coordinate, and exact zeros pass it. */
  lemma SumOfSquaresTest(a: seq<real>)
    ensures DotSum(a, a) < Tolerance * Tolerance ==> forall i :: 0 <= i < |a| ==> Abs(a[i]) < Tolerance
    ensures (forall i :: 0 <= i < |a| ==> a[i] == 0.0) ==> DotSum(a, a) < Tolerance * Tolerance
  {
    if DotSum(a, a) < Tolerance * Tolerance {
      forall i | 0 <= i < |a|
        ensures Abs(a[i]) < Tolerance
      {
        SumOfSquaresBoundsEachSquare(a, i);
      }
    }
    if forall i :: 0 <= i < |a| ==> a[i] == 0.0 {
      DotSumOfZeros(a, a);
    }
  }

  lemma DotSum3(a: seq<real>, b: seq<real>)
    requires |a| == 3 && |b| == 3
    ensures DotSum(a, b) == a[0] * b[0] + a[1] * b[1] + a[2] * b[2]
  {
    assert DotSum(a[1..], b[1..]) == a[1] * b[1] + DotSum(a[1..][1..], b[1..][1..]);
    assert DotSum(a[1..][1..], b[1..][1..]) == a[2] * b[2] + DotSum(a[1..][1..][1..], b[1..][1..][1..]);
    assert DotSum(a[1..][1..][1..], b[1..][1..][1..]) == 0.0;
  }

  // ---------------------------------------------------------------------------
  // Properties of the vector operations

  /** With equal dimensions, substracting what was added gives the vector back. */
  lemma AddThenSubstract(v: Vector, w: Vector)
    requires v.Valid() && w.Valid() && v.Dimension() == w.Dimension()
    ensures v.Add(w).Substract(w) == v
  {
    var r := v.Add(w).Substract(w);
    assert r.coordinates == v.coordinates;
  }

  /** A vector minus itself is the zero vector of the same dimension, and iszero holds of it. */
  lemma SubstractSelfIsZero(v: Vector)
    requires v.Valid()
    ensures v.Substract(v).Dimension() == v.Dimension()
    ensures forall i :: 0 <= i < v.Dimension() ==> v.Substract(v).coordinates[i] == 0.0
    ensures v.Substract(v).IsZero()
  {
    var z := v.Substract(v);
    DotSumOfZeros(z.coordinates, z.coordinates);
  }

  lemma TimesScalarByOne(v: Vector)
    requires v.Valid()
    ensures v.TimesScalar(1.0) == v
  {
    assert v.TimesScalar(1.0).coordinates == v.coordinates;
  }

  /** The dot product distributes over substract (in its first argument). */
  lemma ProductOfDifference(u: Vector, v: Vector, w: Vector)
    requires u.Valid() && v.Valid() && u.Dimension() == v.Dimension()
    ensures u.Substract(v).Product(w) == u.Product(w) - v.Product(w)
  {
    DotSumOfDifference(u.coordinates, v.coordinates, w.coordinates);
  }

  /** iszero is stricter than "every coordinate within the tolerance". */
  lemma TinyVectorIsNotZero()
    ensures var v := Vector([0.00000000009, 0.00000000009]);
            (forall i :: 0 <= i < v.Dimension() ==> Abs(v.coordinates[i]) < Tolerance) && !v.IsZero()
  {
    var v := Vector([0.00000000009, 0.00000000009]);
    assert DotSum(v.coordinates[1..][1..], v.coordinates[1..][1..]) == 0.0;
  }

  /** The cross product is orthogonal, exactly, to both operands. */
  lemma CrossProductOrthogonal(v: Vector, w: Vector)
    requires v.Dimension() == 3 && w.Dimension() == 3
    ensures v.CrossProduct(w).value.Product(v) == 0.0
    ensures v.CrossProduct(w).value.Product(w) == 0.0
  {
    var c := v.CrossProduct(w).value;
    DotSum3(c.coordinates, v.coordinates);
    DotSum3(c.coordinates, w.coordinates);
  }

  /** The polynomial identity behind the length of the cross product, over plain reals. */
  lemma LagrangeIdentity(x1: real, y1: real, z1: real, x2: real, y2: real, z2: real,
                         cc: real, vv: real, ww: real, vw: real)
    requires cc == (y1 * z2 - y2 * z1) * (y1 * z2 - y2 * z1)
                 + -(x1 * z2 - x2 * z1) * -(x1 * z2 - x2 * z1)
                 + (x1 * y2 - x2 * y1) * (x1 * y2 - x2 * y1)
    requires vv == x1 * x1 + y1 * y1 + z1 * z1
    requires ww == x2 * x2 + y2 * y2 + z2 * z2
    requires vw == x1 * x2 + y1 * y2 + z1 * z2
    ensures cc == vv * ww - vw * vw
  {
  }

  /**
   * Lagrange's identity: |v x w|^2 == |v|^2 |w|^2 - (v . w)^2, which with
   * orthogonality pins the cross product down up to its sign.
   */
  lemma CrossProductLagrange(v: Vector, w: Vector)
    requires v.Dimension() == 3 && w.Dimension() == 3
    ensures var c := v.CrossProduct(w).value;
            c.Product(c) == v.Product(v) * w.Product(w) - v.Product(w) * v.Product(w)
  {
    var c := v.CrossProduct(w).value;
    var x1, y1, z1 := v.coordinates[0], v.coordinates[1], v.coordinates[2];
    var x2, y2, z2 := w.coordinates[0], w.coordinates[1], w.coordinates[2];
    assert c.coordinates[0] == y1 * z2 - y2 * z1;
    assert c.coordinates[1] == -(x1 * z2 - x2 * z1);
    assert c.coordinates[2] == x1 * y2 - x2 * y1;
    DotSum3(c.coordinates, c.coordinates);
    DotSum3(v.coordinates, v.coordinates);
    DotSum3(w.coordinates, w.coordinates);
    DotSum3(v.coordinates, w.coordinates);
    LagrangeIdentity(x1, y1, z1, x2, y2, z2, c.Product(c), v.Product(v), w.Product(w), v.Product(w));
  }

  /** w x v is v x w scaled by -1. */
  lemma CrossProductAnticommutative(v: Vector, w: Vector)
    requires v.Dimension() == 3 && w.Dimension() == 3
    ensures w.CrossProduct(v) == Ok(v.CrossProduct(w).value.TimesScalar(-1.0))
  {
    var c := v.CrossProduct(w).value;
    assert w.CrossProduct(v).value.coordinates == c.TimesScalar(-1.0).coordinates;
  }

  lemma CrossProductExample()
    ensures Vector([1.0, 2.0, 3.0]).CrossProduct(Vector([4.0, 5.0, 6.0])) == Ok(Vector([-3.0, 6.0, -3.0]))
  {
  }
}
