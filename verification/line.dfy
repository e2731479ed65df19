/**
 * Lines in the plane, n . x = k: line.py.
 * The normal is kept as the plain list the source keeps; vector arithmetic
 * on it goes through Vectors.Vector, as the source wraps it in Vector(...).
 */
module Lines {
  import opened Wrappers
  import opened Vectors

  /** Line.dimension: every line lives in the plane. */
  const PlaneDimension: nat := 2

  /** MyDecimal.is_near_zero with its default eps, 1/10^10. */
  function NearZero(x: real): (r: bool)
    ensures r <==> -Tolerance < x < Tolerance
  {
    Abs(x) < Tolerance
  }

  // ---------------------------------------------------------------------------
  // first_nonzero_index

  /** The index of the first item that is not near zero, or None when there is none. */
  function FirstNonzero(items: seq<real>): (r: Option<nat>)
    ensures r.Some? ==> r.value < |items| && !NearZero(items[r.value])
    ensures r.Some? ==> forall j :: 0 <= j < r.value ==> NearZero(items[j])
    ensures r.None? <==> forall j :: 0 <= j < |items| ==> NearZero(items[j])
  {
    if items == [] then None
    else if !NearZero(items[0]) then Some(0)
    else match FirstNonzero(items[1..])
      case None => None
      case Some(k) => Some(k + 1)
  }

  /** first_nonzero_index: an early-exit scan; running off the end raises 'No nonzero elements found'. */
  method FirstNonzeroIndex(items: seq<real>) returns (r: Result<nat>)
    ensures r.Ok? ==> r.value < |items| && !NearZero(items[r.value])
    ensures r.Ok? ==> forall j :: 0 <= j < r.value ==> NearZero(items[j])
    ensures r.Err? <==> forall j :: 0 <= j < |items| ==> NearZero(items[j])
    ensures r.Err? ==> r.error == NoNonzeroElements
    ensures r.Ok? ==> FirstNonzero(items) == Some(r.value)
  {
    var k := 0;
    while k < |items|
      invariant k <= |items|
      invariant forall j :: 0 <= j < k ==> NearZero(items[j])
    {
      if !NearZero(items[k]) {
        return Ok(k);
      }
      k := k + 1;
    }
    return Err(NoNonzeroElements);
  }

  // ---------------------------------------------------------------------------
  // set_basepoint

  /**
   * The basepoint of n . x = k: 0 everywhere except at the first index whose
   * coefficient is not near zero, where it is k divided by that coefficient.
   * None when every coefficient is near zero; an IndexError when that index
   * is past the two coordinates of the point.
   */
  function BasepointOf(normal: seq<real>, k: real): (r: Result<Option<Vector>>)
    ensures r == Ok(None) <==> forall j :: 0 <= j < |normal| ==> NearZero(normal[j])
    ensures r.Err? <==> (forall j :: 0 <= j < |normal| && j < PlaneDimension ==> NearZero(normal[j])) &&
                        (exists j :: PlaneDimension <= j < |normal| && !NearZero(normal[j]))
    ensures r.Err? ==> r.error == IndexOutOfRange
    ensures r.Ok? && r.value.Some? ==> r.value.value.Valid() && r.value.value.Dimension() == PlaneDimension
  {
    match FirstNonzero(normal)
    case None => Ok(None)
    case Some(i) =>
      if i >= PlaneDimension then Err(IndexOutOfRange)
      else Ok(Some(Vector([0.0, 0.0][i := k / normal[i]])))
  }

  /** set_basepoint: fills a list of zeros in place at the pivot index. */
  method SetBasepoint(normal: seq<real>, k: real) returns (r: Result<Option<Vector>>)
    ensures r == BasepointOf(normal, k)
  {
    var coords := [0.0, 0.0];
    var pivot := FirstNonzeroIndex(normal);
    if pivot.Err? {
      // the one exception set_basepoint swallows
      return Ok(None);
    }
    var i := pivot.value;
    if i >= |coords| {
      return Err(IndexOutOfRange);
    }
    coords := coords[i := k / normal[i]];
    return Ok(Some(Vector(coords)));
  }

  /** The basepoint lies on the line, and it is 0 off the pivot index. */
  lemma BasepointOnLine(normal: seq<real>, k: real)
    requires BasepointOf(normal, k).Ok? && BasepointOf(normal, k).value.Some?
    ensures var b := BasepointOf(normal, k).value.value;
      b.Valid() && b.Dimension() == PlaneDimension && Vector(normal).Product(b) == k
    ensures var b := BasepointOf(normal, k).value.value;
      forall j :: 0 <= j < PlaneDimension && b.coordinates[j] != 0.0 ==>
        j < |normal| && !NearZero(normal[j]) && forall m :: 0 <= m < j ==> NearZero(normal[m])
  {
    var i := FirstNonzero(normal).value;
    var b := BasepointOf(normal, k).value.value.coordinates;
    assert b == [0.0, 0.0][i := k / normal[i]];
    DotSumOnePlace(normal, i, k / normal[i]);
    assert normal[i] * (k / normal[i]) == k;
  }

  /** Against a pair that is zero but at index i, the dot product picks out normal[i]. */
  lemma DotSumOnePlace(normal: seq<real>, i: nat, x: real)
    requires i < |normal| && i < PlaneDimension
    ensures DotSum(normal, [0.0, 0.0][i := x]) == normal[i] * x
  {
    var b := [0.0, 0.0][i := x];
    assert DotSum(normal, b) == normal[0] * b[0] + DotSum(normal[1..], b[1..]);
    if |normal| == 1 {
      assert DotSum(normal[1..], b[1..]) == 0.0;
    } else {
      assert DotSum(normal[1..], b[1..]) == normal[1] * b[1] + DotSum(normal[1..][1..], b[1..][1..]);
      assert DotSum(normal[1..][1..], b[1..][1..]) == 0.0;
    }
  }

  // ---------------------------------------------------------------------------
  // Line

  datatype Line = Line(normal: seq<real>, constantTerm: real, basepoint: Option<Vector>)
  {
    /** What the constructor establishes: a non-empty normal and the basepoint set_basepoint derives. */
    predicate Valid()
    {
      normal != [] && BasepointOf(normal, constantTerm) == Ok(basepoint)
    }

    /** Vector(self.normal_vector), as __eq__ and isparallel build it. */
    function NormalVector(): Vector { Vector(normal) }

    /** p satisfies the line's equation normal . p == constant_term. */
    predicate Contains(p: Vector)
    {
      NormalVector().Product(p) == constantTerm
    }

    /** isparallel: the normals are parallel vectors; a line with a zero normal is parallel to every line. */
    function IsParallel(other: Line, flatAngle: (Vector, Vector) -> bool): (r: bool)
      ensures NormalVector().IsZero() || other.NormalVector().IsZero() ==> r
      ensures !NormalVector().IsZero() && !other.NormalVector().IsZero() ==>
                (r <==> flatAngle(NormalVector(), other.NormalVector()))
    {
      NormalVector().IsParallel(other.NormalVector(), flatAngle)
    }
  }

  /**
   * Line(normal_vector, constant_term), as intended: a missing or empty
   * normal becomes the zero normal [0, 0]; a missing (or zero) constant
   * term becomes 0; the basepoint is derived by set_basepoint.
   */
  function NewLine(normal: Option<seq<real>>, constantTerm: Option<real>): (r: Result<Line>)
    ensures r.Ok? ==> r.value.Valid()
    ensures r.Ok? ==> r.value.constantTerm == (if constantTerm.Some? then constantTerm.value else 0.0)
    ensures normal.None? || normal == Some([]) ==>
              r.Ok? && r.value.normal == [0.0, 0.0] && r.value.basepoint.None?
    ensures normal.Some? && normal.value != [] && r.Ok? ==> r.value.normal == normal.value
    ensures r.Err? ==> r.error == IndexOutOfRange && normal.Some? && |normal.value| > PlaneDimension
    ensures normal.Some? && normal.value != [] ==>
              (r.Ok? <==> BasepointOf(normal.value, if constantTerm.Some? then constantTerm.value else 0.0).Ok?)
  {
    var n := if normal.None? || normal.value == [] then [0.0, 0.0] else normal.value;
    var k := if constantTerm.None? then 0.0 else constantTerm.value;
    match BasepointOf(n, k)
    case Err(e) => Err(e)
    case Ok(bp) => Ok(Line(n, k, bp))
  }

  /**
   * Line(normal_vector, constant_term), as written: without a normal the
   * constructor builds Vector(['0', '0']) and then iterates over it, but
   * Vector defines no iteration, so a TypeError escapes.
   */
  function NewLineAsWritten(normal: Option<seq<real>>, constantTerm: Option<real>): (r: Result<Line>)
    ensures normal.None? || normal == Some([]) ==> r == Err(NotIterable)
    ensures !(normal.None? || normal == Some([])) ==> r == NewLine(normal, constantTerm)
  {
    if normal.None? || normal.value == [] then Err(NotIterable) else NewLine(normal, constantTerm)
  }

  /** A line whose normal satisfies iszero has no basepoint. */
  lemma ZeroNormalHasNoBasepoint(l: Line)
    requires l.Valid() && l.NormalVector().IsZero()
    ensures l.basepoint.None?
  {
  }

  /** The default line: the zero normal, constant 0, no basepoint. */
  lemma DefaultLine()
    ensures NewLine(None, None) == Ok(Line([0.0, 0.0], 0.0, None))
    ensures NewLine(None, None).value.NormalVector().IsZero()
  {
  }

  /** As written, there is no default line at all. */
  lemma DefaultLineAsWrittenFails(k: Option<real>)
    ensures NewLineAsWritten(None, k) == Err(NotIterable)
    ensures NewLine(None, k).Ok?
  {
  }

  // ---------------------------------------------------------------------------
  // __eq__

  /**
   * __eq__, as intended (the other normal wrapped in a Vector before its
   * iszero test). Parallel lines with a missing basepoint fail where
   * substract is called on None.
   */
  function Equals(l1: Line, l2: Line, flatAngle: (Vector, Vector) -> bool): (r: Result<bool>)
    requires l1.Valid() && l2.Valid()
    ensures l1.NormalVector().IsZero() ==>
              r == Ok(l2.NormalVector().IsZero() && NearZero(l1.constantTerm - l2.constantTerm))
    ensures !l1.NormalVector().IsZero() && l2.NormalVector().IsZero() ==> r == Ok(false)
    ensures !l1.IsParallel(l2, flatAngle) ==> r == Ok(false)
    ensures r.Err? ==> r.error == NoAttribute && l1.IsParallel(l2, flatAngle) &&
                       !l1.NormalVector().IsZero() && !l2.NormalVector().IsZero() &&
                       (l1.basepoint.None? || l2.basepoint.None?)
    ensures !l1.NormalVector().IsZero() && !l2.NormalVector().IsZero() && l1.IsParallel(l2, flatAngle) &&
            (l1.basepoint.None? || l2.basepoint.None?) ==>
              r == Err(NoAttribute)
    ensures !l1.NormalVector().IsZero() && !l2.NormalVector().IsZero() &&
            l1.IsParallel(l2, flatAngle) && l1.basepoint.Some? && l2.basepoint.Some? ==>
              r == Ok(l1.basepoint.value.Substract(l2.basepoint.value).IsOrthogonal(l1.NormalVector()))
  {
    var v1, v2 := l1.NormalVector(), l2.NormalVector();
    if v1.IsZero() then
      if !v2.IsZero() then Ok(false)
      else Ok(NearZero(l1.constantTerm - l2.constantTerm))
    else if v2.IsZero() then Ok(false)
    else if !l1.IsParallel(l2, flatAngle) then Ok(false)
    else if l1.basepoint.None? || l2.basepoint.None? then Err(NoAttribute)
    else Ok(l1.basepoint.value.Substract(l2.basepoint.value).IsOrthogonal(v1))
  }

  /** __eq__, as written: when self's normal is zero it calls iszero on a plain list. */
  function EqualsAsWritten(l1: Line, l2: Line, flatAngle: (Vector, Vector) -> bool): (r: Result<bool>)
    requires l1.Valid() && l2.Valid()
    ensures l1.NormalVector().IsZero() ==> r == Err(NoAttribute)
    ensures !l1.NormalVector().IsZero() ==> r == Equals(l1, l2, flatAngle)
  {
    if l1.NormalVector().IsZero() then Err(NoAttribute) else Equals(l1, l2, flatAngle)
  }

  /** As written, the default line cannot even be compared with itself. */
  lemma ZeroLineAsWrittenNotComparable(flatAngle: (Vector, Vector) -> bool)
    ensures var l := NewLine(None, None).value;
            EqualsAsWritten(l, l, flatAngle) == Err(NoAttribute) && Equals(l, l, flatAngle) == Ok(true)
  {
    DefaultLine();
  }

  /** Two lines with one normal are equal exactly when their constant terms are near each other. */
  lemma EqualsSameNormal(l1: Line, l2: Line, flatAngle: (Vector, Vector) -> bool)
    requires l1.Valid() && l2.Valid() && l1.normal == l2.normal
    requires l1.NormalVector().IsZero() || (l1.basepoint.Some? && l2.basepoint.Some?)
    requires l1.IsParallel(l2, flatAngle)
    ensures Equals(l1, l2, flatAngle) == Ok(NearZero(l1.constantTerm - l2.constantTerm))
  {
    var v := l1.NormalVector();
    if !v.IsZero() {
      var b1, b2 := l1.basepoint.value, l2.basepoint.value;
      BasepointOnLine(l1.normal, l1.constantTerm);
      BasepointOnLine(l2.normal, l2.constantTerm);
      ProductOfDifference(b1, b2, v);
    }
  }

  /** Every line that has a basepoint or a zero normal equals itself. */
  lemma EqualsReflexive(l: Line, flatAngle: (Vector, Vector) -> bool)
    requires l.Valid()
    requires l.NormalVector().IsZero() || l.basepoint.Some?
    requires l.IsParallel(l, flatAngle)
    ensures Equals(l, l, flatAngle) == Ok(true)
  {
    EqualsSameNormal(l, l, flatAngle);
  }

  /**
   * A normal whose coefficients are each below 1e-10 but whose magnitude is
   * not has no basepoint and yet is not zero, so __eq__ reaches substract
   * on None.
   */
  lemma EqualsFailsOnTinyNormal(flatAngle: (Vector, Vector) -> bool)
    requires flatAngle(Vector([0.00000000009, 0.00000000009]), Vector([0.00000000009, 0.00000000009]))
    ensures NewLine(Some([0.00000000009, 0.00000000009]), None).Ok?
    ensures var l := NewLine(Some([0.00000000009, 0.00000000009]), None).value;
            l.basepoint.None? && Equals(l, l, flatAngle) == Err(NoAttribute)
  {
    TinyVectorIsNotZero();
  }

  /** Equal lines are always parallel: the extra test in intersection never decides anything. */
  lemma EqualsImpliesParallel(l1: Line, l2: Line, flatAngle: (Vector, Vector) -> bool)
    requires l1.Valid() && l2.Valid()
    requires Equals(l1, l2, flatAngle) == Ok(true)
    ensures l1.IsParallel(l2, flatAngle)
  {
  }

  // ---------------------------------------------------------------------------
  // intersection

  /** a*d - b*c for the normals (a, b) and (c, d). */
  function Determinant(l1: Line, l2: Line): real
    requires |l1.normal| == PlaneDimension && |l2.normal| == PlaneDimension
  {
    l1.normal[0] * l2.normal[1] - l1.normal[1] * l2.normal[0]
  }

  /**
   * Cramer's rule for a x + b y = k1, c x + d y = k2, dividing in the
   * source's order: x first, so a zero determinant fails on x, with 0/0
   * undefined and anything else over 0 a division by zero.
   */
  function Cramer(a: real, b: real, c: real, d: real, k1: real, k2: real): (r: Result<Vector>)
    ensures r.Ok? <==> a * d - b * c != 0.0
    ensures r.Err? ==> r.error in {DivisionByZero, DivisionUndefined}
    ensures r.Err? ==> (r.error == DivisionUndefined <==> d * k1 - b * k2 == 0.0)
    ensures r.Ok? ==> r.value.Valid() && r.value.Dimension() == PlaneDimension
  {
    var denominator := a * d - b * c;
    var xNumerator := d * k1 - b * k2;
    var yNumerator := -c * k1 + a * k2;
    if denominator == 0.0 then
      Err(if xNumerator == 0.0 then DivisionUndefined else DivisionByZero)
    else
      Ok(Vector([xNumerator / denominator, yNumerator / denominator]))
  }

  /** Cramer's solution satisfies both equations. */
  lemma CramerSolves(a: real, b: real, c: real, d: real, k1: real, k2: real)
    requires Cramer(a, b, c, d, k1, k2).Ok?
    ensures var p := Cramer(a, b, c, d, k1, k2).value.coordinates;
            a * p[0] + b * p[1] == k1 && c * p[0] + d * p[1] == k2
  {
    var det := a * d - b * c;
    var xn, yn := d * k1 - b * k2, -c * k1 + a * k2;
    assert a * xn + b * yn == k1 * det;
    assert c * xn + d * yn == k2 * det;
    assert a * (xn / det) + b * (yn / det) == (a * xn + b * yn) / det;
    assert c * (xn / det) + d * (yn / det) == (c * xn + d * yn) / det;
  }

  /** Any solution of both equations is Cramer's. */
  lemma CramerUnique(a: real, b: real, c: real, d: real, k1: real, k2: real, x: real, y: real)
    requires Cramer(a, b, c, d, k1, k2).Ok?
    requires a * x + b * y == k1 && c * x + d * y == k2
    ensures Cramer(a, b, c, d, k1, k2).value.coordinates == [x, y]
  {
    var det := a * d - b * c;
    assert x * det == d * (a * x + b * y) - b * (c * x + d * y);
    assert y * det == a * (c * x + d * y) - c * (a * x + b * y);
    assert x == (d * k1 - b * k2) / det;
    assert y == (-c * k1 + a * k2) / det;
  }

  /**
   * intersection: None for equal (and parallel) lines; otherwise the two
   * normals are unpacked into (a, b) and (c, d) and the system is solved by
   * Cramer's rule.
   */
  function Intersection(l1: Line, l2: Line, flatAngle: (Vector, Vector) -> bool): (r: Result<Option<Vector>>)
    requires l1.Valid() && l2.Valid()
    ensures r == Ok(None) <==> Equals(l1, l2, flatAngle) == Ok(true)
    ensures Equals(l1, l2, flatAngle).Err? ==> r == Err(Equals(l1, l2, flatAngle).error)
    ensures r.Ok? && r.value.Some? ==>
              |l1.normal| == PlaneDimension && |l2.normal| == PlaneDimension && Determinant(l1, l2) != 0.0 &&
              r.value.value.Valid() && r.value.value.Dimension() == PlaneDimension
    ensures r.Err? ==>
              Equals(l1, l2, flatAngle).Err? ||
              (r.error == UnpackMismatch && (|l1.normal| != PlaneDimension || |l2.normal| != PlaneDimension)) ||
              (r.error in {DivisionByZero, DivisionUndefined} &&
               |l1.normal| == PlaneDimension && |l2.normal| == PlaneDimension && Determinant(l1, l2) == 0.0)
  {
    match Equals(l1, l2, flatAngle)
    case Err(e) => Err(e)
    case Ok(equal) =>
      if equal && l1.IsParallel(l2, flatAngle) then Ok(None)
      else if |l1.normal| != PlaneDimension || |l2.normal| != PlaneDimension then Err(UnpackMismatch)
      else
        match Cramer(l1.normal[0], l1.normal[1], l2.normal[0], l2.normal[1], l1.constantTerm, l2.constantTerm)
        case Err(e) => Err(e)
        case Ok(p) => Ok(Some(p))
  }

  /**
   * intersection, as written: it starts with self.__eq__(ell), so it inherits
   * the AttributeError that __eq__ raises when self's normal is zero.
   */
  function IntersectionAsWritten(l1: Line, l2: Line, flatAngle: (Vector, Vector) -> bool): (r: Result<Option<Vector>>)
    requires l1.Valid() && l2.Valid()
    ensures l1.NormalVector().IsZero() ==> r == Err(NoAttribute)
    ensures !l1.NormalVector().IsZero() ==> r == Intersection(l1, l2, flatAngle)
  {
    match EqualsAsWritten(l1, l2, flatAngle)
    case Err(e) => Err(e)
    case Ok(_) => Intersection(l1, l2, flatAngle)
  }

  /** As written, the default line cannot be intersected even with itself, which intersects it in None. */
  lemma ZeroLineAsWrittenNoIntersection(flatAngle: (Vector, Vector) -> bool)
    ensures var l := NewLine(None, None).value;
            IntersectionAsWritten(l, l, flatAngle) == Err(NoAttribute) && Intersection(l, l, flatAngle) == Ok(None)
  {
    DefaultLine();
  }

  lemma DotSum2(a: seq<real>, b: seq<real>)
    requires |a| == 2 && |b| == 2
    ensures DotSum(a, b) == a[0] * b[0] + a[1] * b[1]
  {
    assert DotSum(a[1..], b[1..]) == a[1] * b[1] + DotSum(a[1..][1..], b[1..][1..]);
    assert DotSum(a[1..][1..], b[1..][1..]) == 0.0;
  }

  /** In the plane, containment is the equation a x + b y == k. */
  lemma ContainsAsEquation(l: Line, p: Vector)
    requires |l.normal| == PlaneDimension && p.Dimension() == PlaneDimension
    ensures l.Contains(p) <==> l.normal[0] * p.coordinates[0] + l.normal[1] * p.coordinates[1] == l.constantTerm
  {
    DotSum2(l.normal, p.coordinates);
  }

  /** The point intersection returns satisfies both line equations. */
  lemma IntersectionOnBothLines(l1: Line, l2: Line, flatAngle: (Vector, Vector) -> bool)
    requires l1.Valid() && l2.Valid()
    requires Intersection(l1, l2, flatAngle).Ok? && Intersection(l1, l2, flatAngle).value.Some?
    ensures l1.Contains(Intersection(l1, l2, flatAngle).value.value)
    ensures l2.Contains(Intersection(l1, l2, flatAngle).value.value)
  {
    IntersectionIsCramer(l1, l2, flatAngle);
    CramerOnBothLines(l1, l2);
  }

  lemma IntersectionIsCramer(l1: Line, l2: Line, flatAngle: (Vector, Vector) -> bool)
    requires l1.Valid() && l2.Valid()
    requires Intersection(l1, l2, flatAngle).Ok? && Intersection(l1, l2, flatAngle).value.Some?
    ensures Cramer(l1.normal[0], l1.normal[1], l2.normal[0], l2.normal[1], l1.constantTerm, l2.constantTerm)
            == Ok(Intersection(l1, l2, flatAngle).value.value)
  {
  }

  /** Cramer's solution for two planar lines lies on both of them. */
  lemma CramerOnBothLines(l1: Line, l2: Line)
    requires |l1.normal| == PlaneDimension && |l2.normal| == PlaneDimension
    requires Cramer(l1.normal[0], l1.normal[1], l2.normal[0], l2.normal[1], l1.constantTerm, l2.constantTerm).Ok?
    ensures var p := Cramer(l1.normal[0], l1.normal[1], l2.normal[0], l2.normal[1], l1.constantTerm, l2.constantTerm).value;
            l1.Contains(p) && l2.Contains(p)
  {
    var p := Cramer(l1.normal[0], l1.normal[1], l2.normal[0], l2.normal[1], l1.constantTerm, l2.constantTerm).value;
    CramerSolves(l1.normal[0], l1.normal[1], l2.normal[0], l2.normal[1], l1.constantTerm, l2.constantTerm);
    ContainsAsEquation(l1, p);
    ContainsAsEquation(l2, p);
  }

  /** A point on two planar lines with a non-zero determinant is their Cramer solution. */
  lemma CommonPointIsCramer(l1: Line, l2: Line, q: Vector)
    requires |l1.normal| == PlaneDimension && |l2.normal| == PlaneDimension && q.Dimension() == PlaneDimension
    requires Cramer(l1.normal[0], l1.normal[1], l2.normal[0], l2.normal[1], l1.constantTerm, l2.constantTerm).Ok?
    requires l1.Contains(q) && l2.Contains(q)
    ensures Cramer(l1.normal[0], l1.normal[1], l2.normal[0], l2.normal[1], l1.constantTerm, l2.constantTerm).value == q
  {
    ContainsAsEquation(l1, q);
    ContainsAsEquation(l2, q);
    CramerUnique(l1.normal[0], l1.normal[1], l2.normal[0], l2.normal[1], l1.constantTerm, l2.constantTerm,
                 q.coordinates[0], q.coordinates[1]);
    assert q.coordinates == [q.coordinates[0], q.coordinates[1]];
  }

  /** The point intersection returns is the only point on both lines. */
  lemma IntersectionUnique(l1: Line, l2: Line, flatAngle: (Vector, Vector) -> bool, q: Vector)
    requires l1.Valid() && l2.Valid()
    requires Intersection(l1, l2, flatAngle).Ok? && Intersection(l1, l2, flatAngle).value.Some?
    requires q.Dimension() == PlaneDimension && l1.Contains(q) && l2.Contains(q)
    ensures q == Intersection(l1, l2, flatAngle).value.value
  {
    IntersectionIsCramer(l1, l2, flatAngle);
    CommonPointIsCramer(l1, l2, q);
  }

  /** Parallel lines that are not equal reach the division by a zero determinant. */
  lemma IntersectionParallelDistinctFails(l1: Line, l2: Line, flatAngle: (Vector, Vector) -> bool)
    requires l1.Valid() && l2.Valid()
    requires |l1.normal| == PlaneDimension && |l2.normal| == PlaneDimension && Determinant(l1, l2) == 0.0
    requires Equals(l1, l2, flatAngle) == Ok(false)
    ensures Intersection(l1, l2, flatAngle).Err?
    ensures Intersection(l1, l2, flatAngle).error in {DivisionByZero, DivisionUndefined}
  {
  }

  // ---------------------------------------------------------------------------
  // Worked examples

  /** 4.046 x + 2.836 y = 1.21 and 10.115 x + 7.09 y = 3.025 are one line scaled by 2.5. */
  lemma ScaledLinesAreEqual(flatAngle: (Vector, Vector) -> bool)
    requires flatAngle(Vector([4.046, 2.836]), Vector([10.115, 7.09]))
    ensures NewLine(Some([4.046, 2.836]), Some(1.21)).Ok?
    ensures NewLine(Some([10.115, 7.09]), Some(3.025)).Ok?
    ensures var l1, l2 := NewLine(Some([4.046, 2.836]), Some(1.21)).value,
                          NewLine(Some([10.115, 7.09]), Some(3.025)).value;
            Equals(l1, l2, flatAngle) == Ok(true) && Intersection(l1, l2, flatAngle) == Ok(None)
  {
    assert FirstNonzero([4.046, 2.836]) == Some(0);
    assert FirstNonzero([10.115, 7.09]) == Some(0);
    assert [0.0, 0.0][0 := 1.21 / 4.046] == [1.21 / 4.046, 0.0];
    assert [0.0, 0.0][0 := 3.025 / 10.115] == [3.025 / 10.115, 0.0];
    var l1 := NewLine(Some([4.046, 2.836]), Some(1.21)).value;
    var l2 := NewLine(Some([10.115, 7.09]), Some(3.025)).value;
    assert l1.basepoint == Some(Vector([1.21 / 4.046, 0.0]));
    assert l2.basepoint == Some(Vector([3.025 / 10.115, 0.0]));
    assert 3.025 / 10.115 == 1.21 / 4.046;
    DotSum2(l1.normal, l1.normal);
    DotSum2(l2.normal, l2.normal);
    SubstractSelfIsZero(l1.basepoint.value);
    var diff := l1.basepoint.value.Substract(l2.basepoint.value);
    DotSumOfZeros(diff.coordinates, l1.normal);
  }

  /** 7.204 x + 3.182 y = 8.68 and 8.172 x + 4.114 y = 9.883 meet at one point, near (1.173, 0.073). */
  lemma CrossingLinesIntersect(flatAngle: (Vector, Vector) -> bool)
    ensures NewLine(Some([7.204, 3.182]), Some(8.68)).Ok?
    ensures NewLine(Some([8.172, 4.114]), Some(9.883)).Ok?
    ensures var l1, l2 := NewLine(Some([7.204, 3.182]), Some(8.68)).value,
                          NewLine(Some([8.172, 4.114]), Some(9.883)).value;
            Equals(l1, l2, flatAngle) == Ok(false) &&
            Intersection(l1, l2, flatAngle) == Ok(Some(Vector([4.261814 / 3.633952, 0.264172 / 3.633952])))
  {
    assert FirstNonzero([7.204, 3.182]) == Some(0);
    assert FirstNonzero([8.172, 4.114]) == Some(0);
    assert [0.0, 0.0][0 := 8.68 / 7.204] == [8.68 / 7.204, 0.0];
    assert [0.0, 0.0][0 := 9.883 / 8.172] == [9.883 / 8.172, 0.0];
    var l1 := NewLine(Some([7.204, 3.182]), Some(8.68)).value;
    var l2 := NewLine(Some([8.172, 4.114]), Some(9.883)).value;
    assert l1.basepoint == Some(Vector([8.68 / 7.204, 0.0]));
    assert l2.basepoint == Some(Vector([9.883 / 8.172, 0.0]));
    DotSum2(l1.normal, l1.normal);
    DotSum2(l2.normal, l2.normal);
    var diff := l1.basepoint.value.Substract(l2.basepoint.value);
    assert diff.coordinates == [8.68 / 7.204 - 9.883 / 8.172, 0.0];
    DotSum2(diff.coordinates, l1.normal);
    assert !l1.NormalVector().IsZero() && !l2.NormalVector().IsZero();
    assert Equals(l1, l2, flatAngle) == Ok(false);
    assert Cramer(7.204, 3.182, 8.172, 4.114, 8.68, 9.883) == Ok(Vector([4.261814 / 3.633952, 0.264172 / 3.633952]));
  }
}
