# Exact vector and line algebra

A Dafny model of the arithmetic core of a small linear-algebra library:

- `Vector`: a non-empty tuple of numbers. It supports exact equality, element-wise `add`, `substract` and `times_scalar`, the dot product `product`, the tolerance tests `iszero`, `isorthogonal` and `isparallel`, and the 3D `cross_product`.
- `Line`: a line `n · x = k` in the plane. Construction derives a *basepoint* on the line from the first coefficient of the normal that is not near zero. Lines support a tolerance-based `__eq__` and `intersection` by Cramer's rule.

The library computes with 30-digit `Decimal`s. The model uses exact `real`s. The near-zero tolerance `1e-10` is the exact rational 1/10^10.

Modules:

- `wrappers.dfy`, module `Wrappers`: `Option`, `Result`, and `Error`, which has one constructor for each way the code can fail on the inputs the model covers, named after its cause.
- `vector.dfy`, module `Vectors`: `Vector` is a datatype. Its operations are functions, proved by lemmas.
  - `Add` and `Substract` are built on recursive `zip` helpers. So, like the source, they stop at the shorter vector when the dimensions differ.
  - The dot product is `DotSum`, the sum of the pairwise products over `zip`. It recurses from the right; over exact reals addition is associative, so it equals Python's left-to-right `sum`.
  - `iszero` is `sqrt(Σ c²) < 1e-10`, stated exactly as `Σ c² < 1e-20`.
  - `isparallel` keeps its exact part: either vector being zero makes the pair parallel. The floating-point `acos` angle test becomes the function parameter `flatAngle`.
- `line.py`'s model is in `line.dfy`, module `Lines`. `Line` is a datatype that holds the normal as the plain list the source keeps, the constant term and the basepoint.
  - Its constructor is the function `NewLine`.
  - `first_nonzero_index` is an early-exit loop (`FirstNonzeroIndex`), proved against the recursive specification `FirstNonzero`.
  - `set_basepoint` is a method that updates a local list of zeros (`SetBasepoint`), proved equal to the function `BasepointOf`. `NewLine` uses that function.
  - `__eq__` is `Equals` and `intersection` is `Intersection`. Both take the abstract angle test `flatAngle`.

Behaviour a reader might not expect, modelled as the code has it:

- `add` and `substract` truncate on a dimension mismatch; they do not reject it.
- `first_nonzero_index` accepts a coefficient whose magnitude is *at least* 1e-10.
- `intersection` returns `None` for equal lines. For parallel, distinct lines it fails in the division; there is no separate "no intersection" outcome.

Other behaviour modelled as the code has it:

- A normal whose coefficients are each below 1e-10 but whose magnitude is not has no basepoint. Its line still fails `iszero`, so when the other line's normal is not zero and the angle test calls the two normals parallel, `__eq__` calls `substract` on `None` and fails with an AttributeError (`EqualsFailsOnTinyNormal`). Against a zero normal or a non-parallel line it returns False.
- Only the first two coordinates of the basepoint exist. A longer normal whose first two coefficients are near zero, and some later coefficient is not, therefore makes construction fail with an IndexError.
- `intersection` unpacks each normal into two names, which fails for any other length.

## Model

| member | source | states |
|---|---|---|
| `Vectors.NewVector` | vector.py:10-18 | an empty coordinate list is the "nonempty" ValueError and nothing else is; otherwise the vector has as many coordinates as given, in order |
| `Vectors.Vector.Equals` | vector.py:27-28 | equality holds iff the dimensions agree and every coordinate is equal |
| `Vectors.ZipSum` | vector.py:30-31 | zip-then-sum has the length of the shorter input and holds the pairwise sums |
| `Vectors.ZipDifference` | vector.py:33-35 | zip-then-subtract has the length of the shorter input and holds the pairwise differences |
| `Vectors.Vector.Add` | vector.py:30-31 | (intended) the sum is a vector of dimension min(dim v, dim w) whose i-th coordinate is v_i + w_i |
| `Vectors.Vector.AddAsWritten` | vector.py:30-31 | (as written) add always fails with the constructor's TypeError |
| `Vectors.Vector.Substract` | vector.py:33-35 | the difference is a vector of dimension min(dim v, dim w) whose i-th coordinate is v_i − w_i |
| `Vectors.Vector.TimesScalar` | vector.py:37-39 | scaling keeps the dimension and multiplies every coordinate by the factor |
| `Vectors.AddThenSubstract` | vector.py:30-35 | for equal dimensions, v.add(w).substract(w) == v |
| `Vectors.SubstractSelfIsZero` | vector.py:33-35 | v.substract(v) is all zeros, of v's dimension, and satisfies iszero |
| `Vectors.TimesScalarByOne` | vector.py:37-39 | scaling by 1 is the identity |
| `Vectors.DotSumSymmetric` | vector.py:53-55 | the sum of pairwise products over zip is symmetric in its two arguments |
| `Vectors.Vector.Product` | vector.py:53-55 | the dot product is symmetric, v.product(w) == w.product(v), and a vector's product with itself is never negative |
| `Vectors.SumOfSquaresNonnegative` | vector.py:53-55 | the sum of squares over zip(a, a) is never negative |
| `Vectors.DotSumTruncates` | vector.py:53-55 | only the first min(dim v, dim w) coordinates take part in the product |
| `Vectors.DotSumOfDifference` | vector.py:53-55 | the product of a zipped difference with c is the difference of the products with c |
| `Vectors.ProductOfDifference` | vector.py:53-55 | (u − v)·w == u·w − v·w for equal dimensions of u and v |
| `Vectors.Vector.IsZero` | vector.py:70-71 | a vector satisfying iszero has every coordinate strictly within 1e-10 of zero, and a vector of exact zeros satisfies iszero |
| `Vectors.Vector.IsOrthogonal` | vector.py:76-77 | isorthogonal holds iff the dot product lies strictly between −1e-10 and 1e-10, whichever operand comes first, so it is symmetric |
| `Vectors.Vector.IsParallel` | vector.py:73-74 | a zero vector (either operand) is parallel to every vector whatever the angle test says; for two non-zero vectors the angle test alone decides |
| `Vectors.TinyVectorIsNotZero` | vector.py:70-71 | the converse fails: (9e-11, 9e-11) has each coordinate within 1e-10 yet is not zero |
| `Vectors.Vector.CrossProduct` | vector.py:95-100 | the cross product exists iff both operands have exactly 3 coordinates (an unpacking ValueError otherwise) and is then 3-dimensional |
| `Vectors.CrossProductOrthogonal` | vector.py:95-100 | the cross product's dot product with each operand is exactly 0 |
| `Vectors.CrossProductLagrange` | vector.py:86-100 | Lagrange's identity ‖v × w‖² == ‖v‖²‖w‖² − (v·w)², the squared form of the docstring's ‖a × b‖ = ‖a‖‖b‖ sin θ |
| `Vectors.CrossProductAnticommutative` | vector.py:95-100 | w × v == (v × w).times_scalar(−1) |
| `Vectors.CrossProductExample` | vector.py:95-100 | (1,2,3) × (4,5,6) == (−3,6,−3) |
| `Lines.NearZero` | line.py:144-146 | is_near_zero holds iff the value lies strictly between −1e-10 and 1e-10 |
| `Lines.FirstNonzero` | line.py:136-141 | the first index whose item is not near zero, with every earlier item near zero; None exactly when every item is near zero |
| `Lines.FirstNonzeroIndex` | line.py:136-141 | the loop returns the smallest index whose item is not near zero, and raises 'No nonzero elements found' exactly when every item is near zero |
| `Lines.BasepointOf` | line.py:27-43 | no basepoint exactly when every normal coefficient is near zero; an IndexError exactly when the first non-near-zero coefficient lies past index 1; otherwise a 2-vector |
| `Lines.SetBasepoint` | line.py:27-43 | filling the list of zeros at the pivot yields the basepoint BasepointOf describes, catching only the no-nonzero exception |
| `Lines.BasepointOnLine` | line.py:31-37 | the basepoint is 2-dimensional and satisfies normal · basepoint == constant_term; its only non-zero coordinate can be the pivot |
| `Lines.NewLine` | line.py:11-24 | (intended) the line's constant is the given one or 0; a missing normal gives the zero normal with no basepoint; a given normal is kept; a given normal builds a line exactly when `BasepointOf` succeeds on it, so construction fails only with an IndexError, and only for a normal longer than 2 whose first non-near-zero coefficient lies past index 1 |
| `Lines.NewLineAsWritten` | line.py:11-24 | (as written) without a normal (or with an empty one) the constructor fails with a TypeError; given a non-empty normal it builds the same line as the intended constructor |
| `Lines.DefaultLine` | line.py:14-24 | the default line is normal (0, 0), constant 0, no basepoint, and its normal is zero |
| `Lines.DefaultLineAsWrittenFails` | line.py:14-18 | as written, every line built without a normal fails, while the intended constructor succeeds |
| `Lines.ZeroNormalHasNoBasepoint` | line.py:39-43 | a line whose normal satisfies iszero has no basepoint |
| `Lines.Line.IsParallel` | line.py:113-116 | a line whose normal is zero is parallel to every line; for two non-zero normals the angle test on the normals alone decides |
| `Lines.Equals` | line.py:92-110 | zero normal: equal iff the other normal is zero and the constants are within 1e-10; only the other zero: unequal; not parallel: unequal; parallel: equal iff the basepoint difference is orthogonal to self's normal; fails, with the AttributeError of `substract` on `None`, exactly for parallel non-zero normals where a basepoint is missing |
| `Lines.EqualsAsWritten` | line.py:92-110 | (as written) comparing a line whose normal is zero fails with an AttributeError; for any other line the comparison agrees with the intended `__eq__` |
| `Lines.ZeroLineAsWrittenNotComparable` | line.py:96-101 | as written the default line cannot be compared with itself; as intended it equals itself |
| `Lines.EqualsSameNormal` | line.py:96-110 | two lines with the same normal, when that normal is zero or both lines have a basepoint and the angle test calls the normal parallel to itself, are equal iff their constant terms are within 1e-10 |
| `Lines.EqualsReflexive` | line.py:92-110 | a line with a basepoint or a zero normal equals itself, given that its normal is parallel to itself |
| `Lines.EqualsFailsOnTinyNormal` | line.py:103-109 | the normal (9e-11, 9e-11) gives a line with no basepoint whose comparison with itself fails |
| `Lines.EqualsImpliesParallel` | line.py:113-120 | equal lines are parallel, so the extra parallelism test in intersection never changes its outcome |
| `Lines.Cramer` | line.py:128-133 | Cramer's rule yields a 2-vector iff a·d − b·c ≠ 0; otherwise the division fails, as decimal's undefined 0/0 exactly when x's numerator d·k1 − b·k2 is 0, else as a division by zero |
| `Lines.CramerSolves` | line.py:128-133 | the solution satisfies a·x + b·y = k1 and c·x + d·y = k2 |
| `Lines.CramerUnique` | line.py:128-133 | every solution of both equations is Cramer's |
| `Lines.Intersection` | line.py:118-133 | returns None iff the lines compare equal; a returned point comes from 2-coefficient normals with a non-zero determinant; a failing __eq__ makes it fail with the same error; its other failures are the unpacking of a normal of the wrong length and the division by a zero determinant |
| `Lines.IntersectionAsWritten` | line.py:118-120 | (as written) intersecting a line whose normal is zero fails with __eq__'s AttributeError; otherwise it agrees with the intended intersection |
| `Lines.ZeroLineAsWrittenNoIntersection` | line.py:96-120 | as written the default line cannot be intersected with itself; as intended the result is None |
| `Lines.IntersectionOnBothLines` | line.py:122-133 | the returned point lies on both lines |
| `Lines.IntersectionUnique` | line.py:122-133 | the returned point is the only 2-vector on both lines |
| `Lines.IntersectionParallelDistinctFails` | line.py:119-131 | planar lines with a zero determinant that compare unequal fail in the division |
| `Lines.ScaledLinesAreEqual` | line.py:92-120 | 4.046x + 2.836y = 1.21 and 10.115x + 7.09y = 3.025 compare equal and have no single intersection point, given that the angle test calls their normals parallel |
| `Lines.CrossingLinesIntersect` | line_test.py:3-8 | 7.204x + 3.182y = 8.68 and 8.172x + 4.114y = 9.883 are unequal and meet exactly at (4.261814/3.633952, 0.264172/3.633952) ≈ (1.173, 0.073) |

## Left out

- `magnitude`, `normalize`, `angle`, `projection_vector`, `area_parallelogram` and `area_triangle` (vector.py:41-68, 79-83, 102-106) are left out. They compute in floating point through `math.sqrt` and `math.acos`, and round the cosine before `acos`. Their printed fallbacks that return `0` go with them.
- The angle comparison inside `isparallel` (vector.py:74) is the function parameter `flatAngle`; only its zero-vector disjuncts are modelled.
- `iszero` takes the square root in floating point. The model compares the exact sum of squares with 1/10^20, so float rounding near the threshold is not captured.
- The tolerance `1e-10` is the float literal in the source, slightly above 1/10^10. Values within about 4·10^-27 of the threshold can be classified differently.
- The 30-digit `Decimal` context and its rounding (vector.py:4, line.py:5) are left out. Arithmetic is exact.
- Conversion of each coordinate with `Decimal(c)` is left out. Inputs are already reals, so unparsable strings and non-iterable arguments (other than `add`'s map object) are not modelled.
- Vectors.Vector.TimesScalar: the factor is an exact real standing for an `int` or a `Decimal`. A `float` factor makes `Decimal * float` raise a TypeError in the source; that failure is not modelled.
- A `Vector` passed as a line's normal is not modelled. Iterating it fails like the default path. Normals are lists.
- `__str__` of both classes (vector.py:23-25, line.py:46-89) is display-only formatting and is left out.
- The demonstration script line_test.py only prints. Its two lines are the ones in `CrossingLinesIntersect`.
- A constant term given as `0` and a missing one both become `0`. The model takes the constant term as `Option<real>`, so the falsy-zero path is the same value.

## Findings

| source | as written | input that shows it | evidently intended | confidence | as-written member | corrected member |
|---|---|---|---|---|---|---|
| vector.py:31 | `add` passes a lazy `map` object to the constructor, whose `len(coordinates)` raises TypeError under Python 3, re-raised as "The coordinates must be an iterable" | `Vector([1]).add(Vector([2]))` | the element-wise sum over `zip`, as `substract` does | not executed; holds under Python 3, where `map` has no `len` | `Vectors.Vector.AddAsWritten` | `Vectors.Vector.Add` (with `Vectors.AddThenSubstract`) |
| line.py:14-18 | without a normal, the constructor builds `Vector(['0','0'])` and then iterates over it, but `Vector` defines no iteration: TypeError | `Line()` | the zero normal (0, 0) with no basepoint | not executed | `Lines.NewLineAsWritten` (with `Lines.DefaultLineAsWrittenFails`) | `Lines.NewLine` (with `Lines.DefaultLine`) |
| line.py:97 | `line2.normal_vector.iszero()` calls `iszero` on a plain list: AttributeError whenever self's normal is zero | `Line([0, 0]) == Line([0, 0])` | `Vector(line2.normal_vector).iszero()`, i.e. `v2.iszero()` | not executed | `Lines.EqualsAsWritten` (with `Lines.ZeroLineAsWrittenNotComparable`); `intersection` (line.py:119) starts with `self == other_line`, so it fails the same way: `Lines.IntersectionAsWritten` (with `Lines.ZeroLineAsWrittenNoIntersection`) | `Lines.Equals` (with `Lines.EqualsSameNormal`), and `Lines.Intersection`, which is built on it |
