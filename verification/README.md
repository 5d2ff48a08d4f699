# linear-rs in Dafny

A model of the core of `linear-rs`, a small Rust linear-algebra library for graphics code. It covers:

- the vector types `Vec2`, `Vec3` and `Vec4` and the operator impls their macro generates;
- the square matrices `Mat2`, `Mat3` and `Mat4`: their constructors, the transformation builders
  (rotations, projections, scaling, reflection, shearing, perspective/frustum/ortho) and the operator
  impls their macro generates;
- `Mat4`'s minor, cofactor, determinant and inverse;
- quaternions: the Hamilton product, conjugate, dot, `pow`, `slerp` and the conversion to a rotation matrix;
- Euler angles, extracted from a `Mat3`, a `Mat4` or a `Quaternion`.

Modelling conventions:

- Scalars are mathematical reals (`real`).
- Vectors are `seq<real>` of fixed length. Index `k` is the `k`-th declared field (`x`, `y`, `z`, `w`).
- A matrix is a `seq<seq<real>>` indexed `m[i][j]` exactly as the Rust arrays are.
- The library's product `a * b` has entry `[i][j]` equal to `Σ_k a[k][j] * b[i][k]`.
- `m * v` has entry `[i]` equal to `Σ_j v[j] * m[j][i]`.
- The generic operations (sum, difference, scalar product, matrix product, matrix–vector product,
  transpose) are defined once for every size in module `Matrix`. `Matrix2`, `Matrix3` and `Matrix4`
  hold the size-specific constructors.
- The square root and the trigonometric functions are not Dafny operations. They are the fields of a
  `Float` value that every operation using them receives as a parameter, standing for Rust's `f32`
  methods and for the `FloatScalar`/`FloatConst` traits used by `euler.rs`.
  - `Lawful(f)` states what the proofs assume of `sqrt`: it is non-negative and squares back.
  - Nothing is assumed of `sin`, `cos`, `tan`, `asin`, `acos` or `atan2`, except that two lemmas in
    `EulerAngles` (`IntendedMatchesQuaternion`, `IntendedMatchesIntoMat4`) assume
    `atan2(2y, 2x) == atan2(y, x)`.
- A Rust `panic!` or an out-of-range index is the `Panic` case of `Core.Checked`. A Rust `Option` is
  `Core.Option`.

Where the code and its evident intent disagree, the model follows the code. Each such place has an
"as written" member, a lemma exhibiting the discrepancy, and a corrected member with the intended
property proved; see "## Findings".

## Model

| member | source | states |
|---|---|---|
| Vectors.Add | src/vectors/macros.rs:5-15 | vector sum: same length, every component is the sum of the two operands' components |
| Vectors.Sub | src/vectors/macros.rs:27-37 | vector difference, component by component |
| Vectors.Mul | src/vectors/macros.rs:49-59 | Hadamard product: component i is the product of the two components i |
| Vectors.Scale | src/vectors/macros.rs:71-81 | `v * k` multiplies every component by k |
| Vectors.ScaleLeft | src/vectors/macros.rs:115-125 | `k * v` multiplies every component by k |
| Vectors.Div | src/vectors/macros.rs:93-103 | `v / k` for k ≠ 0: multiplying each result component by k gives back the operand's component |
| Vectors.Neg | src/vectors/macros.rs:127-137 | negation flips the sign of every component |
| Vectors.AddAssign | src/vectors/macros.rs:17-25 | `+=` rebuilds `self` as the componentwise sum; `AssignMatchesBinary` shows it equals `Add` |
| Vectors.SubAssign | src/vectors/macros.rs:39-47 | `-=` rebuilds `self` as the componentwise difference; `AssignMatchesBinary` shows it equals `Sub` |
| Vectors.MulAssign | src/vectors/macros.rs:61-69 | `*=` by a vector rebuilds `self` as the Hadamard product; `AssignMatchesBinary` shows it equals `Mul` |
| Vectors.MulAssignScalar | src/vectors/macros.rs:83-91 | `*=` by a scalar multiplies every field; `AssignMatchesBinary` shows it equals `Scale` |
| Vectors.DivAssign | src/vectors/macros.rs:105-113 | `/=` divides every field by a nonzero k; `AssignMatchesBinary` shows it equals `Div` |
| Vectors.AssignMatchesBinary | src/vectors/macros.rs:17-113 | each compound assignment (`+=`, `-=`, `*=` by a vector or a scalar, `/=`) leaves the same value as its binary operator |
| Core.Index | src/vectors/macros.rs:139-148 | indexing a vector (its fields) or a matrix (its rows, src/matrix/macros.rs) succeeds exactly for index < length and returns that element; otherwise it panics |
| Core.IndexMut | src/vectors/macros.rs:150-157 | mutable indexing succeeds exactly for index < length, keeps the length and reads back the written element; otherwise it panics |
| Core.IndexMutWritesOne | src/vectors/macros.rs:150-157 | writing through a valid index changes that component to the new value and leaves every other component unchanged |
| Vectors.AddSubCancel | src/vectors/macros.rs:5-37 | subtracting b undoes adding b |
| Vectors.NegInvolution | src/vectors/macros.rs:127-137 | negating twice gives the original vector |
| Vectors.ScaleCommutes | src/vectors/macros.rs:115-125 | `k * v` equals `v * k` |
| Vectors.MulCommutes | src/vectors/macros.rs:49-59 | the componentwise product commutes |
| Vectors.MulUnitAndZero | src/vectors/macros.rs:49-59 | the all-ones vector is the unit of the componentwise product and the zero vector annihilates it |
| Vector3.New | src/vectors/vec3.rs:19-21 | `Vec3::new`: the vector with fields x, y, z; `NewStoresFields` reads them back through `Index` |
| Vector3.Magnitude | src/vectors/vec3.rs:24-26 | `magnitude`: the square root of the sum of squared fields; `NormalizedIsUnit` and `NormalizedUnit` relate it to `normalized` |
| Vector3.SquaredLen | src/vectors/vec3.rs:29-31 | `squared_len`: the sum of squared fields, no root; `DotSymmetric` shows it is the dot product of the vector with itself |
| Vector3.Dot | src/vectors/vec3.rs:52-54 | `dot`: the sum of products of matching fields; `DotSymmetric` shows it symmetric and non-negative on equal operands |
| Vector3.Cross | src/vectors/vec3.rs:57-63 | `cross`: the cross product; `CrossProperties` shows it orthogonal to both operands, anti-commutative and zero on equal operands |
| Vector3.Normalized | src/vectors/vec3.rs:42-49 | `normalized`: every field times 1 / magnitude; `NormalizedIsUnit` (unit result) and `NormalizedUnit` (unit input unchanged) characterise it |
| Vector3.Normalize | src/vectors/vec3.rs:34-39 | in-place `normalize`: every field times 1 / magnitude; `NormalizeAgrees` shows it equals `normalized` |
| Vector3.Extend | src/vectors/vec3.rs:101-108 | `extend(w)`: x, y, z followed by w; `Vector4.TruncateExtend` shows `Vec4::truncate` undoes it |
| Vector3.Truncate | src/vectors/vec3.rs:111-116 | `truncate`: x and y, dropping z; `Vector2.ExtendTruncate` shows it undoes `Vec2::extend` |
| Vector3.NewStoresFields | src/vectors/vec3.rs:19-21 | `new(x, y, z)` stores x, y, z at indices 0, 1, 2 |
| Vector3.DotSymmetric | src/vectors/vec3.rs:29-54 | the dot product is symmetric and non-negative on a vector with itself, and `squared_len` is the self dot product |
| Vector3.CrossProperties | src/vectors/vec3.rs:57-63 | the cross product is perpendicular to both operands, anti-commutes, and vanishes on equal operands |
| Vector3.VectorTo | src/vectors/vec3.rs:92-98 | `vector_to` is the displacement that carries self onto other |
| Vector3.VectorToIsDifference | src/vectors/vec3.rs:92-98 | `vector_to` equals `other - self` |
| Vector3.NormalizeAgrees | src/vectors/vec3.rs:34-49 | in-place `normalize` leaves the same vector `normalized` returns, and both equal the vector divided by its magnitude |
| Vector3.NormalizedIsUnit | src/vectors/vec3.rs:24-49 | with a lawful square root, a nonzero vector normalizes to squared length 1 |
| Vector3.NormalizedUnit | src/vectors/vec3.rs:24-49 | a vector of magnitude 1 is unchanged by normalizing |
| Vector2.New | src/vectors/vec2.rs:13-15 | `Vec2::new`: the vector with fields x, y; `NewStoresFields` reads them back |
| Vector2.Magnitude | src/vectors/vec2.rs:18-20 | `magnitude`: the square root of x² + y²; `DotIntendedProperties` shows it is the root of the corrected dot product |
| Vector2.Dot | src/vectors/vec2.rs:23-25 | `dot` as written: the square root of the sum of products; `DotIsNotInnerProduct` shows where it differs from the inner product |
| Vector2.DotIntended | src/vectors/vec2.rs:23-25 | the corrected `dot`, the plain sum of products; `DotIntendedProperties` shows it symmetric, additive and homogeneous |
| Vector2.Normalized | src/vectors/vec2.rs:36-43 | `normalized`: both fields times 1 / magnitude; `NormalizeIntendedIsUnit` and `NormalizeIntendedAgrees` characterise it |
| Vector2.Normalize | src/vectors/vec2.rs:28-33 | in-place `normalize` as written, with `y += k`; `NormalizeDisagrees` shows it differs from `normalized` |
| Vector2.NormalizeIntended | src/vectors/vec2.rs:28-33 | the corrected in-place `normalize`, with `y *= k`; `NormalizeIntendedAgrees` shows it equals `normalized` |
| Vector2.Extend | src/vectors/vec2.rs:46-52 | `extend(z)`: x, y followed by z; `ExtendTruncate` shows `Vec3::truncate` undoes it |
| Vector2.NewStoresFields | src/vectors/vec2.rs:13-15 | `new(x, y)` stores x, y at indices 0, 1 |
| Vector2.DotIsNotInnerProduct | src/vectors/vec2.rs:23-25 | as written, the dot product of (2, 0) with itself is 2 (its square root), not the inner product 4 |
| Vector2.DotIntendedProperties | src/vectors/vec2.rs:18-25 | the corrected dot product is symmetric, additive and homogeneous in its first operand, and `magnitude` is the root of the self dot product |
| Vector2.NormalizeDisagrees | src/vectors/vec2.rs:28-43 | as written, in-place `normalize` of the unit vector (0, 1) gives (0, 2), while `normalized` gives (0, 1) |
| Vector2.NormalizeIntendedAgrees | src/vectors/vec2.rs:28-43 | the corrected `normalize` equals `normalized`, which is the vector divided by its magnitude |
| Vector2.NormalizeIntendedIsUnit | src/vectors/vec2.rs:18-43 | with a lawful square root, the corrected `normalize` of a nonzero vector has self dot product 1 |
| Vector2.ExtendTruncate | src/vectors/vec2.rs:46-52 | `extend` keeps x, y and appends z; truncating the result gives back the `Vec2` |
| Vector4.New | src/vectors/vec4.rs:15-17 | `Vec4::new`: the vector with fields x, y, z, w; `NewStoresFields` reads them back |
| Vector4.Magnitude | src/vectors/vec4.rs:20-22 | `magnitude`: the square root of the sum of the four squared fields; used by `normalize` and `normalized` |
| Vector4.Dot | src/vectors/vec4.rs:25-27 | `dot`: the four-term sum of products; `DotSymmetric` shows it symmetric and non-negative on equal operands |
| Vector4.Normalized | src/vectors/vec4.rs:30-39 | `normalized`: every field times 1 / magnitude; `NormalizeAgrees` characterises it |
| Vector4.Normalize | src/vectors/vec4.rs:42-49 | in-place `normalize`; `NormalizeAgrees` shows it equals `normalized` |
| Vector4.Truncate | src/vectors/vec4.rs:52-58 | `truncate`: x, y, z, dropping w; `TruncateExtend` shows it undoes `Vec3::extend` |
| Vector4.NewStoresFields | src/vectors/vec4.rs:15-17 | `new(x, y, z, w)` stores its arguments at indices 0 to 3 |
| Vector4.DotSymmetric | src/vectors/vec4.rs:25-27 | the dot product is symmetric and non-negative on a vector with itself |
| Vector4.NormalizeAgrees | src/vectors/vec4.rs:30-49 | `normalize` and `normalized` agree and divide the vector by its magnitude |
| Vector4.TruncateExtend | src/vectors/vec4.rs:52-58 | `truncate` keeps the first three components; it inverts `Vec3::extend` |
| Matrix.Identity | src/matrix/mat3.rs:237-243 | the identity has ones on the diagonal and zeros elsewhere |
| Matrix.Add | src/matrix/macros.rs:8-21 | matrix sum, entry by entry, of the same size |
| Matrix.Sub | src/matrix/macros.rs:33-46 | matrix difference, entry by entry |
| Matrix.Scale | src/matrix/macros.rs:58-71 | `m * k` multiplies every entry by k |
| Matrix.AddAssign | src/matrix/macros.rs:23-31 | `+=` row by row leaves the matrix sum |
| Matrix.SubAssign | src/matrix/macros.rs:48-56 | `-=` row by row leaves the matrix difference |
| Matrix.AddSubCancel | src/matrix/macros.rs:8-46 | subtracting b undoes adding b |
| Matrix.ScaleOneZero | src/matrix/macros.rs:58-71 | scaling by 1 is the identity map; scaling by 0 gives the zero matrix |
| Matrix.Product | src/matrix/macros.rs:73-88 | entry [i][j] of the product is the sum over k of `a[k][j] * b[i][k]` |
| Matrix.ProductLoop | src/matrix/macros.rs:73-88 | the triple loop computes exactly that product |
| Matrix.ProductIdentity | src/matrix/macros.rs:73-88 | the identity is a two-sided unit of the product |
| Matrix.ProductAssociative | src/matrix/macros.rs:73-88 | the product is associative |
| Matrix.ProductDiagonal | src/matrix/macros.rs:73-88 | the product of two diagonal matrices is diagonal with the products of the diagonal entries |
| Matrix.DiagonalProjectionIdempotent | src/matrix/macros.rs:73-88 | a diagonal matrix of zeros and ones is idempotent |
| Matrix.MulVec | src/matrix/macros.rs:109-122 | component i of `m * v` is the sum over j of `v[j] * m[j][i]` |
| Matrix.MulVecLoop | src/matrix/macros.rs:109-122 | the double loop computes exactly that vector |
| Matrix.MulVecIdentity | src/matrix/macros.rs:109-122 | the identity leaves every vector unchanged |
| Matrix.MulVecProduct | src/matrix/macros.rs:73-122 | applying `a * b` to v is applying b, then a |
| Matrix.Transpose | src/matrix/mat4.rs:286-295 | entry [i][j] of the transpose is entry [j][i] |
| Matrix.TransposeInvolution | src/matrix/mat4.rs:286-295 | transposing twice gives the original; the identity is its own transpose |
| Matrix.RowMutWritesOneRow | src/matrix/macros.rs:90-102 | row indexing through `Core.Index`/`Core.IndexMut`: writing a row through a valid index keeps the matrix square, replaces that row and leaves the other rows unchanged |
| Matrix.Embed | src/matrix/mat4.rs:71-124 | a 3×3 block padded into a 4×4 keeps the block and is the identity outside it |
| Matrix2.New | src/matrix/mat2.rs:15-19 | `Mat2::new`: the four arguments in row order; `NewRowMajor` places argument 2r + c at [r][c] |
| Matrix2.FromArray | src/matrix/mat2.rs:22-24 | `from_array`: the array as the matrix; `FromArrayIsNew` shows it is `new` on the entries in row order |
| Matrix2.FromVec | src/matrix/mat2.rs:27-31 | `from_vec`: the vector copied into both rows; `FromVecRows` reads both rows back |
| Matrix2.Rotation | src/matrix/mat2.rs:34-38 | `rotation(ang)`: [[cos, −sin], [sin, cos]]; `RotationShape` states its entries |
| Matrix2.Scale | src/matrix/mat2.rs:41-45 | `scale(k)`: k on the diagonal; `DefaultAndScale` shows it is k times the default |
| Matrix2.Default | src/matrix/mat2.rs:91-97 | `Default`: the 2×2 identity; `DefaultAndScale` shows it is `Matrix.Identity(2)` |
| Matrix2.Transpost | src/matrix/mat2.rs:48-52 | `transpost`: the matrix with the off-diagonal entries swapped; `TransposeProperties` shows it is the transpose and an involution |
| Matrix2.Transpose | src/matrix/mat2.rs:55-59 | in-place `transpose`; `TransposeProperties` shows it leaves the same matrix as `transpost` |
| Matrix2.NewRowMajor | src/matrix/mat2.rs:15-19 | `new` fills the matrix row by row: entry [r][c] is argument 2r + c |
| Matrix2.FromArrayIsNew | src/matrix/mat2.rs:22-24 | `from_array` equals `new` on the array's entries in row order |
| Matrix2.FromVecRows | src/matrix/mat2.rs:27-31 | `from_vec(v)` places v in both rows |
| Matrix2.RotationShape | src/matrix/mat2.rs:34-38 | the rotation matrix has equal diagonal entries and opposite off-diagonal entries |
| Matrix2.DefaultAndScale | src/matrix/mat2.rs:41-45 | the default is the identity; `scale(k)` is k times it, and `scale(1)` is the default |
| Matrix2.TransposeProperties | src/matrix/mat2.rs:48-59 | `transpost` is the transpose, `transpose` leaves the same matrix, and `transpost` is an involution |
| Matrix3.New | src/matrix/mat3.rs:15-29 | `Mat3::new`: the nine arguments in row order; `NewRowMajor` places argument 3r + c at [r][c] |
| Matrix3.Zero | src/matrix/mat3.rs:32-36 | `zero`: every entry 0; `ZeroAndDefault` states it |
| Matrix3.Default | src/matrix/mat3.rs:237-243 | `Default`: the 3×3 identity; `ZeroAndDefault` shows it is `Matrix.Identity(3)` |
| Matrix3.FromArray | src/matrix/mat3.rs:184-186 | `from_array`: the array as the matrix; `FromArrayIsNew` shows it is `new` on the entries in row order |
| Matrix3.FromVec | src/matrix/mat3.rs:189-193 | `from_vec(f, s, t)`: the three vectors as rows; `FromVecRows` reads them back and shows row 3 panics |
| Matrix3.RotationX | src/matrix/mat3.rs:42-50 | `rotation_x(ang)`; `RotationsKeepAxis` (x is fixed) and `RotationsCyclic` (the image of y) characterise it |
| Matrix3.RotationY | src/matrix/mat3.rs:54-62 | `rotation_y(ang)`; `RotationsKeepAxis` (y is fixed) and `RotationsCyclic` (the image of z) characterise it |
| Matrix3.RotationZ | src/matrix/mat3.rs:66-74 | `rotation_z(ang)`; `RotationsKeepAxis` (z is fixed) and `RotationsCyclic` (the image of x) characterise it |
| Matrix3.ProjectionXY | src/matrix/mat3.rs:78-82 | `projection_xy`: diag(1, 1, 0); `AxisProjectionsIdempotent` and `AxisProjectionsDropOneCoordinate` characterise it |
| Matrix3.ProjectionXZ | src/matrix/mat3.rs:86-90 | `projection_xz`: diag(1, 0, 1); `AxisProjectionsIdempotent` and `AxisProjectionsDropOneCoordinate` characterise it |
| Matrix3.ProjectionYZ | src/matrix/mat3.rs:94-98 | `projection_yz`: diag(0, 1, 1); `AxisProjectionsIdempotent` and `AxisProjectionsDropOneCoordinate` characterise it |
| Matrix3.Scale | src/matrix/mat3.rs:142-146 | `scale(k)`: k on the diagonal; `ScaleIsDefaultTimesK` shows it is k·I and scales every vector |
| Matrix3.RankOne | src/matrix/mat3.rs:102-179 | I + a·u·uᵀ, the shape the direction-based builders share; `RankOneSymmetric`, `RankOneAction` and `RankOneOnUnit` characterise it |
| Matrix3.Projection | src/matrix/mat3.rs:102-112 | `projection(n)`: the plane projection built from `n.normalized()`; `ProjectionFixesPlane` and `ProjectionImagePerpendicular` characterise it |
| Matrix3.PlaneProjection | src/matrix/mat3.rs:102-112 | the entries `projection` writes from the unit direction u; `PlaneProjectionAction`, `PlaneProjectionOnUnit` and `PlaneProjectionPerpendicular` characterise it |
| Matrix3.Rotation | src/matrix/mat3.rs:116-138 | `rotation(ang, n)` as written, built from `n.normalized()`; `RotationMovesAxis` shows it moves its own axis |
| Matrix3.AxisRotation | src/matrix/mat3.rs:116-138 | the entries `rotation` writes from cos, sin and the unit axis, [0][2] using u.z; `RotationMovesAxis` exhibits it |
| Matrix3.RotationIntended | src/matrix/mat3.rs:116-138 | the corrected `rotation`, [0][2] using n.y; `RotationIntendedFixesAxis` shows it fixes the normalized axis |
| Matrix3.AxisRotationIntended | src/matrix/mat3.rs:116-138 | the corrected Rodrigues entries; `AxisRotationIntendedFixesAxis` shows they fix the unit axis for every angle |
| Matrix3.ScaleArb | src/matrix/mat3.rs:150-166 | `scale_arb(k, n)` as written, built from `n.normalized()`; `ScaleArbCollapses` exhibits the collapsed diagonal |
| Matrix3.ScaleAlong | src/matrix/mat3.rs:150-166 | the entries `scale_arb` writes from the unit direction; `ScaleAlongXOnY` shows it sends y to 0 for axis x |
| Matrix3.ScaleArbIntended | src/matrix/mat3.rs:150-166 | the corrected `scale_arb`; `ScaleArbIntendedStretches` shows it stretches the axis by k and fixes the plane |
| Matrix3.ScaleAlongIntended | src/matrix/mat3.rs:150-166 | the corrected entries, I + (k − 1)·u·uᵀ; `ScaleAlongIntendedAction` states their action |
| Matrix3.Reflection | src/matrix/mat3.rs:169-179 | `reflection(n)` as written, built from `n.normalized()`; `ReflectionAsymmetric` exhibits the asymmetric entry |
| Matrix3.Reflect | src/matrix/mat3.rs:169-179 | the entries `reflection` writes from the unit normal, [1][2] using u.x·u.z; `ReflectionAsymmetric` exhibits it |
| Matrix3.ReflectionIntended | src/matrix/mat3.rs:169-179 | the corrected `reflection`; `ReflectionIntendedMirrors` shows it negates the normal and fixes the plane |
| Matrix3.ReflectIntended | src/matrix/mat3.rs:169-179 | the corrected entries, I − 2·u·uᵀ; `ReflectIntendedAction` shows them symmetric and states their action |
| Matrix3.Transpose | src/matrix/mat3.rs:196-205 | in-place `transpose` as written; `TranspostFixesSymmetric` shows it agrees with `transpost` |
| Matrix3.Transpost | src/matrix/mat3.rs:208-216 | `transpost` as written; `TranspostFixesSymmetric` and `TranspostIsNotTranspose` characterise it |
| Matrix3.TranspostIntended | src/matrix/mat3.rs:208-216 | the corrected `transpost`; `TranspostIntendedIsTranspose` shows it is the transpose and an involution |
| Matrix3.Determinant | src/matrix/mat4.rs:334 | the 3×3 determinant `minor` calls, by row-0 cofactor expansion; `DeterminantProperties` shows it equals `Leibniz` |
| Matrix3.Leibniz | src/matrix/mat4.rs:334 | the six-term Leibniz formula, the independent reference for `Determinant` in `DeterminantProperties` |
| Matrix3.NewRowMajor | src/matrix/mat3.rs:15-29 | `new` fills the matrix row by row: entry [r][c] is argument 3r + c |
| Matrix3.ZeroAndDefault | src/matrix/mat3.rs:32-36 | `zero` is the zero matrix and the default is the identity |
| Matrix3.FromArrayIsNew | src/matrix/mat3.rs:184-186 | `from_array` equals `new` on the array's entries in row order |
| Matrix3.FromVecRows | src/matrix/mat3.rs:189-193 | `from_vec` stores its three vectors as rows 0–2; row 3 panics |
| Matrix3.RotationsKeepAxis | src/matrix/mat3.rs:42-74 | each axis rotation fixes its own axis, both as a row/column and in its action on any vector |
| Matrix3.RotationsCyclic | src/matrix/mat3.rs:42-74 | rotation about z maps x to (cos, sin, 0), about x maps y to (0, cos, sin), and about y maps z to (sin, 0, cos) |
| Matrix3.AxisProjectionsIdempotent | src/matrix/mat3.rs:78-98 | the three coordinate-plane projections are diagonal and idempotent |
| Matrix3.AxisProjectionsDropOneCoordinate | src/matrix/mat3.rs:78-98 | each coordinate-plane projection zeroes exactly the dropped coordinate |
| Matrix3.ScaleIsDefaultTimesK | src/matrix/mat3.rs:142-146 | `scale(k)` is k times the identity and multiplies every vector by k |
| Matrix3.RankOneSymmetric | src/matrix/mat3.rs:102-179 | `I + a·u·uᵀ`, the common shape of projection, scaling along an axis and reflection, is symmetric |
| Matrix3.RankOneAction | src/matrix/mat3.rs:102-179 | `I + a·u·uᵀ` maps v to `v + a·(v·u)·u` |
| Matrix3.RankOneOnUnit | src/matrix/mat3.rs:102-179 | for a unit u it scales u by 1 + a and fixes every vector perpendicular to u |
| Matrix3.PlaneProjectionAction | src/matrix/mat3.rs:102-112 | the projection onto the plane normal to u is `I - u·uᵀ` and removes the u component |
| Matrix3.ProjectionFixesPlane | src/matrix/mat3.rs:102-112 | with a lawful square root and a nonzero normal: `projection` sends the unit normal to 0 and fixes every vector in the plane |
| Matrix3.PlaneProjectionOnUnit | src/matrix/mat3.rs:102-112 | for a unit u, the plane projection sends u to 0 and fixes vectors perpendicular to u |
| Matrix3.ProjectionImagePerpendicular | src/matrix/mat3.rs:102-112 | every image of `projection` is perpendicular to the normal |
| Matrix3.PlaneProjectionPerpendicular | src/matrix/mat3.rs:102-112 | every image of the plane projection is perpendicular to u |
| Matrix3.RotationMovesAxis | src/matrix/mat3.rs:116-138 | as written, `rotation` about the unit axis (0.6, 0, 0.8) by any angle with nonzero sine moves the axis: its z component becomes 0.8 − 0.48·sin |
| Matrix3.AxisRotationIntendedFixesAxis | src/matrix/mat3.rs:116-138 | the corrected Rodrigues matrix about a unit axis fixes the axis |
| Matrix3.RotationIntendedFixesAxis | src/matrix/mat3.rs:116-138 | the corrected `rotation` fixes the normalized axis for every angle |
| Matrix3.ScaleArbCollapses | src/matrix/mat3.rs:150-166 | as written, `scale_arb` along x sends the perpendicular y axis to 0, where the corrected matrix keeps it |
| Matrix3.ScaleAlongXOnY | src/matrix/mat3.rs:150-166 | the as-written matrix built from the unit axis x sends y to 0; the corrected one fixes y |
| Matrix3.ScaleAlongIntendedAction | src/matrix/mat3.rs:150-166 | the corrected matrix is `I + (k−1)·u·uᵀ` and maps v to `v + (k−1)·(v·u)·u` |
| Matrix3.ScaleArbIntendedStretches | src/matrix/mat3.rs:150-166 | the corrected `scale_arb` multiplies the normalized axis by k and fixes the perpendicular plane |
| Matrix3.ReflectionAsymmetric | src/matrix/mat3.rs:169-179 | as written, the reflection across the plane with normal (0, 0.6, 0.8) has [1][2] = 0 but [2][1] = −0.96, so it is not symmetric and maps y wrongly |
| Matrix3.ReflectIntendedAction | src/matrix/mat3.rs:169-179 | the corrected reflection is `I − 2·u·uᵀ`: symmetric, mapping v to `v − 2·(v·u)·u` |
| Matrix3.ReflectionIntendedMirrors | src/matrix/mat3.rs:169-179 | the corrected `reflection` negates the unit normal and fixes the mirror plane |
| Matrix3.TranspostFixesSymmetric | src/matrix/mat3.rs:196-216 | `transpose` and `transpost` leave the same matrix; as written, `transpost` fixes m exactly when m is symmetric, and it fixes the identity |
| Matrix3.TranspostIsNotTranspose | src/matrix/mat3.rs:196-216 | as written, `transpost` of the matrix whose only nonzero entry is [0][1] = 1 is zero, while the transpose has [1][0] = 1 |
| Matrix3.TranspostIntendedIsTranspose | src/matrix/mat3.rs:196-216 | the corrected `transpost` is the transpose and an involution |
| Matrix3.DeterminantProperties | src/matrix/mat4.rs:334 | the 3×3 determinant equals the Leibniz formula, is unchanged by transposition, is 1 on the identity and 0 on zero |
| Matrix4.New | src/matrix/mat4.rs:16-42 | `Mat4::new`: the sixteen arguments in row order; `NewRowMajor` places argument 4r + c at [r][c] |
| Matrix4.Zero | src/matrix/mat4.rs:45-54 | `zero`: every entry 0; `ZeroAndDefault` states it |
| Matrix4.Default | src/matrix/mat4.rs:383-389 | `Default`: the 4×4 identity; `ZeroAndDefault` shows it is `Matrix.Identity(4)` |
| Matrix4.FromVec | src/matrix/mat4.rs:57-66 | `from_vec(f, s, t, l)`: the four vectors as rows; `FromVecRows` reads them back and shows row 4 panics |
| Matrix4.RotationX | src/matrix/mat4.rs:71-83 | `rotation_x(ang)`; `AxisRotationsEmbed` shows it is the padded `Mat3::rotation_x` |
| Matrix4.RotationY | src/matrix/mat4.rs:86-98 | `rotation_y(ang)` as written; `RotationYSignDiffers` and `AxisRotationsEmbed` show it is the padded transpose of `Mat3::rotation_y` |
| Matrix4.RotationYIntended | src/matrix/mat4.rs:86-98 | the corrected `rotation_y`; `AxisRotationsEmbed` shows it is the padded `Mat3::rotation_y` |
| Matrix4.RotationZ | src/matrix/mat4.rs:101-113 | `rotation_z(ang)`; `AxisRotationsEmbed` shows it is the padded `Mat3::rotation_z` |
| Matrix4.RotationIntended | src/matrix/mat4.rs:116-124 | the padded corrected `Mat3::rotation`; `RotationIntendedFixesAxis` shows it fixes the normalized axis and w |
| Matrix4.Translation | src/matrix/mat4.rs:127-136 | `translation(n)`: the identity with n in the last row; `TranslationMovesPoints` shows points move by n and directions stay |
| Matrix4.Scale | src/matrix/mat4.rs:139-148 | `scale(k)`: k on the first three diagonal entries and 1 last; `ScaleAction` characterises it |
| Matrix4.ScaleArb | src/matrix/mat4.rs:151-168 | `scale_arb(k, n)` as written; `DirectionalBuildersEmbed` shows it is the padded `Mat3::scale_arb` |
| Matrix4.ScaleArbIntended | src/matrix/mat4.rs:151-168 | the corrected `scale_arb`; `DirectionalBuildersIntendedAct` shows it stretches the axis by k and keeps w |
| Matrix4.Reflection | src/matrix/mat4.rs:171-197 | `reflection(n)` as written; `DirectionalBuildersEmbed` shows it is the padded `Mat3::reflection` |
| Matrix4.ReflectionIntended | src/matrix/mat4.rs:171-197 | the corrected `reflection`; `DirectionalBuildersIntendedAct` shows it negates the normal and keeps w |
| Matrix4.ShearingXY | src/matrix/mat4.rs:200-209 | `shearing_xy(s, t)`; `ShearingXYAction` shows it adds s·z to x and t·z to y |
| Matrix4.ShearingXZ | src/matrix/mat4.rs:212-221 | `shearing_xz(s, t)`; `ShearingXZAction` shows it adds s·y to x and t·y to z |
| Matrix4.ShearingYZ | src/matrix/mat4.rs:224-233 | `shearing_yz(s, t)`; `ShearingYZAction` shows it adds s·x to y and t·x to z |
| Matrix4.Perspective | src/matrix/mat4.rs:236-248 | `perspective(fov, aspect, near, far)`; `PerspectiveMapsNear` and `PerspectiveMapsFar` give where the near and far depths go |
| Matrix4.Frustum | src/matrix/mat4.rs:252-265 | `frustum` as written, [0][0] dividing by right − 1; `FrustumWidthDefect` exhibits the near right corner at x = 3 |
| Matrix4.FrustumIntended | src/matrix/mat4.rs:252-265 | the corrected `frustum`, dividing by right − left; `FrustumIntendedMapsNearCorners` sends the near corners to ±near |
| Matrix4.Ortho | src/matrix/mat4.rs:268-281 | `ortho(left, right, bottom, top, near, far)`; `OrthoMapsNearCorner` and `OrthoMapsFarCorner` send the box corners to (−1, −1, −1) and (1, 1, 1) |
| Matrix4.Fill | src/matrix/mat4.rs:315-331 | the fill loop of `minor`, from a scan position on; `FillStruckOut` shows it stores the kept entries in order |
| Matrix4.Submatrix | src/matrix/mat4.rs:315-331 | the 3×3 matrix `minor` fills in; `SubmatrixStruckOut` shows it is m with row i and column j struck out |
| Matrix4.Leibniz | src/matrix/mat4.rs:341-348 | the 24-term Leibniz formula, the independent reference for `Determinant` in `DeterminantIsLeibniz` and `ColumnExpansion` |
| Matrix4.Determinant | src/matrix/mat4.rs:341-348 | `determinant`: the column-0 cofactor expansion; `DeterminantIsLeibniz` and `DeterminantProperties` characterise it |
| Matrix4.AdjugateFill | src/matrix/mat4.rs:358-364 | the loop of `inverse` that writes cofactor (i, j) into [j][i]; `AdjugateIsAdjugate` characterises it |
| Matrix4.Adjugate | src/matrix/mat4.rs:358-364 | the adjugate `inverse` builds from the default; `AdjugateEntry` and `AdjugateProducts` (m·adj = adj·m = det·I) characterise it |
| Matrix4.NewRowMajor | src/matrix/mat4.rs:16-42 | `new` fills the matrix row by row: entry [r][c] is argument 4r + c |
| Matrix4.ZeroAndDefault | src/matrix/mat4.rs:45-54 | `zero` is the zero matrix and the default is the identity |
| Matrix4.FromVecRows | src/matrix/mat4.rs:57-66 | `from_vec` stores its four vectors as rows 0–3; row 4 panics |
| Matrix4.EmbedAction | src/matrix/mat4.rs:71-124 | a padded 3×3 block acts on the first three coordinates as the block and keeps the fourth |
| Matrix4.AxisRotationsEmbed | src/matrix/mat4.rs:71-113 | the 4×4 x and z rotations are the 3×3 ones padded. As written, the 4×4 y rotation is the padded TRANSPOSE of the 3×3 one; the corrected one is the padded 3×3 |
| Matrix4.RotationYSignDiffers | src/matrix/mat4.rs:86-98 | as written, rotation about y maps z to (−sin, 0, cos), where the corrected one and `Mat3::rotation_y` give (sin, 0, cos) |
| Matrix4.Rotation | src/matrix/mat4.rs:116-124 | the 4×4 rotation about an axis is the 3×3 one padded |
| Matrix4.RotationIntendedFixesAxis | src/matrix/mat4.rs:116-124 | the corrected 4×4 rotation fixes the normalized axis and the fourth coordinate |
| Matrix4.TranslationMovesPoints | src/matrix/mat4.rs:127-136 | translation adds its offsets to points (w = 1) and leaves directions (w = 0) unchanged |
| Matrix4.ScaleAction | src/matrix/mat4.rs:139-148 | `scale(k)` multiplies x, y, z by k, keeps w, and is the padded 3×3 scale |
| Matrix4.DirectionalBuildersEmbed | src/matrix/mat4.rs:151-197 | `scale_arb` and `reflection` are the 3×3 ones padded |
| Matrix4.DirectionalBuildersIntendedAct | src/matrix/mat4.rs:151-197 | the corrected 4×4 `scale_arb` stretches the normalized axis by k, the corrected `reflection` negates it, and both keep w |
| Matrix4.ShearingXYAction | src/matrix/mat4.rs:200-209 | `shearing_xy(s, t)` adds s·z to x and t·z to y |
| Matrix4.ShearingXZAction | src/matrix/mat4.rs:212-221 | `shearing_xz(s, t)` adds s·y to x and t·y to z |
| Matrix4.ShearingYZAction | src/matrix/mat4.rs:224-233 | `shearing_yz(s, t)` adds s·x to y and t·x to z |
| Matrix4.PerspectiveMapsNear | src/matrix/mat4.rs:236-248 | a point at depth `near` maps to clip z = −near, w = near (depth −1 after division) |
| Matrix4.PerspectiveMapsFar | src/matrix/mat4.rs:236-248 | a point at depth `far` maps to clip z = far, w = far (depth 1 after division) |
| Matrix4.FrustumWidthDefect | src/matrix/mat4.rs:252-265 | as written, frustum(0, 2, −1, 1, 1, 2) maps the near right corner to x = 3 instead of 1 |
| Matrix4.FrustumIntendedMapsNearCorners | src/matrix/mat4.rs:252-265 | the corrected frustum maps the near corners (right, top) and (left, bottom) to clip (±near, ±near, −near, near) |
| Matrix4.OrthoMapsNearCorner | src/matrix/mat4.rs:268-281 | `ortho` maps the near lower-left corner to (−1, −1, −1) |
| Matrix4.OrthoMapsFarCorner | src/matrix/mat4.rs:268-281 | `ortho` maps the far upper-right corner to (1, 1, 1) |
| Matrix4.Transpost | src/matrix/mat4.rs:298-307 | `transpost`: the by-value loop, filling a copy of `Default`, returns the transpose |
| Matrix4.Transpose | src/matrix/mat4.rs:286-295 | `transpose`: the in-place loop through a temporary leaves the transpose in `self` |
| Matrix4.TransposeProperties | src/matrix/mat4.rs:286-307 | transposing twice gives the original; the identity is its own transpose |
| Matrix4.FillStruckOut | src/matrix/mat4.rs:315-331 | the minor's fill loop stores the kept entries of m, in order, into the 3×3 matrix |
| Matrix4.SubmatrixStruckOut | src/matrix/mat4.rs:315-331 | the filled 3×3 matrix is m with row i and column j struck out |
| Matrix4.Minor | src/matrix/mat4.rs:310-335 | `minor(i, j)` panics exactly when i > 3 or j > 3 |
| Matrix4.MinorIsDeterminant | src/matrix/mat4.rs:310-335 | a valid minor is the determinant of the struck-out submatrix |
| Matrix4.MinorLoop | src/matrix/mat4.rs:310-335 | the nested fill loop computes that same minor |
| Matrix4.PowNegOneParity | src/matrix/mat4.rs:337-339 | `(-1)^n` is 1 for even n and −1 for odd n |
| Matrix4.Cofactor | src/matrix/mat4.rs:337-339 | `cofactor(i, j)` panics exactly when the minor does |
| Matrix4.ColumnExpansion | src/matrix/mat4.rs:337-348 | weighting column j of m by the cofactors taken along column i gives the Leibniz determinant when i = j and 0 when i ≠ j |
| Matrix4.RowExpansion | src/matrix/mat4.rs:337-348 | the same expansion along rows: the determinant when i = j, 0 otherwise |
| Matrix4.CofactorTranspose | src/matrix/mat4.rs:310-339 | cofactor (j, i) of the transpose equals cofactor (i, j) of the matrix |
| Matrix4.LeibnizTranspose | src/matrix/mat4.rs:341-348 | transposing leaves the Leibniz determinant unchanged |
| Matrix4.DeterminantProperties | src/matrix/mat4.rs:341-348 | the column-0 expansion equals the Leibniz formula, is unchanged by transposition, is 1 on the identity and 0 on zero |
| Matrix4.DeterminantIsLeibniz | src/matrix/mat4.rs:341-348 | the column-0 cofactor expansion is the Leibniz determinant |
| Matrix4.AdjugateIsAdjugate | src/matrix/mat4.rs:358-364 | the loop stores cofactor (i, j) at [j][i] for every i, j |
| Matrix4.AdjugateEntry | src/matrix/mat4.rs:358-364 | entry [j][i] of the adjugate is cofactor (i, j) |
| Matrix4.AdjugateRightEntry | src/matrix/mat4.rs:337-364 | entry [i][j] of m times its adjugate is det m on the diagonal and 0 off it |
| Matrix4.AdjugateLeftEntry | src/matrix/mat4.rs:337-364 | the same for the adjugate times m |
| Matrix4.AdjugateProducts | src/matrix/mat4.rs:337-364 | m · adj(m) = adj(m) · m = det(m) · I |
| Matrix4.Inverse | src/matrix/mat4.rs:350-367 | `inverse` returns None exactly when the determinant is 0 |
| Matrix4.InverseEntries | src/matrix/mat4.rs:350-367 | entry [j][i] of the inverse is cofactor (i, j) divided by the determinant |
| Matrix4.InverseIsScaledAdjugate | src/matrix/mat4.rs:350-367 | the inverse is the adjugate scaled by 1 / det |
| Matrix4.InverseIsTwoSided | src/matrix/mat4.rs:350-367 | whenever `inverse` returns a matrix, that matrix is a two-sided inverse |
| Matrix4.InverseOfIdentity | src/matrix/mat4.rs:350-367 | the identity's inverse is the identity |
| Matrix4.InverseOfDefault | src/matrix/mat4.rs:350-367 | the default matrix's inverse is the default matrix |
| Quaternions.Mul | src/quaternions/mod.rs:135-144 | the Hamilton product; `MulComponents`, `MulAssociative` and `MulOne` characterise it |
| Quaternions.MulScalar | src/quaternions/mod.rs:146-155 | `q * k`: both parts scaled by k; `NegAndMulScalar` characterises it |
| Quaternions.Neg | src/quaternions/mod.rs:157-166 | `-q`: both parts negated; `NegAndMulScalar` shows it is (−1)·q |
| Quaternions.Conjugate | src/quaternions/mod.rs:32-37 | `conjugate`: w kept, v negated; `ConjugateInvolution`, `ConjugateOfProduct` and `MulConjugate` characterise it |
| Quaternions.Dot | src/quaternions/mod.rs:45-47 | `dot`: the four-term sum of products; `DotProperties` and `MulConjugate` (q·q̄ = (q·q, 0)) characterise it |
| Quaternions.DisplacementFrom | src/quaternions/mod.rs:40-42 | `displacement_from(other)`: other times the conjugate of self; `DisplacementCarries` shows it carries a unit self to other |
| Quaternions.Pow | src/quaternions/mod.rs:50-64 | `pow(exp)`; `PowKeepsAxis`, `PowBranch` and `PowOne` characterise it |
| Quaternions.Slerp | src/quaternions/mod.rs:66-101 | `slerp(other, t)`; `SlerpDefinedWhenLawful`, `SlerpNearlyParallel`, `SlerpSame` and `SlerpAntipodal` characterise it |
| Quaternions.IntoMat4 | src/quaternions/mod.rs:103-132 | `into_mat4`: the quadratic rotation formula padded to 4×4; `IntoMat4Padding`, `ColumnsOrthonormal` and `RowsOrthonormal` characterise it |
| Quaternions.RotationPart | src/quaternions/mod.rs:103-132 | the upper-left 3×3 of `into_mat4`; `RotationPartConjugate` shows the conjugate gives its transpose |
| Quaternions.MulComponents | src/quaternions/mod.rs:135-144 | the product's components are Hamilton's: `w = w₁w₂ − v₁·v₂`, `v = w₁v₂ + w₂v₁ + v₁×v₂`, component by component |
| Quaternions.MulAssociative | src/quaternions/mod.rs:135-144 | the quaternion product is associative |
| Quaternions.MulOne | src/quaternions/mod.rs:135-144 | the unit quaternion (1, 0) is a two-sided unit |
| Quaternions.MulConjugate | src/quaternions/mod.rs:32-47 | q times its conjugate, in either order, is the real quaternion (q·q, 0) |
| Quaternions.ConjugateInvolution | src/quaternions/mod.rs:32-37 | conjugating keeps w and negates v, so conjugating twice gives q |
| Quaternions.ConjugateOfProduct | src/quaternions/mod.rs:135-144 | the conjugate of a product is the product of the conjugates in reverse order |
| Quaternions.DotProperties | src/quaternions/mod.rs:45-47 | the dot product is symmetric, non-negative on q with itself, and negating one operand negates it |
| Quaternions.NegAndMulScalar | src/quaternions/mod.rs:146-166 | negation is scaling by −1; scaling twice multiplies the factors; scaling by 1 changes nothing |
| Quaternions.DisplacementCarries | src/quaternions/mod.rs:40-42 | for a unit self, the displacement from self to other, applied after self, gives other |
| Quaternions.PowKeepsAxis | src/quaternions/mod.rs:50-64 | `pow` keeps the rotation axis (the vector parts are parallel), and leaves q unchanged when abs(w) > 0.99999 |
| Quaternions.PowBranch | src/quaternions/mod.rs:50-64 | outside that branch, `pow` scales the vector part by sin(exp·α)/sin(α) where α = acos w |
| Quaternions.PowOne | src/quaternions/mod.rs:50-64 | the identity quaternion raised to any power is the identity |
| Quaternions.SlerpDefinedWhenLawful | src/quaternions/mod.rs:66-101 | with a lawful square root, slerp never divides by zero |
| Quaternions.SlerpNearlyParallel | src/quaternions/mod.rs:66-101 | when the clamped cosine exceeds 0.9999, slerp is the linear blend towards other, or towards −other when the dot is negative; at t = 0 it gives self |
| Quaternions.SlerpSame | src/quaternions/mod.rs:66-101 | slerp of a unit quaternion with itself gives it back for every t |
| Quaternions.SlerpAntipodal | src/quaternions/mod.rs:66-101 | slerp towards other and towards −other agree: q and −q are the same rotation |
| Quaternions.IntoMat4Padding | src/quaternions/mod.rs:103-132 | `into_mat4` is a 3×3 block padded with the identity |
| Quaternions.IntoMat4Neg | src/quaternions/mod.rs:103-132 | q and −q give the same matrix |
| Quaternions.IntoMat4One | src/quaternions/mod.rs:103-132 | the identity quaternion gives the identity matrix |
| Quaternions.RotationPartConjugate | src/quaternions/mod.rs:103-132 | the conjugate's rotation block is the transpose of q's |
| Quaternions.ColumnsOrthonormal | src/quaternions/mod.rs:103-132 | for a unit quaternion the rotation block R satisfies R·Rᵀ = I |
| Quaternions.RowsOrthonormal | src/quaternions/mod.rs:103-132 | for a unit quaternion Rᵀ·R = I as well |
| EulerAngles.New | src/euler.rs:21-23 | `new` stores yaw, pitch and row |
| EulerAngles.ClampedPitch | src/euler.rs:31-38 | pitch is −π/2 for sin ≤ −1, π/2 for sin ≥ 1, and asin in between |
| EulerAngles.FromMat3 | src/euler.rs:26-49 | as written: pitch from −m[1][2]; in gimbal lock (abs > 0.9999) row is 0 and yaw is −atan2(m[2][1], m[1][1]); otherwise row is atan2(m[1][0], m[1][1]) and yaw is atan2(m[1][2], m[2][2]) |
| EulerAngles.FromMat4 | src/euler.rs:51-74 | the same cases on the entries of a `Mat4` |
| EulerAngles.FromMat4IsBlock | src/euler.rs:26-74 | the `Mat4` conversion depends only on the upper 3×3 block and agrees with the `Mat3` conversion on it |
| EulerAngles.FromMat3Reads | src/euler.rs:26-49 | as written, the result depends only on entries [1][0], [1][1], [1][2], [2][1], [2][2] |
| EulerAngles.FromMat3LosesHeading | src/euler.rs:44-45 | as written, the rotations about y by a and by b with equal cosines (a and −a) convert to the same angles, with yaw atan2(0, cos a) |
| EulerAngles.FromMat3PitchInYaw | src/euler.rs:44-45 | as written, a pure rotation about x by a (outside gimbal lock) reports yaw atan2(sin a, cos a): the pitch leaks into yaw |
| EulerAngles.FromMat3Intended | src/euler.rs:26-49 | the corrected conversion reads yaw from atan2(m[0][2], m[2][2]); the other cases are as written |
| EulerAngles.FromMat4Intended | src/euler.rs:51-74 | the corrected `Mat4` conversion is the corrected `Mat3` one on the upper block |
| EulerAngles.IntendedSeparatesAxes | src/euler.rs:26-49 | after the correction, a rotation about y changes only yaw, one about z changes only row, and one about x (outside gimbal lock) reports equal yaw and row, atan2(0, cos a) |
| EulerAngles.FromQuaternion | src/euler.rs:76-99 | pitch sine is −2(yz − wx). Beyond 0.99999 in absolute value, row is 0 and pitch is π/2 times that sine. Otherwise pitch is its asin and yaw and row are the stated atan2 terms |
| EulerAngles.FromQuaternionNeg | src/euler.rs:76-99 | q and −q give the same Euler angles |
| EulerAngles.ConjugateMatrixEntries | src/euler.rs:79-95 | the entries of the conjugate's rotation block that the matrix conversion reads are twice the terms the quaternion conversion feeds to asin and atan2 |
| EulerAngles.IntendedMatchesQuaternion | src/euler.rs:26-99 | outside gimbal lock, if atan2 ignores a common factor 2, the corrected matrix conversion of the conjugate's rotation block equals the quaternion conversion |
| EulerAngles.IntendedMatchesIntoMat4 | src/euler.rs:51-99 | the same agreement through `into_mat4` and the corrected `Mat4` conversion |

## Left out

- IEEE-754 `f32` behaviour is not modelled: rounding, NaN, infinities and overflow. Scalars are exact reals.
  Wherever the Rust code divides, the model requires a nonzero divisor. Each such `requires` (for
  example `Vectors.Div`, `Vector3.Normalized`, `Matrix3.Projection`, `Matrix4.Perspective`, `Matrix4.Frustum`,
  `Matrix4.Ortho`) stands for a division that in Rust would produce an infinity or NaN.
- The trigonometric functions are unconstrained parameters. Properties that need trigonometric identities
  (a rotation preserving lengths, `pow` composing angles, `slerp` staying on the unit sphere) are not stated.
- Quaternions.PowKeepsAxis: proves only that the axis is kept and which branch runs, not that the angle is multiplied, because no trig identities are assumed.
- Quaternions.SlerpNearlyParallel: the spherical branch is proved only to avoid dividing by zero and to treat −other like other (SlerpAntipodal), not to interpolate along the great arc, for the same reason.
- EulerAngles.IntendedMatchesQuaternion: states the agreement only outside gimbal lock, and only for an `atan2` that ignores a common positive factor of both arguments. The gimbal branches use different thresholds (0.9999 and 0.99999) and different formulas, and are not compared.
- `Quaternion::new` and `Quaternion::magnitude` (src/quaternions/mod.rs:16-29) are not modelled: both are
  single calls to `sin`, `cos` and `sqrt` with nothing to prove without trigonometric identities. Unit
  quaternions are described by `Dot(q, q) == 1.0` instead.
- `Vec3::distance_to` (src/vectors/vec3.rs:66-89) is not modelled. It dispatches on CPU features to SSE2
  intrinsics through `unsafe` code.
- `as_ptr` on every type is left out: a raw pointer has no counterpart here.
- Matrix3.Determinant: mat3.rs defines no `determinant`, although `Mat4::minor` calls it. It is
  modelled as the cofactor expansion along row 0, which equals the Leibniz formula.
- The minor's fill loop writes `matrix_3[col][row]` with `col` as the slow counter. So the 3×3 matrix is the
  plain struck-out submatrix, and the model follows the code. The determinant would be the same either way.
- `Mat4::from_array` and `Mat2::zero` do not exist in the source and have no counterpart.
- The `#[cfg(test)]` tests in src/lib.rs are not modelled as tests. The properties they check
  (indexing, products with the identity, the inverse) appear as lemmas above.

## Findings

| source | as written | input that shows it | evidently intended | confidence | as-written member | corrected member |
|---|---|---|---|---|---|---|
| src/matrix/mat3.rs:201,212 | entry [1][0] of `transpose`/`transpost` copies m[1][0] instead of m[0][1], so m[0][1] is lost | the matrix whose only nonzero entry is [0][1] = 1 transposes to zero | the transpose, an involution | high, not executed | Matrix3.TranspostIsNotTranspose | Matrix3.TranspostIntendedIsTranspose |
| src/vectors/vec2.rs:24 | `dot` takes the square root of `x·x' + y·y'` | dot((2, 0), (2, 0)) = 2 instead of 4 | the plain inner product, as in `Vec3`/`Vec4` | high, not executed | Vector2.DotIsNotInnerProduct | Vector2.DotIntendedProperties |
| src/vectors/vec2.rs:32 | `normalize` adds the factor to y (`y += k`) instead of dividing | normalize((0, 1)) = (0, 2) | divide both components by the magnitude, like `normalized` | high, not executed | Vector2.NormalizeDisagrees | Vector2.NormalizeIntendedAgrees |
| src/matrix/mat4.rs:92 | `rotation_y` places sin with the opposite sign to `Mat3::rotation_y` | any angle with sin ≠ 0: z maps to (−sin, 0, cos) | the padded `Mat3::rotation_y`, mapping z to (sin, 0, cos) | medium, not executed | Matrix4.RotationYSignDiffers | Matrix4.AxisRotationsEmbed |
| src/matrix/mat3.rs:124 | entry [0][2] of `rotation` uses `n.z` where the Rodrigues formula needs `n.y` | axis (0.6, 0, 0.8), any angle with sin ≠ 0: the axis moves | the axis is fixed | high, not executed | Matrix3.RotationMovesAxis | Matrix3.RotationIntendedFixesAxis |
| src/matrix/mat3.rs:154; src/matrix/mat4.rs:155 | the diagonal of `scale_arb` is `(1 + (k − 1))·u_i²`, that is `k·u_i²`, where `1 + (k − 1)·u_i²` is needed | axis x: y maps to 0 | `I + (k − 1)·u·uᵀ`: stretch along u, fix the plane | high, not executed | Matrix3.ScaleArbCollapses | Matrix3.ScaleArbIntendedStretches |
| src/matrix/mat3.rs:175; src/matrix/mat4.rs:185 | entry [1][2] of `reflection` uses `n.x·n.z` instead of `n.y·n.z` | normal (0, 0.6, 0.8): [1][2] = 0 but [2][1] = −0.96 | `I − 2·u·uᵀ`, symmetric | high, not executed | Matrix3.ReflectionAsymmetric | Matrix3.ReflectionIntendedMirrors |
| src/matrix/mat4.rs:259 | `frustum` divides by `right − 1.0` instead of `right − left` | frustum(0, 2, −1, 1, 1, 2): near right corner maps to x = 3 | near corners map to ±near in clip space | high, not executed | Matrix4.FrustumWidthDefect | Matrix4.FrustumIntendedMapsNearCorners |
| src/euler.rs:45,70 | the non-gimbal yaw reads `mat[1][2]` (the pitch sine) instead of `mat[0][2]` | `rotation_y(a)` and `rotation_y(−a)` give the same angles; `rotation_x(a)` reports its angle as yaw | yaw from [0][2], agreeing with the quaternion conversion | high, not executed | EulerAngles.FromMat3LosesHeading | EulerAngles.IntendedMatchesQuaternion |
