/**
 * 4×4 matrices as the WEBGL renderer exposes them: 16 reals in column-major
 * order, entry (row, col) at index col * 4 + row. IEEE float rounding is not
 * modelled; entries are reals.
 */
module Matrix {

  type Mat4 = m: seq<real> | |m| == 16
    witness [1.0, 0.0, 0.0, 0.0, 0.0, 1.0, 0.0, 0.0, 0.0, 0.0, 1.0, 0.0, 0.0, 0.0, 0.0, 1.0]

  /** Entry (row, col) of a column-major matrix. */
  function Get(m: Mat4, row: nat, col: nat): real
    requires row < 4 && col < 4
  {
    m[col * 4 + row]
  }

  /** The 4×4 identity: its diagonal entries sit at flat indices 0, 5, 10 and 15. */
  const Identity: Mat4 := seq(16, i => if i % 5 == 0 then 1.0 else 0.0)

  /** A homogeneous point or clip-space vector. */
  datatype Vec4 = Vec4(x: real, y: real, z: real, w: real)

  /** Row `row` of m dotted with v: component `row` of m applied to v. */
  function RowDot(m: Mat4, row: nat, v: Vec4): real
    requires row < 4
  {
    Get(m, row, 0) * v.x + Get(m, row, 1) * v.y + Get(m, row, 2) * v.z + Get(m, row, 3) * v.w
  }

  /** m applied to v (column-major: column c of m scales component c of v). */
  function Transform(m: Mat4, v: Vec4): Vec4
  {
    Vec4(RowDot(m, 0, v), RowDot(m, 1, v), RowDot(m, 2, v), RowDot(m, 3, v))
  }

  /** Column `col` of m as a vector. */
  function Column(m: Mat4, col: nat): Vec4
    requires col < 4
  {
    Vec4(Get(m, 0, col), Get(m, 1, col), Get(m, 2, col), Get(m, 3, col))
  }

  /** Σ_{k < n} a(row, k) · b(k, col), added in the order the innermost loop of multMat4 adds them. */
  function PartialDot(a: Mat4, b: Mat4, row: nat, col: nat, n: nat): real
    requires row < 4 && col < 4 && n <= 4
  {
    if n == 0 then 0.0
    else PartialDot(a, b, row, col, n - 1) + Get(a, row, n - 1) * Get(b, n - 1, col)
  }

  /** The matrix product a · b, column-major like its operands. */
  function Product(a: Mat4, b: Mat4): Mat4
  {
    seq(16, i requires 0 <= i < 16 => PartialDot(a, b, i % 4, i / 4, 4))
  }

  /** The entry of a · b at flat index col * 4 + row is the sum the inner loop of multMat4 accumulates. */
  lemma ProductAt(a: Mat4, b: Mat4, row: nat, col: nat)
    requires row < 4 && col < 4
    ensures Product(a, b)[col * 4 + row] == PartialDot(a, b, row, col, 4)
  {
    var i := col * 4 + row;
    assert i % 4 == row && i / 4 == col;
  }

  /** Entry (row, col) of a · b is the dot product of row `row` of a with column `col` of b. */
  lemma ProductEntry(a: Mat4, b: Mat4, row: nat, col: nat)
    requires row < 4 && col < 4
    ensures Get(Product(a, b), row, col) == RowDot(a, row, Column(b, col))
  {
    var i := col * 4 + row;
    assert i % 4 == row && i / 4 == col;
    assert PartialDot(a, b, row, col, 1) == Get(a, row, 0) * Get(b, 0, col);
    assert PartialDot(a, b, row, col, 2) == PartialDot(a, b, row, col, 1) + Get(a, row, 1) * Get(b, 1, col);
    assert PartialDot(a, b, row, col, 3) == PartialDot(a, b, row, col, 2) + Get(a, row, 2) * Get(b, 2, col);
    assert PartialDot(a, b, row, col, 4) == PartialDot(a, b, row, col, 3) + Get(a, row, 3) * Get(b, 3, col);
  }

  /** multMat4: a fresh 16-entry array holding a · b; a and b are only read. */
  method MultMat4(a: array<real>, b: array<real>) returns (out: array<real>)
    requires a.Length == 16 && b.Length == 16
    ensures fresh(out) && out.Length == 16
    ensures out[..] == Product(a[..], b[..])
  {
    ghost var sa, sb := a[..], b[..];
    ghost var p := Product(sa, sb);
    out := new real[16](_ => 0.0);
    for col := 0 to 4
      invariant forall i :: 0 <= i < col * 4 ==> out[i] == p[i]
    {
      for row := 0 to 4
        invariant forall i :: 0 <= i < col * 4 + row ==> out[i] == p[i]
      {
        var sum := 0.0;
        for k := 0 to 4
          invariant sum == PartialDot(sa, sb, row, col, k)
        {
          sum := sum + a[k * 4 + row] * b[col * 4 + k];
        }
        ProductAt(sa, sb, row, col);
        out[col * 4 + row] := sum;
      }
    }
    assert forall i :: 0 <= i < 16 ==> out[..][i] == p[i];
  }

  lemma IdentityEntry(row: nat, col: nat)
    requires row < 4 && col < 4
    ensures Get(Identity, row, col) == (if row == col then 1.0 else 0.0)
  {
  }

  /** The identity is neutral on both sides of the product. */
  lemma ProductIdentity(m: Mat4)
    ensures Product(Identity, m) == m
    ensures Product(m, Identity) == m
  {
    var l, r := Product(Identity, m), Product(m, Identity);
    forall i | 0 <= i < 16 ensures l[i] == m[i] && r[i] == m[i] {
      var row, col := i % 4, i / 4;
      assert i == col * 4 + row;
      ProductEntry(Identity, m, row, col);
      ProductEntry(m, Identity, row, col);
      forall k: nat | k < 4
        ensures Get(Identity, row, k) == (if row == k then 1.0 else 0.0)
        ensures Get(Identity, k, col) == (if k == col then 1.0 else 0.0)
      {
        IdentityEntry(row, k);
        IdentityEntry(k, col);
      }
    }
  }

  /** The identity leaves every vector unchanged. */
  lemma TransformIdentity(v: Vec4)
    ensures Transform(Identity, v) == v
  {
    forall row: nat, col: nat | row < 4 && col < 4
      ensures Get(Identity, row, col) == (if row == col then 1.0 else 0.0)
    {
      IdentityEntry(row, col);
    }
  }

  function Add(u: Vec4, w: Vec4): Vec4
  {
    Vec4(u.x + w.x, u.y + w.y, u.z + w.z, u.w + w.w)
  }

  function Scale(s: real, u: Vec4): Vec4
  {
    Vec4(u.x * s, u.y * s, u.z * s, u.w * s)
  }

  /** m · v is the combination of the columns of m weighted by the components of v. */
  lemma TransformByColumns(m: Mat4, v: Vec4)
    ensures Transform(m, v) == Add(Add(Add(Scale(v.x, Column(m, 0)), Scale(v.y, Column(m, 1))),
                                       Scale(v.z, Column(m, 2))), Scale(v.w, Column(m, 3)))
  {
    var s0, s1, s2, s3 := Scale(v.x, Column(m, 0)), Scale(v.y, Column(m, 1)), Scale(v.z, Column(m, 2)), Scale(v.w, Column(m, 3));
    AddFour(s0, s1, s2, s3);
    RowsByColumns(m, v);
  }

  /** Each clip component, written as a sum over the columns of m. */
  lemma RowsByColumns(m: Mat4, v: Vec4)
    ensures var s0, s1, s2, s3 := Scale(v.x, Column(m, 0)), Scale(v.y, Column(m, 1)), Scale(v.z, Column(m, 2)), Scale(v.w, Column(m, 3));
      && RowDot(m, 0, v) == s0.x + s1.x + s2.x + s3.x
      && RowDot(m, 1, v) == s0.y + s1.y + s2.y + s3.y
      && RowDot(m, 2, v) == s0.z + s1.z + s2.z + s3.z
      && RowDot(m, 3, v) == s0.w + s1.w + s2.w + s3.w
  {
  }

  lemma AddFour(a: Vec4, b: Vec4, c: Vec4, d: Vec4)
    ensures Add(Add(Add(a, b), c), d) == Vec4(a.x + b.x + c.x + d.x, a.y + b.y + c.y + d.y, a.z + b.z + c.z + d.z, a.w + b.w + c.w + d.w)
  {
  }

  /** Column `col` of a · b is a applied to column `col` of b. */
  lemma ProductColumn(a: Mat4, b: Mat4, col: nat)
    requires col < 4
    ensures Column(Product(a, b), col) == Transform(a, Column(b, col))
  {
    ProductEntry(a, b, 0, col);
    ProductEntry(a, b, 1, col);
    ProductEntry(a, b, 2, col);
    ProductEntry(a, b, 3, col);
  }

  lemma TransformAdd(m: Mat4, u: Vec4, w: Vec4)
    ensures Transform(m, Add(u, w)) == Add(Transform(m, u), Transform(m, w))
  {
  }

  lemma RowDotScale(m: Mat4, row: nat, s: real, u: Vec4)
    requires row < 4
    ensures RowDot(m, row, Scale(s, u)) == RowDot(m, row, u) * s
  {
    var m0, m1, m2, m3 := Get(m, row, 0), Get(m, row, 1), Get(m, row, 2), Get(m, row, 3);
    assert m0 * (u.x * s) == (m0 * u.x) * s;
    assert m1 * (u.y * s) == (m1 * u.y) * s;
    assert m2 * (u.z * s) == (m2 * u.z) * s;
    assert m3 * (u.w * s) == (m3 * u.w) * s;
  }

  lemma TransformScale(m: Mat4, s: real, u: Vec4)
    ensures Transform(m, Scale(s, u)) == Scale(s, Transform(m, u))
  {
    RowDotScale(m, 0, s, u);
    RowDotScale(m, 1, s, u);
    RowDotScale(m, 2, s, u);
    RowDotScale(m, 3, s, u);
  }

  /** Applying the combined matrix a · b is applying b, then a. */
  lemma TransformProduct(a: Mat4, b: Mat4, v: Vec4)
    ensures Transform(Product(a, b), v) == Transform(a, Transform(b, v))
  {
    var p := Product(a, b);
    var c0, c1, c2, c3 := Column(b, 0), Column(b, 1), Column(b, 2), Column(b, 3);
    ProductColumn(a, b, 0);
    ProductColumn(a, b, 1);
    ProductColumn(a, b, 2);
    ProductColumn(a, b, 3);
    TransformByColumns(p, v);
    TransformByColumns(b, v);
    var s0, s1, s2 := Add(Scale(v.x, c0), Scale(v.y, c1)), Add(Add(Scale(v.x, c0), Scale(v.y, c1)), Scale(v.z, c2)), Scale(v.w, c3);
    TransformAdd(a, Scale(v.x, c0), Scale(v.y, c1));
    TransformAdd(a, s0, Scale(v.z, c2));
    TransformAdd(a, s1, s2);
    TransformScale(a, v.x, c0);
    TransformScale(a, v.y, c1);
    TransformScale(a, v.z, c2);
    TransformScale(a, v.w, c3);
  }
}
