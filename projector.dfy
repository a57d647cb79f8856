/**
 * worldToScreen: projects a world point through projection · model-view to
 * pixel coordinates (origin top-left, Y down). The renderer lookup is replaced
 * by the two matrices as parameters: None stands for a missing renderer or a
 * missing uPMatrix / uMVMatrix. The viewport size is a parameter too.
 */
module Projector {

  import opened Wrappers
  import opened Matrix

  /** The perspective-divide guard: |w| below this makes the point unprojectable. */
  const Epsilon: real := 0.00000001

  /** The sketch returns {x: NaN, y: NaN, z: Infinity} for Invalid. */
  datatype ScreenPoint = Invalid | Screen(x: real, y: real, depth: real)

  function Abs(r: real): real
  {
    if r < 0.0 then -r else r
  }

  /** Clip coordinates of the world point (x, y, z, 1) under mvp. */
  function Clip(mvp: Mat4, x: real, y: real, z: real): Vec4
  {
    Transform(mvp, Vec4(x, y, z, 1.0))
  }

  /** t · w lies between 0 and w when t is a fraction in [0, 1] and w is not negative. */
  lemma ScaleWithin(t: real, w: real)
    requires 0.0 <= t <= 1.0 && 0.0 <= w
    ensures 0.0 <= t * w <= w
  {
    assert w - t * w == (1.0 - t) * w;
  }

  /** Normalised device X in [-1, 1] lands in [0, width], left to right. */
  function PixelX(ndcX: real, width: real): (sx: real)
    ensures -1.0 <= ndcX <= 1.0 && 0.0 <= width ==> 0.0 <= sx <= width
    ensures ndcX == -1.0 ==> sx == 0.0
    ensures ndcX == 1.0 ==> sx == width
  {
    var t := ndcX * 0.5 + 0.5;
    if -1.0 <= ndcX <= 1.0 && 0.0 <= width then ScaleWithin(t, width); t * width
    else t * width
  }

  /** Normalised device Y in [-1, 1] lands in [0, height], flipped: NDC +1 is the top row. */
  function PixelY(ndcY: real, height: real): (sy: real)
    ensures -1.0 <= ndcY <= 1.0 && 0.0 <= height ==> 0.0 <= sy <= height
    ensures ndcY == 1.0 ==> sy == 0.0
    ensures ndcY == -1.0 ==> sy == height
  {
    var t := -ndcY * 0.5 + 0.5;
    if -1.0 <= ndcY <= 1.0 && 0.0 <= height then ScaleWithin(t, height); t * height
    else t * height
  }

  function WorldToScreen(p: Option<Mat4>, mv: Option<Mat4>, width: real, height: real,
                         x: real, y: real, z: real): ScreenPoint
  {
    if p.None? || mv.None? then Invalid
    else Project(Product(p.value, mv.value), width, height, x, y, z)
  }

  /** Everything worldToScreen does once the combined matrix mvp = projection · model-view is known. */
  function Project(mvp: Mat4, width: real, height: real, x: real, y: real, z: real): ScreenPoint
  {
    var c := Clip(mvp, x, y, z);
    if Abs(c.w) < Epsilon then Invalid
    else Screen(PixelX(c.x / c.w, width), PixelY(c.y / c.w, height), c.z / c.w)
  }

  /**
   * Reference definition: move the point to eye space with the model-view
   * matrix, then to clip space with the projection, then divide and map.
   */
  function ProjectInTwoSteps(p: Mat4, mv: Mat4, width: real, height: real,
                             x: real, y: real, z: real): ScreenPoint
  {
    var e := Transform(mv, Vec4(x, y, z, 1.0));
    var c := Transform(p, e);
    if Abs(c.w) < Epsilon then Invalid
    else Screen(PixelX(c.x / c.w, width), PixelY(c.y / c.w, height), c.z / c.w)
  }

  /**
   * Projecting with the combined matrix agrees with the two-step reference,
   * so the result is Invalid exactly when a matrix is missing or the clip w
   * of the point is within Epsilon of zero.
   */
  lemma WorldToScreenIsTwoStepProjection(p: Option<Mat4>, mv: Option<Mat4>, width: real, height: real,
                                         x: real, y: real, z: real)
    ensures p.None? || mv.None? ==> WorldToScreen(p, mv, width, height, x, y, z) == Invalid
    ensures p.Some? && mv.Some? ==>
      WorldToScreen(p, mv, width, height, x, y, z) == ProjectInTwoSteps(p.value, mv.value, width, height, x, y, z)
  {
    if p.Some? && mv.Some? {
      TransformProduct(p.value, mv.value, Vec4(x, y, z, 1.0));
    }
  }

  /** The invalid result comes exactly from a missing matrix or a degenerate w. */
  lemma InvalidExactlyWhenDegenerate(p: Mat4, mv: Mat4, width: real, height: real, x: real, y: real, z: real)
    ensures WorldToScreen(Some(p), Some(mv), width, height, x, y, z).Invalid?
        <==> Abs(Transform(p, Transform(mv, Vec4(x, y, z, 1.0))).w) < Epsilon
  {
    TransformProduct(p, mv, Vec4(x, y, z, 1.0));
  }

  /** A valid projection whose NDC lies in the unit cube falls inside the viewport. */
  lemma VisibleNdcInsideViewport(p: Mat4, mv: Mat4, width: real, height: real, x: real, y: real, z: real)
    requires 0.0 <= width && 0.0 <= height
    requires WorldToScreen(Some(p), Some(mv), width, height, x, y, z).Screen?
    ensures var c := Clip(Product(p, mv), x, y, z);
      -1.0 <= c.x / c.w <= 1.0 && -1.0 <= c.y / c.w <= 1.0 ==>
        var s := WorldToScreen(Some(p), Some(mv), width, height, x, y, z);
        0.0 <= s.x <= width && 0.0 <= s.y <= height
  {
  }

  /** Y is flipped: a point higher in NDC lands on a smaller pixel row, while X keeps its direction. */
  lemma PixelAxes(n1: real, n2: real, width: real, height: real)
    requires n1 < n2 && 0.0 < width && 0.0 < height
    ensures PixelX(n1, width) < PixelX(n2, width)
    ensures PixelY(n1, height) > PixelY(n2, height)
  {
    var d := (n2 - n1) * 0.5;
    assert d * width > 0.0 && d * height > 0.0;
    assert PixelX(n2, width) - PixelX(n1, width) == d * width;
    assert PixelY(n1, height) - PixelY(n2, height) == d * height;
  }

  /** Dividing a multiple of w by w gives the factor back. */
  lemma DivCancel(a: real, t: real, w: real)
    requires w != 0.0 && a == t * w
    ensures a / w == t
  {
    var q := a / w;
    assert q * w == a;
    assert (q - t) * w == 0.0;
  }

  /** The pixel mapping loses nothing: NDC is recovered from the pixel coordinates. */
  lemma PixelMappingInvertible(ndcX: real, ndcY: real, width: real, height: real)
    requires width != 0.0 && height != 0.0
    ensures 2.0 * PixelX(ndcX, width) / width - 1.0 == ndcX
    ensures 1.0 - 2.0 * PixelY(ndcY, height) / height == ndcY
  {
    var tx, ty := ndcX * 0.5 + 0.5, -ndcY * 0.5 + 0.5;
    var sx, sy := PixelX(ndcX, width), PixelY(ndcY, height);
    assert sx == tx * width && sy == ty * height;
    assert 2.0 * sx == (2.0 * tx) * width;
    assert 2.0 * sy == (2.0 * ty) * height;
    DivCancel(2.0 * sx, 2.0 * tx, width);
    DivCancel(2.0 * sy, 2.0 * ty, height);
  }

  /** With an identity combined matrix the origin lands on the viewport centre at depth 0. */
  lemma OriginToCentre(width: real, height: real)
    ensures Project(Identity, width, height, 0.0, 0.0, 0.0) == Screen(width / 2.0, height / 2.0, 0.0)
  {
    TransformIdentity(Vec4(0.0, 0.0, 0.0, 1.0));
  }

  /** With an identity combined matrix, (1, 0, 0) lands on the right edge, strictly right of centre. */
  lemma UnitXToRightEdge(width: real, height: real)
    requires 0.0 < width
    ensures var s := Project(Identity, width, height, 1.0, 0.0, 0.0);
      s == Screen(width, height / 2.0, 0.0) && s.x > width / 2.0
  {
    TransformIdentity(Vec4(1.0, 0.0, 0.0, 1.0));
  }

  /** Identity projection and identity view: the origin still lands on the viewport centre. */
  lemma IdentityCameraCentre(width: real, height: real)
    ensures WorldToScreen(Some(Identity), Some(Identity), width, height, 0.0, 0.0, 0.0)
         == Screen(width / 2.0, height / 2.0, 0.0)
  {
    ProductIdentity(Identity);
    OriginToCentre(width, height);
  }
}
