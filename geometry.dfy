/**
 * The renderer's geometry vocabulary, kept symbolic.
 *
 * Matrix products, rectangle dilation and the bounding box of a transformed
 * rectangle belong to the geometry library and are not part of this model:
 * each is a constructor, so the model records WHICH transform was applied to
 * WHAT, and in which order, without computing coordinates.
 */
module Geometry {

  datatype Vector2F = Vector2F(x: real, y: real)

  const Zero: Vector2F := Vector2F(0.0, 0.0)

  /** An affine 2-D transform; `Product(a, b)` is `a * b`. */
  datatype Transform2F =
    | Identity
    | FromScale(factor: Vector2F)
    | FromTranslation(offset: Vector2F)
      // `Transform2F::from_scale(from.inv() * to)`: the scale taking a box of
      // size `from` onto one of size `to`, kept symbolic so that a zero size
      // (an infinite factor in f32) is a transform like any other
    | FitScale(from: Vector2F, to: Vector2F)
    | Product(lhs: Transform2F, rhs: Transform2F)

  /** `Transform2F::default()`. */
  const DefaultTransform: Transform2F := Identity

  /** `Transform2F::from_scale(s)` for a uniform scale. */
  function UniformScale(s: real): Transform2F {
    FromScale(Vector2F(s, s))
  }

  /** The abstract product `a * b` of two transforms. */
  function Mul(a: Transform2F, b: Transform2F): Transform2F {
    Product(a, b)
  }

  /**
   * An axis-aligned rectangle: a resolved one (`RectF::new(origin, size)`),
   * a dilated one (`rect.dilate(amount)`) or the image of one under a
   * transform (`transform * rect`).
   */
  datatype RectF =
    | FromOriginSize(origin: Vector2F, size: Vector2F)
    | Dilated(inner: RectF, amount: real)
    | Image(transform: Transform2F, inner: RectF)

  /** A rectangle given directly by its origin and size. */
  type ResolvedRect = r: RectF | r.FromOriginSize? witness FromOriginSize(Zero, Zero)

  function Width(r: ResolvedRect): real { r.size.x }

  function Height(r: ResolvedRect): real { r.size.y }

  datatype LineCap = Butt | Square | Round

  datatype LineJoin = Miter(limit: real) | Bevel | RoundJoin

  datatype StrokeStyle = StrokeStyle(lineWidth: real, lineCap: LineCap, lineJoin: LineJoin)

  datatype FillRule = Winding | EvenOdd
}
