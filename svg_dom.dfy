/**
 * The parsed document the compiler reads: paints, lengths, clip-path
 * attributes and the item tree with its registry of named items. The
 * parser that builds these values is not part of this model; the contents of
 * the individual element tags are kept opaque.
 */
module SvgDom {
  import opened Wrappers

  datatype Color = Color(red: int, green: int, blue: int)

  const Black: Color := Color(0, 0, 0)

  /** `Paint::None`, `Paint::Color(c)` or `Paint::Ref(id)`. */
  datatype Paint = PaintNone | PaintColor(color: Color) | PaintRef(id: string)

  /** `Paint::black()`. */
  const BlackPaint: Paint := PaintColor(Black)

  /** A paint is visible unless it is `Paint::None`. */
  predicate IsVisible(p: Paint) {
    !p.PaintNone?
  }

  /** `ClipPathAttr::None` or `ClipPathAttr::Ref(id)`. */
  datatype ClipPathAttr = NoClipPath | ClipRef(id: string)

  /** The unit tag of a length; `Unitless` is `LengthUnit::None`. */
  datatype LengthUnit = Unitless | Cm | Em | Ex | In | Mm | Pc | Percent | Pt | Px

  datatype Length = Length(num: real, unit: LengthUnit)

  /** The units the resolver handles; `Em`, `Ex` and `Pc` abort the compile. */
  predicate Supported(u: LengthUnit) {
    !(u.Em? || u.Ex? || u.Pc?)
  }

  /** A pair of lengths, x then y. */
  datatype Vector = Vector(x: Length, y: Length)

  /** A rectangle written in lengths, as a `viewBox` attribute gives it. */
  datatype Rect = Rect(x: Length, y: Length, width: Length, height: Length) {
    function Origin(): Vector { Vector(x, y) }
    function Size(): Vector { Vector(width, height) }
  }

  /** The opaque content of an element tag (its attributes, path data, children). */
  datatype TagData = TagData(id: nat)

  /** The root `<svg>` element: an optional view box and optional width and height. */
  datatype TagSvg = TagSvg(viewBox: Option<Rect>, width: Option<Length>, height: Option<Length>, content: TagData)

  datatype Item =
    | Path(path: TagData)
    | G(g: TagData)
    | RectShape(rect: TagData)
    | Polygon(polygon: TagData)
    | Polyline(polyline: TagData)
    | Line(line: TagData)
    | Ellipse(ellipse: TagData)
    | Circle(circle: TagData)
    | Svg(svg: TagSvg)
    | Use(reference: TagData)
    | Text(text: TagData)
    | LinearGradient(linear: TagData)
    | RadialGradient(radial: TagData)
    | ClipPath(clip: TagData)
    | Filter(filter: TagData)

  /** A parsed document: the root item and the registry of items by id. */
  datatype SvgDocument = SvgDocument(root: Item, namedItems: map<string, Item>)
}
