/**
 * Per-item dispatch and the document-level entry points, from
 * draw/src/lib.rs. How each drawable tag draws itself and computes its
 * bounds lives in the tags' own implementations, which are not part of this
 * model: they are the `TagImpls` parameter.
 */
module DrawSvg {
  import opened Wrappers
  import opened Geometry
  import opened SvgDom
  import opened Cascade
  import opened SceneModel

  /** The item kinds the dispatch hands to their tag; every other kind falls through. */
  predicate IsDrawable(item: Item) {
    || item.Path? || item.G? || item.RectShape? || item.Polygon? || item.Polyline?
    || item.Line? || item.Ellipse? || item.Circle? || item.Svg? || item.Use? || item.Text?
  }

  /**
   * The tags' own behaviour: the records a tag appends to a scene holding
   * the given records, and its bounds.
   */
  datatype TagImpls = TagImpls(
    drawTo: (Item, DrawOptions, seq<SceneOp>) -> seq<SceneOp>,
    bounds: (Item, DrawOptions) -> Option<RectF>)

  /** The records `Item::draw_to` appends: the tag's own, or none for a kind outside the list. */
  function ItemOps(tags: TagImpls, item: Item, options: DrawOptions, before: seq<SceneOp>): (r: seq<SceneOp>)
    ensures !IsDrawable(item) ==> r == []
    ensures IsDrawable(item) ==> r == tags.drawTo(item, options, before)
  {
    if IsDrawable(item) then tags.drawTo(item, options, before) else []
  }

  /** `Item::bounds`: the tag's bounds, or none for a kind outside the list. */
  function ItemBounds(tags: TagImpls, item: Item, options: DrawOptions): (r: Option<RectF>)
    ensures !IsDrawable(item) ==> r.None?
    ensures IsDrawable(item) ==> r == tags.bounds(item, options)
  {
    if IsDrawable(item) then tags.bounds(item, options) else None
  }

  /**
   * Gradients, clip-path definitions and filters are not drawn in place:
   * whatever the tags do, they add nothing to the scene and have no bounds.
   */
  lemma DefinitionsDrawNothing(tags: TagImpls, item: Item, options: DrawOptions, before: seq<SceneOp>)
    requires item.LinearGradient? || item.RadialGradient? || item.ClipPath? || item.Filter?
    ensures ItemOps(tags, item, options, before) == []
    ensures ItemBounds(tags, item, options).None?
  {
  }

  /** `Item::draw_to`: dispatches to the item's tag, or does nothing. */
  method DrawItemTo(tags: TagImpls, item: Item, scene: Scene, options: DrawOptions)
    modifies scene
    ensures scene.ops == old(scene.ops) + ItemOps(tags, item, options, old(scene.ops))
    ensures scene.viewBox == old(scene.viewBox)
  {
    if IsDrawable(item) {
      var added := tags.drawTo(item, options, scene.ops);
      scene.ops := scene.ops + added;
    }
  }

  /** `DrawSvg`: a document ready to be compiled. Fallback fonts are not part of this model. */
  datatype DrawSvg = DrawSvg(svg: SvgDocument)

  /** `DrawSvg::ctx`: the document's context at the default DPI. */
  function Ctx(d: DrawSvg): (ctx: DrawContext)
    ensures ctx.namedItems == d.svg.namedItems && ctx.dpi == DefaultDpi
  {
    NewContext(d.svg)
  }

  /** The size an explicit view box asks for: width and height, each defaulting to the view box's. */
  function ExplicitSize(d: DrawSvg): Option<Vector> {
    match d.svg.root
    case Svg(TagSvg(Some(r), width, height, _)) => Some(Vector(width.UnwrapOr(r.width), height.UnwrapOr(r.height)))
    case _ => None
  }

  /** The explicit size uses units the resolver supports. */
  predicate SizeSupported(d: DrawSvg) {
    ExplicitSize(d).Some? ==> Supported(ExplicitSize(d).value.x.unit) && Supported(ExplicitSize(d).value.y.unit)
  }

  /**
   * `DrawSvg::view_box`: a root `<svg>` with an explicit view box whose size
   * resolves under default options gives a rectangle of that size at the
   * origin; otherwise the root's bounds under default options.
   */
  function ViewBox(d: DrawSvg, tags: TagImpls): (r: Option<RectF>)
    requires SizeSupported(d)
    ensures var o := NewOptions(Ctx(d));
      ExplicitSize(d).Some? && VectorResolves(o, ExplicitSize(d).value) ==>
        r == Some(FromOriginSize(Zero, ResolveVector(o, ExplicitSize(d).value)))
    ensures var o := NewOptions(Ctx(d));
      !(ExplicitSize(d).Some? && VectorResolves(o, ExplicitSize(d).value)) ==>
        r == ItemBounds(tags, d.svg.root, o)
  {
    var options := NewOptions(Ctx(d));
    match ExplicitSize(d)
    case Some(size) =>
      (match TryResolveVector(options, size)
       case Some(s) => Some(FromOriginSize(Zero, s))
       case None => ItemBounds(tags, d.svg.root, options))
    case None => ItemBounds(tags, d.svg.root, options)
  }

  /** Pixel width and height give a view box of exactly that size at the origin. */
  lemma ViewBoxOfPixelSize(d: DrawSvg, tags: TagImpls, vb: Rect, w: real, h: real, content: TagData)
    requires d.svg.root == Svg(TagSvg(Some(vb), Some(Length(w, Px)), Some(Length(h, Px)), content))
    ensures ViewBox(d, tags) == Some(FromOriginSize(Zero, Vector2F(w, h)))
  {
    var o := NewOptions(Ctx(d));
    assert ExplicitSize(d) == Some(Vector(Length(w, Px), Length(h, Px)));
    assert ResolveLengthAlong(o, Length(w, Px), X) == Some(w);
    assert ResolveLengthAlong(o, Length(h, Px), Y) == Some(h);
  }

  /**
   * A percentage width cannot resolve under default options (they carry no
   * view box), so the computed view box falls back to the root's bounds.
   */
  lemma ViewBoxPercentFallsBack(d: DrawSvg, tags: TagImpls)
    requires SizeSupported(d) && ExplicitSize(d).Some? && ExplicitSize(d).value.x.unit == Percent
    ensures ViewBox(d, tags) == ItemBounds(tags, d.svg.root, NewOptions(Ctx(d)))
  {
  }

  /** The scene view box for a computed view box: mapped by the compile transform. */
  function SceneViewBox(vb: Option<RectF>, transform: Transform2F): (r: Option<RectF>)
    ensures r.Some? <==> vb.Some?
    ensures r.Some? ==> r.value == Image(transform, vb.value)
  {
    match vb
    case Some(v) => Some(Image(transform, v))
    case None => None
  }

  /**
   * `DrawSvg::compose_with_options`: a new scene whose view box is the
   * computed view box under the options' transform (unset when there is
   * none), holding what the root draws under `options`.
   */
  method ComposeWithOptions(d: DrawSvg, options: DrawOptions, tags: TagImpls) returns (scene: Scene)
    requires SizeSupported(d)
    ensures fresh(scene)
    ensures scene.viewBox == SceneViewBox(ViewBox(d, tags), options.transform)
    ensures scene.ops == ItemOps(tags, d.svg.root, options, [])
  {
    scene := new Scene();
    var vb := ViewBox(d, tags);
    if vb.Some? {
      scene.SetViewBox(Image(options.transform, vb.value));
    }
    DrawItemTo(tags, d.svg.root, scene, options);
  }

  /** The options of `compose_with_transform`: the defaults with only the transform replaced. */
  function TransformOptions(d: DrawSvg, transform: Transform2F): (o: DrawOptions)
    ensures o.transform == transform
    ensures o.(transform := NewOptions(Ctx(d)).transform) == NewOptions(Ctx(d))
  {
    NewOptions(Ctx(d)).(transform := transform)
  }

  /** `DrawSvg::compose_with_transform`: compiles under default options with the given transform. */
  method ComposeWithTransform(d: DrawSvg, transform: Transform2F, tags: TagImpls) returns (scene: Scene)
    requires SizeSupported(d)
    ensures fresh(scene)
    ensures scene.viewBox == SceneViewBox(ViewBox(d, tags), transform)
    ensures scene.ops == ItemOps(tags, d.svg.root, TransformOptions(d, transform), [])
  {
    var options := NewOptions(Ctx(d));
    options := options.(transform := transform);
    scene := ComposeWithOptions(d, options, tags);
  }

  /** `DrawSvg::compose`: compiles with the identity transform. */
  method Compose(d: DrawSvg, tags: TagImpls) returns (scene: Scene)
    requires SizeSupported(d)
    ensures fresh(scene)
    ensures scene.viewBox == SceneViewBox(ViewBox(d, tags), DefaultTransform)
    ensures scene.ops == ItemOps(tags, d.svg.root, TransformOptions(d, DefaultTransform), [])
  {
    scene := ComposeWithTransform(d, DefaultTransform, tags);
  }

  /**
   * `DrawSvg::compose_with_viewbox`: the given view box replaces the
   * computed one, mapped by the default transform; the root draws under
   * default options.
   */
  method ComposeWithViewbox(d: DrawSvg, viewBox: RectF, tags: TagImpls) returns (scene: Scene)
    ensures fresh(scene)
    ensures scene.viewBox == Some(Image(NewOptions(Ctx(d)).transform, viewBox))
    ensures scene.ops == ItemOps(tags, d.svg.root, NewOptions(Ctx(d)), [])
  {
    var options := NewOptions(Ctx(d));
    scene := new Scene();
    scene.SetViewBox(Image(options.transform, viewBox));
    DrawItemTo(tags, d.svg.root, scene, options);
  }

  /** `DrawSvg::compose_to_with_transform`: draws into an existing scene, leaving its view box alone. */
  method ComposeToWithTransform(d: DrawSvg, scene: Scene, transform: Transform2F, tags: TagImpls)
    modifies scene
    ensures scene.ops == old(scene.ops) + ItemOps(tags, d.svg.root, TransformOptions(d, transform), old(scene.ops))
    ensures scene.viewBox == old(scene.viewBox)
  {
    var options := NewOptions(Ctx(d));
    options := options.(transform := transform);
    DrawItemTo(tags, d.svg.root, scene, options);
  }

  /** A glyph defined as a small vector document: its document and the item to draw. */
  datatype SvgGlyph = SvgGlyph(svg: SvgDocument, item: Item)

  /**
   * The options of `draw_glyph`: the glyph document's defaults, with the
   * given transform followed by a vertical flip.
   */
  function GlyphOptions(glyph: SvgGlyph, transform: Transform2F): (o: DrawOptions)
    ensures o.transform == Mul(transform, FromScale(Vector2F(1.0, -1.0)))
    ensures o.(transform := UniformScale(10.0)) == NewOptions(NewContext(glyph.svg))
  {
    NewOptions(NewContext(glyph.svg)).(transform := Mul(transform, FromScale(Vector2F(1.0, -1.0))))
  }

  /** `draw_glyph`: draws the glyph's item into an existing scene under `GlyphOptions`. */
  method DrawGlyph(glyph: SvgGlyph, scene: Scene, transform: Transform2F, tags: TagImpls)
    modifies scene
    ensures scene.ops == old(scene.ops) + ItemOps(tags, glyph.item, GlyphOptions(glyph, transform), old(scene.ops))
    ensures scene.viewBox == old(scene.viewBox)
  {
    var ctx := NewContext(glyph.svg);
    var options := NewOptions(ctx);
    options := options.(transform := Mul(transform, FromScale(Vector2F(1.0, -1.0))));
    DrawItemTo(tags, glyph.item, scene, options);
  }
}
