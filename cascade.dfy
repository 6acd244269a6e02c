/**
 * The inherited style record (`DrawOptions`) and its draw context, from
 * src/draw.rs: building a child record from a parent and an element's
 * attributes, reference lookup, length resolution and bounds.
 */
module Cascade {
  import opened Wrappers
  import opened Geometry
  import opened SvgDom

  /** Read-only per-compile context: the named-item registry and the DPI. */
  datatype DrawContext = DrawContext(namedItems: map<string, Item>, dpi: real)

  const DefaultDpi: real := 75.0

  /** `DrawContext::new`: the document's registry at 75 DPI. */
  function NewContext(svg: SvgDocument): (ctx: DrawContext)
    ensures ctx.namedItems == svg.namedItems
    ensures ctx.dpi == 75.0
  {
    DrawContext(svg.namedItems, DefaultDpi)
  }

  /** `DrawContext::resolve`: the item named `id`, or nothing. */
  function Resolve(ctx: DrawContext, id: string): (r: Option<Item>)
    ensures r.Some? <==> id in ctx.namedItems
    ensures r.Some? ==> r.value == ctx.namedItems[id]
  {
    if id in ctx.namedItems then Some(ctx.namedItems[id]) else None
  }

  /** `DrawContext::resolve_href`: only a `#`-prefixed reference resolves. */
  function ResolveHref(ctx: DrawContext, href: string): (r: Option<Item>)
    ensures r.Some? <==> |href| > 0 && href[0] == '#' && href[1..] in ctx.namedItems
    ensures r.Some? ==> r.value == ctx.namedItems[href[1..]]
  {
    if |href| > 0 && href[0] == '#' then Resolve(ctx, href[1..]) else None
  }

  /** Writing `#id` is the same as looking `id` up directly. */
  lemma ResolveHrefOfFragment(ctx: DrawContext, id: string)
    ensures ResolveHref(ctx, "#" + id) == Resolve(ctx, id)
  {
    assert ("#" + id)[1..] == id;
  }

  /** An animation time; compiles sample it once. */
  datatype Time = Time(seconds: real)

  /** `Time::start()`. */
  const Start: Time := Time(0.0)

  /** The cascading style snapshot threaded down the element tree. */
  datatype DrawOptions = DrawOptions(
    ctx: DrawContext,
    fill: Paint,
    fillRule: FillRule,
    fillOpacity: real,
    stroke: Paint,
    strokeStyle: StrokeStyle,
    strokeOpacity: real,
    opacity: real,
    transform: Transform2F,
    clipPath: ClipPathAttr,
    clipRule: FillRule,
    viewBox: Option<ResolvedRect>,
    time: Time)

  /** `DrawOptions::new`: the root style of a compile. */
  function NewOptions(ctx: DrawContext): (o: DrawOptions)
    ensures o.ctx == ctx && o.opacity == 1.0
    ensures o.fill == BlackPaint && o.fillRule == EvenOdd && o.fillOpacity == 1.0
    ensures o.stroke == PaintNone && o.strokeOpacity == 1.0
    ensures o.strokeStyle == StrokeStyle(1.0, Butt, Bevel)
    ensures o.transform == UniformScale(10.0)
    ensures o.clipPath == NoClipPath && o.clipRule == EvenOdd
    ensures o.viewBox == None && o.time == Start
  {
    DrawOptions(ctx, BlackPaint, EvenOdd, 1.0, PaintNone, StrokeStyle(1.0, Butt, Bevel), 1.0,
                1.0, UniformScale(10.0), NoClipPath, EvenOdd, None, Start)
  }

  /**
   * An element's presentation attributes. The optional ones are plain
   * values; `transform`, `fill` and `stroke` are read through an attribute
   * machinery that is not part of this model, so they are functions of the
   * parent options.
   */
  datatype Attrs = Attrs(
    clipPath: Option<ClipPathAttr>,
    clipRule: Option<FillRule>,
    opacity: Option<real>,
    transform: DrawOptions -> Transform2F,
    fill: DrawOptions -> Paint,
    fillRule: Option<FillRule>,
    fillOpacity: Option<real>,
    stroke: DrawOptions -> Paint,
    strokeWidth: Option<Length>,
    strokeOpacity: Option<real>)

  /** `DrawOptions::apply`: the child style derived from `o` and an element's attributes. */
  function Apply(o: DrawOptions, attrs: Attrs): (r: DrawOptions)
    // opacity multiplies; a missing attribute counts as 1
    ensures attrs.opacity.Some? ==> r.opacity == o.opacity * attrs.opacity.value
    ensures attrs.opacity.None? ==> r.opacity == o.opacity
    // overridden when the attribute is present, inherited otherwise
    ensures r.clipPath == (if attrs.clipPath.Some? then attrs.clipPath.value else o.clipPath)
    ensures r.clipRule == (if attrs.clipRule.Some? then attrs.clipRule.value else o.clipRule)
    ensures r.fillRule == (if attrs.fillRule.Some? then attrs.fillRule.value else o.fillRule)
    ensures r.fillOpacity == (if attrs.fillOpacity.Some? then attrs.fillOpacity.value else o.fillOpacity)
    ensures r.strokeOpacity == (if attrs.strokeOpacity.Some? then attrs.strokeOpacity.value else o.strokeOpacity)
    // stroke width replaces only the line width, and only its number is used
    ensures r.strokeStyle.lineCap == o.strokeStyle.lineCap && r.strokeStyle.lineJoin == o.strokeStyle.lineJoin
    ensures r.strokeStyle.lineWidth == (if attrs.strokeWidth.Some? then attrs.strokeWidth.value.num else o.strokeStyle.lineWidth)
    // the attribute transform is local: inherited first, then the element's
    ensures r.transform == Mul(o.transform, attrs.transform(o))
    ensures r.fill == attrs.fill(o) && r.stroke == attrs.stroke(o)
    // copied unchanged
    ensures r.ctx == o.ctx && r.viewBox == o.viewBox && r.time == o.time
  {
    var strokeStyle :=
      if attrs.strokeWidth.Some? then o.strokeStyle.(lineWidth := attrs.strokeWidth.value.num)
      else o.strokeStyle;
    o.(clipPath := attrs.clipPath.UnwrapOr(o.clipPath),
       clipRule := attrs.clipRule.UnwrapOr(o.clipRule),
       opacity := o.opacity * attrs.opacity.UnwrapOr(1.0),
       transform := Mul(o.transform, attrs.transform(o)),
       fill := attrs.fill(o),
       fillRule := attrs.fillRule.UnwrapOr(o.fillRule),
       fillOpacity := attrs.fillOpacity.UnwrapOr(o.fillOpacity),
       stroke := attrs.stroke(o),
       strokeStyle := strokeStyle,
       strokeOpacity := attrs.strokeOpacity.UnwrapOr(o.strokeOpacity))
  }

  /** Attributes that override nothing (their getters hand back the parent's values). */
  predicate Inherits(o: DrawOptions, attrs: Attrs) {
    && attrs.clipPath.None? && attrs.clipRule.None? && attrs.opacity.None?
    && attrs.fillRule.None? && attrs.fillOpacity.None? && attrs.strokeWidth.None?
    && attrs.strokeOpacity.None?
    && attrs.fill(o) == o.fill && attrs.stroke(o) == o.stroke
  }

  /**
   * An element that overrides nothing inherits its parent's style
   * wholesale; only the transform is extended.
   */
  lemma ApplyInheritsEverything(o: DrawOptions, attrs: Attrs)
    requires Inherits(o, attrs)
    ensures Apply(o, attrs) == o.(transform := Mul(o.transform, attrs.transform(o)))
  {
  }

  /** The style at the end of an ancestor chain, root first. */
  function ApplyAll(o: DrawOptions, chain: seq<Attrs>): DrawOptions
    decreases |chain|
  {
    if |chain| == 0 then o else ApplyAll(Apply(o, chain[0]), chain[1..])
  }

  /**
   * Multiplication of two opacities. The chain lemmas below reason about
   * products through this name, so that the solver treats each product as a
   * term rather than as nonlinear arithmetic.
   */
  function Times(a: real, b: real): real {
    a * b
  }

  /** The product of the opacity attributes along a chain, a missing one counting as 1. */
  function OpacityProduct(chain: seq<Attrs>): real
    decreases |chain|
  {
    if |chain| == 0 then 1.0 else Times(chain[0].opacity.UnwrapOr(1.0), OpacityProduct(chain[1..]))
  }

  /** The opacity reached from `p` along a chain, multiplying in one attribute at a time. */
  function FoldOpacity(p: real, chain: seq<Attrs>): real
    decreases |chain|
  {
    if |chain| == 0 then p else FoldOpacity(Times(p, chain[0].opacity.UnwrapOr(1.0)), chain[1..])
  }

  /**
   * Opacity composes multiplicatively across the ancestor chain: the
   * opacity at the end of a chain is the root's opacity times every opacity
   * attribute on the way, never one child's raw value.
   */
  lemma OpacityAlongChain(o: DrawOptions, chain: seq<Attrs>)
    ensures ApplyAll(o, chain).opacity == o.opacity * OpacityProduct(chain)
  {
    OpacityFollowsFold(o, chain);
    FoldIsProduct(o.opacity, chain);
  }

  lemma {:induction false} OpacityFollowsFold(o: DrawOptions, chain: seq<Attrs>)
    ensures ApplyAll(o, chain).opacity == FoldOpacity(o.opacity, chain)
    decreases |chain|
  {
    if |chain| > 0 {
      var child := Apply(o, chain[0]);
      assert ApplyAll(o, chain) == ApplyAll(child, chain[1..]);
      assert child.opacity == Times(o.opacity, chain[0].opacity.UnwrapOr(1.0));
      OpacityFollowsFold(child, chain[1..]);
    }
  }

  lemma {:induction false} FoldIsProduct(p: real, chain: seq<Attrs>)
    ensures FoldOpacity(p, chain) == Times(p, OpacityProduct(chain))
    decreases |chain|
  {
    if |chain| > 0 {
      var f := chain[0].opacity.UnwrapOr(1.0);
      assert FoldOpacity(p, chain) == FoldOpacity(Times(p, f), chain[1..]);
      assert OpacityProduct(chain) == Times(f, OpacityProduct(chain[1..]));
      FoldIsProduct(Times(p, f), chain[1..]);
      TimesAssociates(p, f, OpacityProduct(chain[1..]));
    } else {
      assert Times(p, 1.0) == p;
    }
  }

  lemma TimesAssociates(a: real, b: real, c: real)
    ensures Times(Times(a, b), c) == Times(a, Times(b, c))
  {
  }

  /** Opacities in [0, 1] along a chain keep the resulting opacity in [0, 1]. */
  lemma {:induction false} OpacityStaysInUnitRange(o: DrawOptions, chain: seq<Attrs>)
    requires 0.0 <= o.opacity <= 1.0
    requires forall i :: 0 <= i < |chain| && chain[i].opacity.Some? ==> 0.0 <= chain[i].opacity.value <= 1.0
    ensures 0.0 <= ApplyAll(o, chain).opacity <= 1.0
    decreases |chain|
  {
    if |chain| > 0 {
      var child := Apply(o, chain[0]);
      var f := chain[0].opacity.UnwrapOr(1.0);
      assert 0.0 <= f <= 1.0;
      assert 0.0 <= o.opacity * f <= o.opacity * 1.0;
      OpacityStaysInUnitRange(child, chain[1..]);
    }
  }

  /** The context, the view box and the time pass unchanged down any chain. */
  lemma {:induction false} ChainKeepsContext(o: DrawOptions, chain: seq<Attrs>)
    ensures ApplyAll(o, chain).ctx == o.ctx
    ensures ApplyAll(o, chain).viewBox == o.viewBox
    ensures ApplyAll(o, chain).time == o.time
    decreases |chain|
  {
    if |chain| > 0 {
      ChainKeepsContext(Apply(o, chain[0]), chain[1..]);
    }
  }

  /**
   * An explicit fill rule holds for all descendants that do not override
   * it again.
   */
  lemma {:induction false} FillRuleOverrideIsInherited(o: DrawOptions, attrs: Attrs, chain: seq<Attrs>)
    requires attrs.fillRule.Some?
    requires forall i :: 0 <= i < |chain| ==> chain[i].fillRule.None?
    ensures ApplyAll(Apply(o, attrs), chain).fillRule == attrs.fillRule.value
    decreases |chain|
  {
    if |chain| > 0 {
      var child := Apply(o, attrs);
      var grandchild := Apply(child, chain[0]);
      assert grandchild.fillRule == attrs.fillRule.value;
      var again := chain[0].(fillRule := attrs.fillRule);
      assert Apply(child, again) == grandchild;
      FillRuleOverrideIsInherited(child, again, chain[1..]);
    }
  }

  /** `DrawOptions::transform`: appends a transform to the current one. */
  function WithTransform(o: DrawOptions, t: Transform2F): (r: DrawOptions)
    ensures r.transform == Mul(o.transform, t)
    ensures r.(transform := o.transform) == o
  {
    o.(transform := Mul(o.transform, t))
  }

  datatype Axis = X | Y

  /** `DrawOptions::resolve_length`: a length in user units; a percentage never resolves. */
  function ResolveLength(o: DrawOptions, length: Length): (r: Option<real>)
    requires Supported(length.unit)
    ensures r.None? <==> length.unit == Percent
    ensures length.unit == Unitless || length.unit == Px ==> r.value == length.num
    ensures length.unit == In ==> r.value == length.num * o.ctx.dpi
    ensures length.unit == Cm ==> r.value == length.num * (o.ctx.dpi / 2.54)
    ensures length.unit == Mm ==> r.value == length.num * (o.ctx.dpi / 25.4)
    ensures length.unit == Pt ==> r.value == length.num * (o.ctx.dpi / 75.0)
  {
    var scale :=
      match length.unit
      case Unitless => 1.0
      case Cm => o.ctx.dpi / 2.54
      case In => o.ctx.dpi
      case Mm => o.ctx.dpi / 25.4
      case Percent => 0.0
      case Pt => o.ctx.dpi / 75.0
      case Px => 1.0;
    if length.unit == Percent then None else Some(length.num * scale)
  }

  /**
   * `DrawOptions::resolve_length_along`: like `ResolveLength`, except that
   * a percentage resolves to the current view box's width (along X) or
   * height (along Y). As written, the percentage's own number is not used.
   */
  function ResolveLengthAlong(o: DrawOptions, length: Length, axis: Axis): (r: Option<real>)
    requires Supported(length.unit)
    ensures length.unit == Percent ==> (r.Some? <==> o.viewBox.Some?)
    ensures length.unit == Percent && r.Some? ==>
      r.value == (if axis == X then Width(o.viewBox.value) else Height(o.viewBox.value))
    ensures length.unit != Percent ==> r == ResolveLength(o, length)
  {
    if length.unit == Percent then
      match o.viewBox
      case None => None
      case Some(vb) => Some(if axis == X then Width(vb) else Height(vb))
    else
      ResolveLength(o, length)
  }

  /**
   * The absolute units agree with each other at every DPI:
   * 1in = 2.54cm = 25.4mm = 75pt.
   */
  lemma AbsoluteUnitsAgree(o: DrawOptions)
    ensures ResolveLength(o, Length(1.0, In)) == ResolveLength(o, Length(2.54, Cm))
    ensures ResolveLength(o, Length(1.0, In)) == ResolveLength(o, Length(25.4, Mm))
    ensures ResolveLength(o, Length(1.0, In)) == ResolveLength(o, Length(75.0, Pt))
  {
    var dpi := o.ctx.dpi;
    assert ResolveLength(o, Length(1.0, In)).value == dpi;
    assert ResolveLength(o, Length(2.54, Cm)).value == 2.54 * (dpi / 2.54) == dpi;
    assert ResolveLength(o, Length(25.4, Mm)).value == 25.4 * (dpi / 25.4) == dpi;
    assert ResolveLength(o, Length(75.0, Pt)).value == 75.0 * (dpi / 75.0) == dpi;
  }

  /**
   * A percentage along an axis resolves to the same value whatever its
   * number: 50% and 100% of a view box 200 wide both give 200.
   */
  lemma PercentIgnoresItsNumber(o: DrawOptions, a: real, b: real, axis: Axis)
    ensures ResolveLengthAlong(o, Length(a, Percent), axis) == ResolveLengthAlong(o, Length(b, Percent), axis)
  {
  }

  /** Without a view box a percentage is unresolved along both axes. */
  lemma PercentNeedsViewBox(o: DrawOptions, n: real, axis: Axis)
    ensures ResolveLengthAlong(o, Length(n, Percent), axis).None? <==> o.viewBox.None?
  {
  }

  /** Resolution is linear in the length's number, for every non-percentage unit. */
  lemma ResolveLengthIsLinear(o: DrawOptions, a: real, b: real, unit: LengthUnit)
    requires Supported(unit) && unit != Percent
    ensures ResolveLength(o, Length(a + b, unit)).value
         == ResolveLength(o, Length(a, unit)).value + ResolveLength(o, Length(b, unit)).value
  {
    var ra, rb := ResolveLength(o, Length(a, unit)).value, ResolveLength(o, Length(b, unit)).value;
    var s := if unit == Unitless || unit == Px then 1.0 else if unit == In then o.ctx.dpi
             else if unit == Cm then o.ctx.dpi / 2.54 else if unit == Mm then o.ctx.dpi / 25.4
             else o.ctx.dpi / 75.0;
    assert ra == a * s && rb == b * s;
    assert (a + b) * s == a * s + b * s;
  }

  /** Both components of a vector resolve along their axes. */
  predicate VectorResolves(o: DrawOptions, v: Vector) {
    && Supported(v.x.unit) && Supported(v.y.unit)
    && ResolveLengthAlong(o, v.x, X).Some? && ResolveLengthAlong(o, v.y, Y).Some?
  }

  /** `DrawOptions::resolve_vector`: x along X, y along Y. */
  function ResolveVector(o: DrawOptions, v: Vector): (r: Vector2F)
    requires VectorResolves(o, v)
    ensures Some(r.x) == ResolveLengthAlong(o, v.x, X)
    ensures Some(r.y) == ResolveLengthAlong(o, v.y, Y)
  {
    Vector2F(ResolveLengthAlong(o, v.x, X).value, ResolveLengthAlong(o, v.y, Y).value)
  }

  /** `Vector::try_resolve`: the resolved vector when both components resolve. */
  function TryResolveVector(o: DrawOptions, v: Vector): (r: Option<Vector2F>)
    requires Supported(v.x.unit) && Supported(v.y.unit)
    ensures r.Some? <==> VectorResolves(o, v)
    ensures r.Some? ==> r.value == ResolveVector(o, v)
  {
    if VectorResolves(o, v) then Some(ResolveVector(o, v)) else None
  }

  /** `DrawOptions::resolve_rect`: a resolved rectangle of the resolved origin and size. */
  function ResolveRect(o: DrawOptions, rect: Rect): (r: ResolvedRect)
    requires VectorResolves(o, rect.Origin()) && VectorResolves(o, rect.Size())
    ensures r.origin == ResolveVector(o, rect.Origin()) && r.size == ResolveVector(o, rect.Size())
  {
    FromOriginSize(ResolveVector(o, rect.Origin()), ResolveVector(o, rect.Size()))
  }

  /** What `apply_viewbox` needs: every length of the view box and of the size resolves. */
  predicate ViewboxApplies(o: DrawOptions, size: Vector, viewBox: Rect) {
    && VectorResolves(o, viewBox.Origin()) && VectorResolves(o, viewBox.Size())
    && VectorResolves(o, size)
  }

  /**
   * `DrawOptions::apply_viewbox`: maps the view box onto a viewport of the
   * given size (scale the view box's size onto the viewport size, after
   * moving the view box's origin to zero) and makes it the current view box. Both are resolved
   * against the view box in force before the call.
   */
  function ApplyViewbox(o: DrawOptions, size: Vector, viewBox: Rect): (r: DrawOptions)
    requires ViewboxApplies(o, size, viewBox)
    ensures r.viewBox == Some(ResolveRect(o, viewBox))
    ensures
      var vb := ResolveRect(o, viewBox);
      var s := ResolveVector(o, size);
      r.transform == Mul(Mul(o.transform, FitScale(vb.size, s)),
                         FromTranslation(Vector2F(-vb.origin.x, -vb.origin.y)))
    ensures r.(transform := o.transform, viewBox := o.viewBox) == o
  {
    var vb := ResolveRect(o, viewBox);
    var s := ResolveVector(o, size);
    o.(transform := Mul(Mul(o.transform, FitScale(vb.size, s)),
                        FromTranslation(Vector2F(-vb.origin.x, -vb.origin.y))),
       viewBox := Some(vb))
  }

  /**
   * After a view box is applied, percentages resolve against it: along X
   * to its resolved width, along Y to its resolved height.
   */
  lemma PercentAfterViewbox(o: DrawOptions, size: Vector, viewBox: Rect, n: real)
    requires ViewboxApplies(o, size, viewBox)
    ensures ResolveLengthAlong(ApplyViewbox(o, size, viewBox), Length(n, Percent), X)
         == ResolveLengthAlong(o, viewBox.width, X)
    ensures ResolveLengthAlong(ApplyViewbox(o, size, viewBox), Length(n, Percent), Y)
         == ResolveLengthAlong(o, viewBox.height, Y)
  {
  }

  /** The fill channel is visible: a visible paint with positive opacity. */
  predicate HasFill(o: DrawOptions) {
    IsVisible(o.fill) && o.fillOpacity > 0.0
  }

  /** The stroke channel is visible: a visible paint with positive opacity. */
  predicate HasStroke(o: DrawOptions) {
    IsVisible(o.stroke) && o.strokeOpacity > 0.0
  }

  /**
   * `DrawOptions::bounds`: a visible stroke widens the transformed box by the
   * line width; otherwise a visible fill gives the transformed box; with
   * neither channel visible there are no bounds.
   */
  function Bounds(o: DrawOptions, rect: RectF): (r: Option<RectF>)
    ensures r.None? <==> !HasStroke(o) && !HasFill(o)
    ensures HasStroke(o) ==> r == Some(Image(o.transform, Dilated(rect, o.strokeStyle.lineWidth)))
    ensures !HasStroke(o) && HasFill(o) ==> r == Some(Image(o.transform, rect))
  {
    if HasStroke(o) then Some(Image(o.transform, Dilated(rect, o.strokeStyle.lineWidth)))
    else if HasFill(o) then Some(Image(o.transform, rect))
    else None
  }

  /**
   * Bounds do not depend on the overall opacity, the clip or the fill rule:
   * only the two channels' paints and opacities, the line width and the
   * transform decide them.
   */
  lemma BoundsIgnoreGroupState(o: DrawOptions, o': DrawOptions, rect: RectF)
    requires o'.fill == o.fill && o'.fillOpacity == o.fillOpacity
    requires o'.stroke == o.stroke && o'.strokeOpacity == o.strokeOpacity
    requires o'.strokeStyle.lineWidth == o.strokeStyle.lineWidth && o'.transform == o.transform
    ensures Bounds(o', rect) == Bounds(o, rect)
  {
  }
}
