/**
 * The output scene, as far as the compiler sees it: an append-only sequence
 * of tagged records (paints, clip paths, draw paths) plus an optional view
 * box. Ids handed out for paints and clip paths are the position of the
 * record among the records of its kind.
 */
module SceneModel {
  import opened Wrappers
  import opened Geometry
  import opened SvgDom
  import opened Cascade

  /** A renderer paint: a solid color at an opacity, or a gradient built from its definition. */
  datatype ScenePaint =
    | SolidPaint(color: Color, opacity: real)
    | GradientPaint(definition: Item, options: DrawOptions, opacity: real)

  /** A resolved outline, kept symbolic. */
  datatype Outline =
    | ShapeOutline(shape: nat)
    | TransformedOutline(outline: Outline, transform: Transform2F)
    | StrokedOutline(outline: Outline, style: StrokeStyle)
    | ClipPathOutline(definition: TagData, options: DrawOptions)

  type PaintId = nat

  type ClipPathId = nat

  datatype SceneClipPath = SceneClipPath(outline: Outline, fillRule: FillRule)

  /** A draw path; a `fillRule` of `None` leaves the renderer's default in place. */
  datatype DrawPath = DrawPath(outline: Outline, paint: PaintId, fillRule: Option<FillRule>, clipPath: Option<ClipPathId>)

  datatype SceneOp = PaintOp(paint: ScenePaint) | ClipOp(clip: SceneClipPath) | PathOp(path: DrawPath)

  /** The number of paint records in `ops`. */
  function PaintCount(ops: seq<SceneOp>): nat
    decreases |ops|
  {
    if ops == [] then 0 else PaintCount(ops[..|ops| - 1]) + (if ops[|ops| - 1].PaintOp? then 1 else 0)
  }

  /** The number of clip-path records in `ops`. */
  function ClipCount(ops: seq<SceneOp>): nat
    decreases |ops|
  {
    if ops == [] then 0 else ClipCount(ops[..|ops| - 1]) + (if ops[|ops| - 1].ClipOp? then 1 else 0)
  }

  /** Counting records distributes over appending. */
  lemma {:induction false} CountsAppend(a: seq<SceneOp>, b: seq<SceneOp>)
    ensures PaintCount(a + b) == PaintCount(a) + PaintCount(b)
    ensures ClipCount(a + b) == ClipCount(a) + ClipCount(b)
    decreases |b|
  {
    if b != [] {
      var b' := b[..|b| - 1];
      assert (a + b)[..|a + b| - 1] == a + b';
      CountsAppend(a, b');
    } else {
      assert a + b == a;
    }
  }

  /** Every draw path refers to a paint and a clip path recorded before it. */
  predicate WellFormed(ops: seq<SceneOp>) {
    forall k :: 0 <= k < |ops| && ops[k].PathOp? ==>
      && ops[k].path.paint < PaintCount(ops[..k])
      && (ops[k].path.clipPath.Some? ==> ops[k].path.clipPath.value < ClipCount(ops[..k]))
  }

  class Scene {
    var ops: seq<SceneOp>
    var viewBox: Option<RectF>

    /** `Scene::new`: empty, with no view box. */
    constructor ()
      ensures ops == [] && viewBox == None
    {
      ops := [];
      viewBox := None;
    }

    /** `Scene::push_paint`: records a paint and returns its id. */
    method PushPaint(paint: ScenePaint) returns (id: PaintId)
      modifies this
      ensures ops == old(ops) + [PaintOp(paint)] && viewBox == old(viewBox)
      ensures id == PaintCount(old(ops))
    {
      id := PaintCount(ops);
      ops := ops + [PaintOp(paint)];
    }

    /** `Scene::push_clip_path`: records a clip path and returns its id. */
    method PushClipPath(clip: SceneClipPath) returns (id: ClipPathId)
      modifies this
      ensures ops == old(ops) + [ClipOp(clip)] && viewBox == old(viewBox)
      ensures id == ClipCount(old(ops))
    {
      id := ClipCount(ops);
      ops := ops + [ClipOp(clip)];
    }

    /** `Scene::push_draw_path`: records a draw path. */
    method PushDrawPath(path: DrawPath)
      modifies this
      ensures ops == old(ops) + [PathOp(path)] && viewBox == old(viewBox)
    {
      ops := ops + [PathOp(path)];
    }

    /** `Scene::set_view_box`. */
    method SetViewBox(r: RectF)
      modifies this
      ensures viewBox == Some(r) && ops == old(ops)
    {
      viewBox := Some(r);
    }
  }
}
