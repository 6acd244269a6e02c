/**
 * Resolving paints and clip paths against the registry and emitting the
 * draw operations of one outline, from src/draw.rs.
 */
module Draw {
  import opened Wrappers
  import opened Geometry
  import opened SvgDom
  import opened Cascade
  import opened SceneModel

  predicate IsGradient(item: Item) {
    item.LinearGradient? || item.RadialGradient?
  }

  /**
   * `DrawOptions::resolve_paint`: a color always resolves; a reference
   * resolves only to a linear or radial gradient; `Paint::None`, a missing
   * id or a target of another kind give nothing. The paint's own opacity is
   * multiplied by the cascade's opacity.
   */
  function ResolvePaint(o: DrawOptions, paint: Paint, opacity: real): (r: Option<ScenePaint>)
    ensures r.Some? <==>
      paint.PaintColor? || (paint.PaintRef? && paint.id in o.ctx.namedItems && IsGradient(o.ctx.namedItems[paint.id]))
    ensures paint.PaintColor? ==> r.value == SolidPaint(paint.color, opacity * o.opacity)
    ensures paint.PaintRef? && r.Some? ==>
      r.value == GradientPaint(o.ctx.namedItems[paint.id], o, opacity * o.opacity)
  {
    var opacity := opacity * o.opacity;
    match paint
    case PaintColor(c) => Some(SolidPaint(c, opacity))
    case PaintRef(id) =>
      if id in o.ctx.namedItems && IsGradient(o.ctx.namedItems[id]) then
        Some(GradientPaint(o.ctx.namedItems[id], o, opacity))
      else
        None
    case PaintNone => None
  }

  /** A reference to something that is not there, or not a gradient, is not drawn. */
  lemma DanglingPaintIsNotDrawn(o: DrawOptions, id: string, opacity: real)
    requires id !in o.ctx.namedItems || !IsGradient(o.ctx.namedItems[id])
    ensures ResolvePaint(o, PaintRef(id), opacity).None?
  {
  }

  /** The clip-path definition the cascade refers to, when it exists and is one. */
  function ClipTarget(o: DrawOptions): (r: Option<TagData>)
    ensures r.Some? <==>
      o.clipPath.ClipRef? && o.clipPath.id in o.ctx.namedItems && o.ctx.namedItems[o.clipPath.id].ClipPath?
    ensures r.Some? ==> o.ctx.namedItems[o.clipPath.id] == ClipPath(r.value)
  {
    match o.clipPath
    case NoClipPath => None
    case ClipRef(id) =>
      match Resolve(o.ctx, id)
      case Some(ClipPath(p)) => Some(p)
      case _ => None
  }

  /** The records `clip_path_id` appends: the built clip path with the clip rule, or nothing. */
  function ClipOps(o: DrawOptions): (r: seq<SceneOp>)
    ensures |r| <= 1
    ensures |r| == 1 <==> ClipTarget(o).Some?
    ensures |r| == 1 ==> r[0] == ClipOp(SceneClipPath(ClipPathOutline(ClipTarget(o).value, o), o.clipRule))
  {
    match ClipTarget(o)
    case Some(p) => [ClipOp(SceneClipPath(ClipPathOutline(p, o), o.clipRule))]
    case None => []
  }

  /** The id `clip_path_id` returns on a scene holding `before`. */
  function ClipId(o: DrawOptions, before: seq<SceneOp>): Option<ClipPathId> {
    if ClipTarget(o).Some? then Some(ClipCount(before)) else None
  }

  /**
   * `DrawOptions::clip_path_id`: registers the referenced clip path, built
   * under this cascade and with its clip rule, and returns its id; any
   * other clip attribute registers nothing.
   */
  method ClipPathIdOf(o: DrawOptions, scene: Scene) returns (id: Option<ClipPathId>)
    modifies scene
    ensures scene.ops == old(scene.ops) + ClipOps(o) && scene.viewBox == old(scene.viewBox)
    ensures id == ClipId(o, old(scene.ops))
  {
    id := None;
    if o.clipPath.ClipRef? {
      var target := Resolve(o.ctx, o.clipPath.id);
      if target.Some? && target.value.ClipPath? {
        var outline := ClipPathOutline(target.value.clip, o);
        var clip := scene.PushClipPath(SceneClipPath(outline, o.clipRule));
        id := Some(clip);
      }
    }
  }

  /**
   * The records one channel appends when its paint resolves: the paint, then
   * a path referring to it by id.
   */
  function ChannelOps(paint: Option<ScenePaint>, outline: Outline, fillRule: Option<FillRule>,
                      before: seq<SceneOp>, clip: Option<ClipPathId>): (r: seq<SceneOp>)
    ensures |r| == (if paint.Some? then 2 else 0)
    ensures paint.Some? ==> r[0] == PaintOp(paint.value)
    ensures paint.Some? ==> r[1] == PathOp(DrawPath(outline, PaintCount(before), fillRule, clip))
  {
    match paint
    case Some(p) => [PaintOp(p), PathOp(DrawPath(outline, PaintCount(before), fillRule, clip))]
    case None => []
  }

  /** The fill paint, when it resolves. */
  function FillPaint(o: DrawOptions): Option<ScenePaint> {
    ResolvePaint(o, o.fill, o.fillOpacity)
  }

  /** The stroke paint, when it resolves and the line width is positive. */
  function StrokePaint(o: DrawOptions): Option<ScenePaint> {
    var p := ResolvePaint(o, o.stroke, o.strokeOpacity);
    if p.Some? && o.strokeStyle.lineWidth > 0.0 then p else None
  }

  /** The fill records: the transformed outline, carrying the fill rule. */
  function FillOps(o: DrawOptions, path: Outline, before: seq<SceneOp>, clip: Option<ClipPathId>): seq<SceneOp> {
    ChannelOps(FillPaint(o), TransformedOutline(path, o.transform), Some(o.fillRule), before, clip)
  }

  /** The stroke records: the stroke-to-fill outline, then transformed, with no fill rule. */
  function StrokeOps(o: DrawOptions, path: Outline, before: seq<SceneOp>, clip: Option<ClipPathId>): seq<SceneOp> {
    ChannelOps(StrokePaint(o), TransformedOutline(StrokedOutline(path, o.strokeStyle), o.transform), None, before, clip)
  }

  /** Everything `draw` appends to a scene holding `before`: clip, then fill, then stroke. */
  function DrawOps(o: DrawOptions, path: Outline, before: seq<SceneOp>): seq<SceneOp> {
    var c := ClipOps(o);
    var clip := ClipId(o, before);
    var f := FillOps(o, path, before + c, clip);
    c + f + StrokeOps(o, path, before + c + f, clip)
  }

  /** Records one channel: its paint, then the path that refers to it. */
  method PushChannel(scene: Scene, paint: Option<ScenePaint>, outline: Outline,
                     fillRule: Option<FillRule>, clip: Option<ClipPathId>)
    modifies scene
    ensures scene.ops == old(scene.ops) + ChannelOps(paint, outline, fillRule, old(scene.ops), clip)
    ensures scene.viewBox == old(scene.viewBox)
  {
    if paint.Some? {
      var paintId := scene.PushPaint(paint.value);
      scene.PushDrawPath(DrawPath(outline, paintId, fillRule, clip));
    }
  }

  /** `DrawOptions::draw`: emits the clip, fill and stroke operations for one outline. */
  method Draw(o: DrawOptions, scene: Scene, path: Outline)
    modifies scene
    ensures scene.ops == old(scene.ops) + DrawOps(o, path, old(scene.ops))
    ensures scene.viewBox == old(scene.viewBox)
  {
    ghost var before := scene.ops;
    var clip := ClipPathIdOf(o, scene);
    ghost var afterClip := scene.ops;
    var fill := ResolvePaint(o, o.fill, o.fillOpacity);
    PushChannel(scene, fill, TransformedOutline(path, o.transform), Some(o.fillRule), clip);
    ghost var afterFill := scene.ops;
    var stroke := ResolvePaint(o, o.stroke, o.strokeOpacity);
    if stroke.Some? && o.strokeStyle.lineWidth > 0.0 {
      var outline := StrokedOutline(path, o.strokeStyle);
      PushChannel(scene, stroke, TransformedOutline(outline, o.transform), None, clip);
    }
    assert afterFill == afterClip + FillOps(o, path, afterClip, clip);
    assert scene.ops == afterFill + StrokeOps(o, path, afterFill, clip);
    assert afterClip == before + ClipOps(o);
  }

  predicate IsFillPath(op: SceneOp) {
    op.PathOp? && op.path.fillRule.Some?
  }

  predicate IsStrokePath(op: SceneOp) {
    op.PathOp? && op.path.fillRule.None?
  }

  /** Whether the fill channel draws: its paint resolves. */
  predicate FillDraws(o: DrawOptions) {
    ResolvePaint(o, o.fill, o.fillOpacity).Some?
  }

  /** Whether the stroke channel draws: its paint resolves and the line width is positive. */
  predicate StrokeDraws(o: DrawOptions) {
    ResolvePaint(o, o.stroke, o.strokeOpacity).Some? && o.strokeStyle.lineWidth > 0.0
  }

  /** Where each kind of record sits in a clip part, a fill part and a stroke part laid end to end. */
  lemma {:induction false} PartPositions(c: seq<SceneOp>, f: seq<SceneOp>, s: seq<SceneOp>,
                                         pf: Option<ScenePaint>, ps: Option<ScenePaint>)
    requires |c| <= 1 && (|c| == 1 ==> c[0].ClipOp?)
    requires |f| == (if pf.Some? then 2 else 0) && (pf.Some? ==> f[0].PaintOp? && IsFillPath(f[1]))
    requires |s| == (if ps.Some? then 2 else 0) && (ps.Some? ==> s[0].PaintOp? && IsStrokePath(s[1]))
    ensures forall i :: 0 <= i < |c + f + s| ==> ((c + f + s)[i].ClipOp? <==> i < |c|)
    ensures forall i :: 0 <= i < |c + f + s| ==> (IsFillPath((c + f + s)[i]) <==> pf.Some? && i == |c| + 1)
    ensures forall i :: 0 <= i < |c + f + s| ==> (IsStrokePath((c + f + s)[i]) <==> ps.Some? && i == |c| + |f| + 1)
  {
    var ops := c + f + s;
    forall i | 0 <= i < |ops|
      ensures ops[i].ClipOp? <==> i < |c|
      ensures IsFillPath(ops[i]) <==> pf.Some? && i == |c| + 1
      ensures IsStrokePath(ops[i]) <==> ps.Some? && i == |c| + |f| + 1
    {
      if i < |c| {
        assert ops[i] == c[i];
      } else if i < |c| + |f| {
        assert ops[i] == f[i - |c|];
      } else {
        assert ops[i] == s[i - |c| - |f|];
      }
    }
  }

  /**
   * How many records `draw` emits: at most one clip path, then a paint and
   * a path for each channel that draws.
   */
  lemma DrawOpsCount(o: DrawOptions, path: Outline, before: seq<SceneOp>)
    ensures |DrawOps(o, path, before)|
         == |ClipOps(o)| + (if FillDraws(o) then 2 else 0) + (if StrokeDraws(o) then 2 else 0)
  {
  }

  /**
   * The order of the records: the clip path first, if any; the fill path only if the
   * fill paint resolves and the stroke path only if the stroke draws; the
   * fill path before the stroke path; every path carrying the same clip id;
   * only the fill path carrying the fill rule; every path referring to the
   * paint recorded immediately before it.
   */
  lemma {:induction false} DrawOrder(o: DrawOptions, path: Outline, before: seq<SceneOp>)
    ensures var ops := DrawOps(o, path, before);
      && (forall i :: 0 <= i < |ops| ==> (ops[i].ClipOp? <==> i < |ClipOps(o)|))
      && (forall i, j :: 0 <= i < |ops| && 0 <= j < |ops| && IsFillPath(ops[i]) && IsStrokePath(ops[j]) ==> i < j)
      && ((exists i :: 0 <= i < |ops| && IsFillPath(ops[i])) <==> FillDraws(o))
      && ((exists i :: 0 <= i < |ops| && IsStrokePath(ops[i])) <==> StrokeDraws(o))
      && (forall i :: 0 <= i < |ops| && ops[i].PathOp? ==> ops[i].path.clipPath == ClipId(o, before))
      && (forall i :: 0 <= i < |ops| && IsFillPath(ops[i]) ==> ops[i].path.fillRule == Some(o.fillRule))
  {
    var c := ClipOps(o);
    var clip := ClipId(o, before);
    var f := FillOps(o, path, before + c, clip);
    var s := StrokeOps(o, path, before + c + f, clip);
    var ops := DrawOps(o, path, before);
    PartPositions(c, f, s, FillPaint(o), StrokePaint(o));
    if FillDraws(o) {
      assert IsFillPath(ops[|c| + 1]);
    }
    if StrokeDraws(o) {
      assert IsStrokePath(ops[|c| + |f| + 1]);
    }
    forall i | 0 <= i < |ops| && ops[i].PathOp?
      ensures ops[i].path.clipPath == clip
      ensures IsFillPath(ops[i]) ==> ops[i].path.fillRule == Some(o.fillRule)
    {
      if i < |c| + |f| {
        assert ops[i] == f[i - |c|];
      } else {
        assert ops[i] == s[i - |c| - |f|];
      }
    }
  }

  /**
   * What each channel draws: the fill path is the outline under the current
   * transform, right after the resolved fill paint; the stroke path is the
   * stroke-to-fill outline under the current transform, right after the
   * resolved stroke paint.
   */
  lemma {:induction false} DrawPathContents(o: DrawOptions, path: Outline, before: seq<SceneOp>)
    ensures var ops := DrawOps(o, path, before);
      forall i :: 0 <= i < |ops| && IsFillPath(ops[i]) ==>
        && 0 < i && FillPaint(o).Some? && ops[i - 1] == PaintOp(FillPaint(o).value)
        && ops[i].path.outline == TransformedOutline(path, o.transform)
    ensures var ops := DrawOps(o, path, before);
      forall i :: 0 <= i < |ops| && IsStrokePath(ops[i]) ==>
        && 0 < i && StrokePaint(o).Some? && ops[i - 1] == PaintOp(StrokePaint(o).value)
        && ops[i].path.outline == TransformedOutline(StrokedOutline(path, o.strokeStyle), o.transform)
  {
    var c := ClipOps(o);
    var clip := ClipId(o, before);
    var f := FillOps(o, path, before + c, clip);
    var s := StrokeOps(o, path, before + c + f, clip);
    var ops := DrawOps(o, path, before);
    PartPositions(c, f, s, FillPaint(o), StrokePaint(o));
    forall i | 0 <= i < |ops| && IsFillPath(ops[i])
      ensures 0 < i && FillPaint(o).Some? && ops[i - 1] == PaintOp(FillPaint(o).value)
      ensures ops[i].path.outline == TransformedOutline(path, o.transform)
    {
      assert ops[i] == f[1] && ops[i - 1] == f[0];
    }
    forall i | 0 <= i < |ops| && IsStrokePath(ops[i])
      ensures 0 < i && StrokePaint(o).Some? && ops[i - 1] == PaintOp(StrokePaint(o).value)
      ensures ops[i].path.outline == TransformedOutline(StrokedOutline(path, o.strokeStyle), o.transform)
    {
      assert ops[i] == s[1] && ops[i - 1] == s[0];
    }
  }

  /**
   * Every path `draw` emits refers to the paint recorded immediately before
   * it, by that paint's id.
   */
  lemma {:induction false} DrawPathsUseTheirPaint(o: DrawOptions, path: Outline, before: seq<SceneOp>)
    ensures var ops := DrawOps(o, path, before);
      forall i :: 0 <= i < |ops| && ops[i].PathOp? ==>
        0 < i && ops[i - 1].PaintOp? && ops[i].path.paint == PaintCount(before + ops[..i - 1])
  {
    var c := ClipOps(o);
    var clip := ClipId(o, before);
    var f := FillOps(o, path, before + c, clip);
    var s := StrokeOps(o, path, before + c + f, clip);
    var ops := DrawOps(o, path, before);
    PartPositions(c, f, s, FillPaint(o), StrokePaint(o));
    forall i | 0 <= i < |ops| && ops[i].PathOp?
      ensures 0 < i && ops[i - 1].PaintOp? && ops[i].path.paint == PaintCount(before + ops[..i - 1])
    {
      if i < |c| + |f| {
        assert ops[i] == f[i - |c|] && i == |c| + 1;
        assert ops[i - 1] == f[0];
        assert ops[..i - 1] == c;
      } else {
        assert ops[i] == s[i - |c| - |f|] && i == |c| + |f| + 1;
        assert ops[i - 1] == s[0];
        assert ops[..i - 1] == c + f;
        assert before + (c + f) == before + c + f;
      }
    }
  }

  /** `draw` keeps a well-formed scene well-formed: no dangling paint or clip id. */
  lemma {:induction false} DrawKeepsSceneWellFormed(o: DrawOptions, path: Outline, before: seq<SceneOp>)
    requires WellFormed(before)
    ensures WellFormed(before + DrawOps(o, path, before))
  {
    var ops := DrawOps(o, path, before);
    var all := before + ops;
    forall k | 0 <= k < |all| && all[k].PathOp?
      ensures all[k].path.paint < PaintCount(all[..k])
      ensures all[k].path.clipPath.Some? ==> all[k].path.clipPath.value < ClipCount(all[..k])
    {
      if k < |before| {
        assert all[..k] == before[..k];
        assert all[k] == before[k];
      } else {
        var i := k - |before|;
        assert all[k] == ops[i];
        DrawPathIsPreceded(o, path, before, i);
        PathIsBacked(before, ops, i);
        assert all[..k] == before + ops[..i];
      }
    }
  }

  /** What `PathIsBacked` needs of the `i`-th record `draw` emits, when it is a path. */
  lemma DrawPathIsPreceded(o: DrawOptions, path: Outline, before: seq<SceneOp>, i: nat)
    requires i < |DrawOps(o, path, before)| && DrawOps(o, path, before)[i].PathOp?
    ensures var ops := DrawOps(o, path, before);
      && 0 < i && ops[i - 1].PaintOp?
      && ops[i].path.paint == PaintCount(before + ops[..i - 1])
      && (ops[i].path.clipPath.Some? ==> ops[i].path.clipPath.value == ClipCount(before) && ops[0].ClipOp?)
  {
    var ops := DrawOps(o, path, before);
    DrawOrder(o, path, before);
    DrawPathsUseTheirPaint(o, path, before);
    if ops[i].path.clipPath.Some? {
      assert ClipTarget(o).Some?;
      assert ops[0].ClipOp? <==> 0 < |ClipOps(o)|;
    }
  }

  /**
   * A path preceded by its paint, whose clip id (if any) is the number of
   * clip paths before a run of records that opens with a clip path, refers
   * only to records already present.
   */
  lemma {:induction false} PathIsBacked(before: seq<SceneOp>, ops: seq<SceneOp>, i: nat)
    requires 0 < i < |ops| && ops[i].PathOp? && ops[i - 1].PaintOp?
    requires ops[i].path.paint == PaintCount(before + ops[..i - 1])
    requires ops[i].path.clipPath.Some? ==> ops[i].path.clipPath.value == ClipCount(before) && ops[0].ClipOp?
    ensures ops[i].path.paint < PaintCount(before + ops[..i])
    ensures ops[i].path.clipPath.Some? ==> ops[i].path.clipPath.value < ClipCount(before + ops[..i])
  {
    assert before + ops[..i] == (before + ops[..i - 1]) + [ops[i - 1]];
    CountsAppend(before + ops[..i - 1], [ops[i - 1]]);
    assert PaintCount([ops[i - 1]]) == 1 by {
      assert [ops[i - 1]][..0] == [];
    }
    if ops[i].path.clipPath.Some? {
      assert before + ops[..i] == (before + [ops[0]]) + ops[1..i];
      CountsAppend(before + [ops[0]], ops[1..i]);
      CountsAppend(before, [ops[0]]);
      assert ClipCount([ops[0]]) == 1 by {
        assert [ops[0]][..0] == [];
      }
    }
  }
}
