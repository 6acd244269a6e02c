# pathfinder_svg: style cascade and draw intent, in Dafny

This project models the layer of pathfinder_svg that turns a parsed SVG
document into scene records.

- **The inherited style record** (`DrawOptions`, `src/draw.rs`):
  - how a child record is built from its parent and an element's
    attributes;
  - how lengths in physical units and percentages resolve to user units;
  - how `#id` references to gradients and clip paths resolve, or silently
    fall back to nothing;
  - the bounds an outline gets;
  - the records `draw` appends to a scene: the clip path, then the fill
    paint and path, then the stroke paint and path.
- **The entry points** (`draw/src/lib.rs`):
  - the lifting of `Compose` and `Interpolate` to `Option`;
  - the per-item dispatch and its fall-through for non-drawable items;
  - the computed view box and its fallback to the root's bounds;
  - the `compose*` functions that create and fill a scene;
  - the vertical flip of `draw_glyph`.
- **Text run placement** (`draw/src/text/chunk.rs`): `Chunk::layout` places
  bidirectional runs with a signed cursor. A left-to-right run sits right of
  the cursor and pushes it forward. A right-to-left run sits left of the
  cursor and pulls it back.

Modules, one concept each:

| file | module | contents |
|---|---|---|
| `wrappers.dfy` | `Wrappers` | `Option` with `unwrap_or` and `or` |
| `geometry.dfy` | `Geometry` | transforms and rectangles as a free term algebra; stroke style, fill rule |
| `svg_dom.dfy` | `SvgDom` | paints, clip-path attributes, lengths and their units, the item kinds, the document |
| `cascade.dfy` | `Cascade` | `DrawContext` and `DrawOptions`: `new`, `apply`, `transform`, length resolution, `apply_viewbox`, `bounds` |
| `scene.dfy` | `SceneModel` | the scene as an append-only record list with paint and clip-path ids |
| `draw.dfy` | `Draw` | `resolve_paint`, `clip_path_id`, `draw` and the order of what they append |
| `animate.dfy` | `Animate` | `Option` impls of `Compose` and `Interpolate` |
| `drawsvg.dfy` | `DrawSvg` | `draw_items!` dispatch, `DrawSvg` entry points, `draw_glyph` |
| `chunk.dfy` | `TextChunk` | `Chunk::new` (given runs) and `Chunk::layout` |

Modelling choices:

- **Geometry.** Transforms and rectangles are symbolic terms:
  - `a * b` on transforms is the constructor `Product`;
  - `transform * rect` is `Image`;
  - `rect.dilate(w)` is `Dilated`.

  The properties are about which transform is composed with which and in
  what order, not about matrix arithmetic.
- **Numbers.** `f32` quantities are `real`.
- **The scene.** `Scene` is a class whose `ops` field is the sequence of
  records appended so far. A paint or clip-path id is the number of records
  of that kind before it.
- **`DrawOptions`** is a value. The source mutates single fields of a local
  copy in place (`src/draw.rs:174`, `src/draw.rs:246-250`,
  `draw/src/lib.rs:162`, `189` and `226`). The model returns the updated
  record instead. This is equivalent, because no other reference to that
  copy exists.
- **Code the model does not contain** is modelled as inputs:
  - the attribute getters (`attrs.fill.get`, `attrs.transform.get`, …) are
    functions of the parent options;
  - each tag's own `draw_to` and `bounds` are the `TagImpls` parameter;
  - font shaping is a function carried by `FontCollection`;
  - the bidi runs are given.

In three places the code departs from SVG 1.1 and CSS Values and Units
Level 3. The model follows the code:

- `resolve_length_along` on a percentage returns the whole view-box width
  (X) or height (Y), whatever the percentage's number. SVG 1.1 (section 7.10)
  scales by the number. `Cascade.PercentIgnoresItsNumber` states the code's
  behaviour.
- A `stroke-width` attribute sets the line width to the length's bare number
  and ignores its unit.
- `Pt` resolves at `dpi / 75`, the constant in the code. So at any DPI,
  75pt = 1in (`Cascade.AbsoluteUnitsAgree`). CSS Values and Units Level 3
  defines absolute lengths with 72pt = 1in.

## Model

| member | source | states |
|---|---|---|
| Cascade.NewContext | src/draw.rs:29-39 | the context holds the document's named-item registry at 75 DPI |
| Cascade.Resolve | src/draw.rs:40-42 | an id resolves exactly when the registry has it, to the registered item |
| Cascade.ResolveHref | src/draw.rs:43-49 | a reference resolves iff it starts with `#` and the rest is a registered id; anything else gives nothing |
| Cascade.ResolveHrefOfFragment | src/draw.rs:43-49 | resolving `#id` is the same as resolving `id` |
| Cascade.NewOptions | src/draw.rs:76-96 | every default of the root style: black even-odd fill, no stroke, width-1 butt/bevel stroke style, all opacities 1, scale-10 transform, no clip path, no view box, start time |
| Cascade.Apply | src/draw.rs:176-199 | opacity is parent × attribute (1 when absent); clip path, clip rule, fill rule, fill and stroke opacity are overridden when present and inherited otherwise; only the line width changes, to the attribute's number; the transform is parent then attribute; fill and stroke come from the getters; context, view box and time are copied |
| Cascade.ApplyInheritsEverything | src/draw.rs:176-195 | attributes that override nothing yield the parent unchanged except for the extended transform |
| Cascade.OpacityAlongChain | src/draw.rs:184 | down an ancestor chain the opacity is the root's times the product of every opacity attribute on the way |
| Cascade.OpacityStaysInUnitRange | src/draw.rs:184 | opacities in [0, 1] along a chain keep the result in [0, 1] |
| Cascade.ChainKeepsContext | src/draw.rs:194 | context, view box and time are unchanged down any chain |
| Cascade.FillRuleOverrideIsInherited | src/draw.rs:187 | an explicit fill rule holds for every descendant that does not override it |
| Cascade.WithTransform | src/draw.rs:173-175 | the new transform is the old one followed by `t`; nothing else changes |
| Cascade.ResolveLength | src/draw.rs:200-214 | unitless and px scale by 1, in by dpi, cm by dpi/2.54, mm by dpi/25.4, pt by dpi/75; a percentage never resolves |
| Cascade.AbsoluteUnitsAgree | src/draw.rs:200-214 | 1in, 2.54cm, 25.4mm and 75pt resolve to the same length at every DPI |
| Cascade.ResolveLengthIsLinear | src/draw.rs:213 | resolution of every non-percentage unit is additive in the length's number |
| Cascade.ResolveLengthAlong | src/draw.rs:215-232 | a percentage resolves iff there is a view box, to its width along X and its height along Y; every other unit agrees with `ResolveLength` |
| Cascade.PercentIgnoresItsNumber | src/draw.rs:224-227 | two percentages along the same axis resolve alike whatever their numbers |
| Cascade.PercentNeedsViewBox | src/draw.rs:224-227 | without a view box a percentage does not resolve along either axis, and with one it does |
| Cascade.ResolveVector | src/draw.rs:233-237 | x resolves along X and y along Y |
| Cascade.TryResolveVector | draw/src/lib.rs:199-202 | gives a vector exactly when both components resolve, and then the resolved vector |
| Cascade.ResolveRect | src/draw.rs:239-241 | the rectangle of the resolved origin and resolved size |
| Cascade.ApplyViewbox | src/draw.rs:243-251 | for every view box, including a zero-sized one, the transform gains the scale taking the resolved view-box size onto the resolved viewport size, and then a translation by minus the view-box origin; the resolved view box becomes current; nothing else changes |
| Cascade.PercentAfterViewbox | src/draw.rs:243-251 | after a view box is applied, percentages resolve to its resolved width along X and height along Y |
| Cascade.Bounds | src/draw.rs:97-113 | a visible stroke gives the transformed box dilated by the line width; else a visible fill gives the transformed box; else none, and none exactly when neither channel is visible |
| Cascade.BoundsIgnoreGroupState | src/draw.rs:97-113 | bounds depend only on the channels' paints and opacities, the line width and the transform |
| SceneModel.Scene.constructor | draw/src/lib.rs:168 | a new scene has no records and no view box |
| SceneModel.Scene.PushPaint | src/draw.rs:155 | appends one paint record; its id is the number of paints before it |
| SceneModel.Scene.PushClipPath | src/draw.rs:143 | appends one clip-path record; its id is the number of clip paths before it |
| SceneModel.Scene.PushDrawPath | src/draw.rs:159 | appends one draw-path record |
| SceneModel.Scene.SetViewBox | draw/src/lib.rs:171 | sets the view box and leaves the records alone |
| Draw.ResolvePaint | src/draw.rs:114-129 | resolves iff the paint is a color or a reference to a linear or radial gradient; a color gives a solid paint, a gradient a gradient paint built under these options; the opacity is multiplied by the cascade opacity |
| Draw.DanglingPaintIsNotDrawn | src/draw.rs:119-126 | a reference to a missing id or to a non-gradient resolves to nothing |
| Draw.ClipTarget | src/draw.rs:136-137 | there is a clip target iff the attribute is a reference to a registered clip-path item, and it is that item |
| Draw.ClipOps | src/draw.rs:135-149 | `clip_path_id` appends at most one record, exactly one iff there is a clip target, and that one carries the target's outline built under these options and the clip rule |
| Draw.ClipPathIdOf | src/draw.rs:135-149 | appends `ClipOps` and returns the new clip path's id, or nothing when nothing was appended |
| Draw.PushChannel | src/draw.rs:153-160 | appends a channel's paint and then the path referring to it, or nothing when the paint does not resolve |
| Draw.Draw | src/draw.rs:150-172 | appends exactly `DrawOps`: the clip records, then the fill records, then the stroke records; the view box is unchanged |
| Draw.DrawOpsCount | src/draw.rs:150-172 | the number of records is the clip records plus two for each channel that draws |
| Draw.DrawOrder | src/draw.rs:150-172 | the clip path comes first; a fill path appears iff the fill paint resolves; a stroke path appears iff the stroke paint resolves and the line width is positive; fill before stroke; every path carries the same clip id; only the fill path carries the fill rule |
| Draw.DrawPathContents | src/draw.rs:153-170 | the fill path is the outline under the current transform, right after the resolved fill paint; the stroke path is the stroke-to-fill outline under the current transform, right after the resolved stroke paint |
| Draw.DrawPathsUseTheirPaint | src/draw.rs:153-171 | every path follows its own paint record and refers to it by id |
| Draw.DrawKeepsSceneWellFormed | src/draw.rs:150-172 | drawing into a scene whose paths refer only to earlier paints and clip paths keeps it so |
| Animate.ComposeOption | draw/src/lib.rs:89-96 | both present compose; exactly one present wins; both absent stay absent |
| Animate.ComposeOptionAssociative | draw/src/lib.rs:89-96 | optional composition is associative whenever the element composition is |
| Animate.LerpOption | draw/src/lib.rs:65-71 | present iff both ends are present, then the element interpolation |
| Animate.ScaleOption | draw/src/lib.rs:72-74 | present iff the input is, then the scaled element |
| Animate.ScaleCommutesWithLerp | draw/src/lib.rs:65-74 | scaling an interpolation equals interpolating the scaled ends, whenever it does for elements |
| DrawSvg.ItemOps | draw/src/lib.rs:98-131 | the eleven listed kinds append what their tag appends; every other kind appends nothing |
| DrawSvg.ItemBounds | draw/src/lib.rs:107-112 | the listed kinds have their tag's bounds; every other kind has none |
| DrawSvg.DefinitionsDrawNothing | draw/src/lib.rs:98-131 | gradients, clip-path definitions and filters draw nothing and have no bounds, whatever the tags do |
| DrawSvg.DrawItemTo | draw/src/lib.rs:101-106 | appends exactly `ItemOps` and leaves the view box alone |
| DrawSvg.Ctx | draw/src/lib.rs:209-219 | the document's registry at the default DPI |
| DrawSvg.ViewBox | draw/src/lib.rs:194-207 | a root `<svg>` with a view box whose size (width or view-box width, height or view-box height) resolves gives a rectangle of that size at the origin; otherwise the root's bounds under default options |
| DrawSvg.ViewBoxOfPixelSize | draw/src/lib.rs:198-204 | pixel width and height give a view box of exactly that size at the origin |
| DrawSvg.ViewBoxPercentFallsBack | draw/src/lib.rs:198-206 | a percentage width never resolves under default options, so the root's bounds are used |
| DrawSvg.SceneViewBox | draw/src/lib.rs:170-172 | a scene view box exists iff a computed one does, mapped by the transform |
| DrawSvg.ComposeWithOptions | draw/src/lib.rs:167-175 | a fresh scene whose view box is the computed view box under the options' transform, or unset, holding what the root draws under the options |
| DrawSvg.TransformOptions | draw/src/lib.rs:159-163 | the default options with only the transform replaced |
| DrawSvg.ComposeWithTransform | draw/src/lib.rs:159-165 | composes under `TransformOptions` |
| DrawSvg.Compose | draw/src/lib.rs:155-157 | composes with the identity transform |
| DrawSvg.ComposeWithViewbox | draw/src/lib.rs:177-184 | the given view box, mapped by the default transform, replaces the computed one; the root draws under default options |
| DrawSvg.ComposeToWithTransform | draw/src/lib.rs:186-191 | appends what the root draws under `TransformOptions` and leaves the view box alone |
| DrawSvg.GlyphOptions | draw/src/lib.rs:223-226 | the glyph document's default options, with the transform `transform * scale(1, -1)` |
| DrawSvg.DrawGlyph | draw/src/lib.rs:223-228 | appends what the glyph's item draws under `GlyphOptions` |
| TextChunk.BaseLevel | draw/src/text/chunk.rs:12-15 | the paragraph level is right-to-left iff the text flows right to left |
| TextChunk.NewChunk | draw/src/text/chunk.rs:20-23 | keeps the text and tags each run, in order, with the level at its first byte; runs inside the text give a valid chunk |
| TextChunk.Layout | draw/src/text/chunk.rs:26-42 | one part per run in run order, each with its run's start byte, placed offset and shaped layout; the advance is the final cursor, 0 with no runs |
| TextChunk.AdvanceIsLtrMinusRtl | draw/src/text/chunk.rs:27-41 | the cursor after any prefix of the runs is the left-to-right advances minus the right-to-left advances |
| TextChunk.RunPlacement | draw/src/text/chunk.rs:33-36 | a left-to-right run sits at the cursor, which then moves forward by its advance; a right-to-left run sits its advance left of the cursor, and the cursor ends at that place |
| TextChunk.LeftToRightRunsDoNotOverlap | draw/src/text/chunk.rs:33-38 | with all runs left-to-right and non-negative advances, each run ends before any later run starts |
| TextChunk.RightToLeftRunsDoNotOverlap | draw/src/text/chunk.rs:33-38 | with all runs right-to-left and non-negative advances, each later run ends before an earlier one starts |
| TextChunk.SingleRun | draw/src/text/chunk.rs:26-42 | one run over the whole text is placed at 0 (left-to-right) or at minus its advance (right-to-left), and the chunk advances by plus or minus that advance |

## Left out

- Geometry: pathfinder's geometry and rendering are not part of this model.
  This covers matrix products, rectangle arithmetic, outline transformation,
  `OutlineStrokeToFill`, and the internals of `ClipPath` and `DrawPath`. They
  are symbolic terms, so no property here depends on what a transform
  computes.
- Scene: pathfinder's scene deduplicates equal paints into a palette. The
  model gives every pushed paint a new id.
- Gradients: gradient building (`gradient.build`) and `Color::color_u` are
  recorded as what they are built from, not as the values they produce.
  The unused `alpha` byte is left out.
- Clip paths: `TagClipPath::build` is recorded as the clip-path definition
  and the options it is built under.
- Numbers: `f32` rounding is not modelled. Every quantity is an exact
  `real`. The view-box scale is a symbolic `FitScale` term, so a zero-sized
  view box, which gives an infinite factor in `f32`, needs no special case.
- Unseen code:
  - the attribute machinery (`attrs.fill.get`, `attrs.stroke.get`,
    `attrs.transform.get`);
  - the tags' own `draw_to` and `bounds`;
  - `FontCollection::layout_run`;
  - `BidiInfo`.

  These are parameters. The Unicode bidirectional algorithm that produces
  the runs and their levels is not part of this model.
- `Paint::is_visible` is in a library that is not part of this model. It is
  taken to be "the paint is not `none`".
- `Cascade.TryResolveVector`: `Vector`'s own `try_resolve` is not part of
  this model. The only one visible is the `Resolve` trait's default
  (`draw/src/lib.rs:51-53`), `Some(self.resolve(options))`, which never
  fails. The model assumes `Vector` overrides it: both components resolve,
  each along its own axis, and it fails when either fails.
  `DrawSvg.ViewBox`'s fallback for an unresolvable size and
  `DrawSvg.ViewBoxPercentFallsBack` depend on this assumption.
- `DrawContext`: its debug font and debug flag, `DrawSvg`'s fallback fonts,
  and all debug printing are left out.
- `draw/examples/validate.rs` is a test harness built on file I/O and an
  external rasterizer, and is not modelled.
- `Cascade.ResolveLength`: the `unimplemented!` panics for `em`, `ex` and
  `pc` become the precondition that the unit is supported. The same holds
  for `ResolveLengthAlong`, `ResolveVector`, `DrawSvg.ViewBox` and the
  `compose*` methods that call it.
- `Cascade.ResolveVector`: the `unwrap` panics become the precondition that
  both components resolve. The same holds for `ResolveRect` and
  `ApplyViewbox`.
- `Cascade.WithTransform` and `Cascade.ApplyViewbox` return the updated
  record instead of updating a field of a local copy in place. No other
  reference to that copy exists, so no caller can observe the difference.
- `DrawSvg.ComposeWithOptions`, `ComposeWithTransform`, `Compose` and
  `ComposeWithViewbox` draw the root through `TagImpls`. So what ends up in
  the scene is stated only up to what the tags append.
- `TextChunk.Layout`: the text is a byte sequence. Two Rust panics are not
  modelled:
  - slicing a run at a non-character boundary;
  - a run outside the text.

  The second is excluded by the precondition that the chunk is valid.
  `NewChunk` produces a valid chunk when the runs lie inside the text.
