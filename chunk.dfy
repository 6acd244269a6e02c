/**
 * A chunk of text split into bidirectional runs, and the placement of those
 * runs along a line, from draw/src/text/chunk.rs. The bidirectional
 * algorithm and font shaping are not part of this model: the runs and their
 * levels are inputs, and shaping is a function carried by the font
 * collection.
 */
module TextChunk {

  type Byte = x: int | 0 <= x < 256

  datatype TextFlow = LeftToRight | RightToLeft

  /** A bidi embedding level; odd levels are right-to-left. */
  type Level = nat

  predicate IsRtl(level: Level) {
    level % 2 == 1
  }

  /** The paragraph level a chunk is seeded with: 0 left-to-right, 1 right-to-left. */
  function BaseLevel(direction: TextFlow): (l: Level)
    ensures IsRtl(l) <==> direction == RightToLeft
  {
    match direction
    case LeftToRight => 0
    case RightToLeft => 1
  }

  /** A byte range `start..end` of the chunk's text. */
  datatype LevelRun = LevelRun(start: nat, end: nat)

  datatype Chunk = Chunk(text: seq<Byte>, runs: seq<(Level, LevelRun)>)

  /**
   * `Chunk::new`, given the per-byte levels and visual runs the bidi
   * algorithm produced: the chunk keeps its own copy of the text and tags
   * each run with the level at its first byte.
   */
  function NewChunk(text: seq<Byte>, levels: seq<Level>, visualRuns: seq<LevelRun>): (c: Chunk)
    requires forall i :: 0 <= i < |visualRuns| ==> visualRuns[i].start < |levels|
    requires forall i :: 0 <= i < |visualRuns| ==> visualRuns[i].start <= visualRuns[i].end <= |text|
    ensures c.text == text && |c.runs| == |visualRuns|
    ensures Valid(c)
    ensures forall i :: 0 <= i < |visualRuns| ==> c.runs[i] == (levels[visualRuns[i].start], visualRuns[i])
  {
    Chunk(text, seq(|visualRuns|, i requires 0 <= i < |visualRuns| => (levels[visualRuns[i].start], visualRuns[i])))
  }

  /** Every run is a byte range inside the text. */
  predicate Valid(c: Chunk) {
    forall i :: 0 <= i < |c.runs| ==> c.runs[i].1.start <= c.runs[i].1.end <= |c.text|
  }

  /** A shaped run; `advance` is its horizontal advance. */
  datatype RunLayout = RunLayout(glyphs: seq<nat>, advance: real)

  /** A font collection, seen only through its shaping of one run in one direction. */
  datatype FontCollection = FontCollection(layoutRun: (seq<Byte>, bool) -> RunLayout)

  /** One placed run: its first byte, its horizontal offset and its shaped layout. */
  datatype Part = Part(start: nat, offset: real, layout: RunLayout)

  datatype ChunkLayout = ChunkLayout(parts: seq<Part>, advance: real)

  /** The `i`-th run shaped in its own direction. */
  function Shaped(c: Chunk, font: FontCollection, i: nat): RunLayout
    requires Valid(c) && i < |c.runs|
  {
    var (level, run) := c.runs[i];
    font.layoutRun(c.text[run.start..run.end], IsRtl(level))
  }

  function Advance(c: Chunk, font: FontCollection, i: nat): real
    requires Valid(c) && i < |c.runs|
  {
    Shaped(c, font, i).advance
  }

  /** The cursor after the first `k` runs: forward for left-to-right runs, backward for right-to-left ones. */
  function OffsetAfter(c: Chunk, font: FontCollection, k: nat): real
    requires Valid(c) && k <= |c.runs|
  {
    if k == 0 then 0.0
    else if IsRtl(c.runs[k - 1].0) then OffsetAfter(c, font, k - 1) - Advance(c, font, k - 1)
    else OffsetAfter(c, font, k - 1) + Advance(c, font, k - 1)
  }

  /** Where run `i` starts: at the cursor, or its advance to the left of it when right-to-left. */
  function PlacedOffset(c: Chunk, font: FontCollection, i: nat): real
    requires Valid(c) && i < |c.runs|
  {
    if IsRtl(c.runs[i].0) then OffsetAfter(c, font, i) - Advance(c, font, i) else OffsetAfter(c, font, i)
  }

  /** The part run `i` becomes: its first byte, its placed offset and its shaped layout. */
  function PlacedPart(c: Chunk, font: FontCollection, i: nat): Part
    requires Valid(c) && i < |c.runs|
  {
    Part(c.runs[i].1.start, PlacedOffset(c, font, i), Shaped(c, font, i))
  }

  /**
   * `Chunk::layout`: one part per run, in run order, each at its placed
   * offset; the chunk's advance is the final cursor.
   */
  method Layout(c: Chunk, font: FontCollection) returns (result: ChunkLayout)
    requires Valid(c)
    ensures |result.parts| == |c.runs|
    ensures forall i :: 0 <= i < |c.runs| ==> result.parts[i] == PlacedPart(c, font, i)
    ensures result.advance == OffsetAfter(c, font, |c.runs|)
  {
    var offset := 0.0;
    var parts: seq<Part> := [];
    for i := 0 to |c.runs|
      invariant |parts| == i
      invariant offset == OffsetAfter(c, font, i)
      invariant forall k :: 0 <= k < i ==> parts[k] == PlacedPart(c, font, k)
    {
      var level := c.runs[i].0;
      var run := c.runs[i].1;
      var layout := font.layoutRun(c.text[run.start..run.end], IsRtl(level));
      var runOffset, nextOffset;
      if !IsRtl(level) {
        runOffset, nextOffset := offset, offset + layout.advance;
      } else {
        runOffset, nextOffset := offset - layout.advance, offset - layout.advance;
      }
      RunPlacement(c, font, i);
      assert Part(run.start, runOffset, layout) == PlacedPart(c, font, i);
      parts := parts + [Part(run.start, runOffset, layout)];
      offset := nextOffset;
    }
    result := ChunkLayout(parts, offset);
  }

  /** The sum of the advances of the left-to-right runs among the first `k`. */
  function LtrSum(c: Chunk, font: FontCollection, k: nat): real
    requires Valid(c) && k <= |c.runs|
  {
    if k == 0 then 0.0
    else LtrSum(c, font, k - 1) + (if IsRtl(c.runs[k - 1].0) then 0.0 else Advance(c, font, k - 1))
  }

  /** The sum of the advances of the right-to-left runs among the first `k`. */
  function RtlSum(c: Chunk, font: FontCollection, k: nat): real
    requires Valid(c) && k <= |c.runs|
  {
    if k == 0 then 0.0
    else RtlSum(c, font, k - 1) + (if IsRtl(c.runs[k - 1].0) then Advance(c, font, k - 1) else 0.0)
  }

  /**
   * The chunk's advance is the total left-to-right advance minus the total
   * right-to-left advance.
   */
  lemma {:induction false} AdvanceIsLtrMinusRtl(c: Chunk, font: FontCollection, k: nat)
    requires Valid(c) && k <= |c.runs|
    ensures OffsetAfter(c, font, k) == LtrSum(c, font, k) - RtlSum(c, font, k)
  {
    if k > 0 {
      AdvanceIsLtrMinusRtl(c, font, k - 1);
    }
  }

  /**
   * A left-to-right run sits right of the cursor and moves it forward by its
   * advance; a right-to-left run sits left of the cursor and the cursor ends
   * at the run's own start.
   */
  lemma RunPlacement(c: Chunk, font: FontCollection, i: nat)
    requires Valid(c) && i < |c.runs|
    ensures !IsRtl(c.runs[i].0) ==>
      PlacedOffset(c, font, i) == OffsetAfter(c, font, i)
      && OffsetAfter(c, font, i + 1) == PlacedOffset(c, font, i) + Advance(c, font, i)
    ensures IsRtl(c.runs[i].0) ==>
      PlacedOffset(c, font, i) == OffsetAfter(c, font, i) - Advance(c, font, i)
      && OffsetAfter(c, font, i + 1) == PlacedOffset(c, font, i)
  {
  }

  /** All runs left-to-right with non-negative advances: each run ends before any later run starts. */
  lemma {:induction false} LeftToRightRunsDoNotOverlap(c: Chunk, font: FontCollection, i: nat, j: nat)
    requires Valid(c) && i < j < |c.runs|
    requires forall k :: 0 <= k < |c.runs| ==> !IsRtl(c.runs[k].0) && Advance(c, font, k) >= 0.0
    ensures PlacedOffset(c, font, i) + Advance(c, font, i) <= PlacedOffset(c, font, j)
    decreases j - i
  {
    if j > i + 1 {
      LeftToRightRunsDoNotOverlap(c, font, i, j - 1);
    }
  }

  /** All runs right-to-left with non-negative advances: each later run ends before an earlier one starts. */
  lemma {:induction false} RightToLeftRunsDoNotOverlap(c: Chunk, font: FontCollection, i: nat, j: nat)
    requires Valid(c) && i < j < |c.runs|
    requires forall k :: 0 <= k < |c.runs| ==> IsRtl(c.runs[k].0) && Advance(c, font, k) >= 0.0
    ensures PlacedOffset(c, font, j) + Advance(c, font, j) <= PlacedOffset(c, font, i)
    decreases j - i
  {
    if j > i + 1 {
      RightToLeftRunsDoNotOverlap(c, font, i, j - 1);
    }
  }

  /**
   * A single run of advance `a` over the whole text: left-to-right it is
   * placed at 0 and the chunk advances by `a`; right-to-left it is placed at
   * `-a` and the chunk advances by `-a`.
   */
  lemma SingleRun(text: seq<Byte>, level: Level, font: FontCollection)
    ensures var c := Chunk(text, [(level, LevelRun(0, |text|))]);
      var a := font.layoutRun(text, IsRtl(level)).advance;
      && Valid(c)
      && (!IsRtl(level) ==> PlacedOffset(c, font, 0) == 0.0 && OffsetAfter(c, font, 1) == a)
      && (IsRtl(level) ==> PlacedOffset(c, font, 0) == -a && OffsetAfter(c, font, 1) == -a)
  {
    var c := Chunk(text, [(level, LevelRun(0, |text|))]);
    assert c.text[0..|text|] == text;
  }
}
