/**
 * What a whole sequence of plot-builder calls does: the state it builds, stated
 * field by field through independent definitions that read the calls from the
 * last one back, and when the built plot validates.
 */
module PlotTrace {
  import opened Wrappers
  import opened BokehModels

  /** The builder state after the calls `ops`, made in order on a builder holding `s`. */
  function Build(s: PlotState, ops: seq<PlotOp>): PlotState
    decreases |ops|
  {
    if ops == [] then s else Build(s.Apply(ops[0]), ops[1..])
  }

  /** The source bound by the last `AddGlyph` in `ops`, or the one `s` already had. */
  function LastSource(s: PlotState, ops: seq<PlotOp>): Option<ColumnDataSource>
    decreases |ops|
  {
    if ops == [] then s.source
    else if ops[|ops| - 1].AddGlyph? then Some(ops[|ops| - 1].source)
    else LastSource(s, ops[..|ops| - 1])
  }

  /** The glyphs `ops` add, in the order they are added. */
  function GlyphsOf(ops: seq<PlotOp>): seq<Glyph>
    decreases |ops|
  {
    if ops == [] then []
    else GlyphsOf(ops[..|ops| - 1]) + (if ops[|ops| - 1].AddGlyph? then [ops[|ops| - 1].glyph] else [])
  }

  /** The tools `ops` add, in the order they are added. */
  function ToolsOf(ops: seq<PlotOp>): seq<Tool>
    decreases |ops|
  {
    if ops == [] then []
    else ToolsOf(ops[..|ops| - 1]) + (if ops[|ops| - 1].AddTool? then [ops[|ops| - 1].tool] else [])
  }

  /** For each position, the layout of the last `AddLayout` at that position in `ops`. */
  function LayoutsOf(ops: seq<PlotOp>): map<Position, Layout>
    decreases |ops|
  {
    if ops == [] then map[]
    else
      var last := ops[|ops| - 1];
      var before := LayoutsOf(ops[..|ops| - 1]);
      if last.AddLayout? then before[last.position := last.layout] else before
  }

  /** Whether some call in `ops` is an `AddGlyph`. */
  predicate HasGlyph(ops: seq<PlotOp>)
  {
    exists i :: 0 <= i < |ops| && ops[i].AddGlyph?
  }

  /** One more call at the end is one more `Apply` on the state built so far. */
  lemma {:induction false} BuildSnoc(s: PlotState, ops: seq<PlotOp>, op: PlotOp)
    ensures Build(s, ops + [op]) == Build(s, ops).Apply(op)
    decreases |ops|
  {
    if ops == [] {
      assert ops + [op] == [op];
    } else {
      assert (ops + [op])[1..] == ops[1..] + [op];
      BuildSnoc(s.Apply(ops[0]), ops[1..], op);
    }
  }

  /**
   * The state a sequence of calls builds: the border is untouched, the source
   * is the last one bound, glyphs and tools are appended in call order, and
   * each position holds the last layout stored there.
   */
  lemma {:induction false} BuildFields(s: PlotState, ops: seq<PlotOp>)
    ensures Build(s, ops).minBorder == s.minBorder
    ensures Build(s, ops).source == LastSource(s, ops)
    ensures Build(s, ops).glyphs == s.glyphs + GlyphsOf(ops)
    ensures Build(s, ops).tools == s.tools + ToolsOf(ops)
    ensures Build(s, ops).layouts == s.layouts + LayoutsOf(ops)
    decreases |ops|
  {
    if ops != [] {
      var init, last := ops[..|ops| - 1], ops[|ops| - 1];
      assert ops == init + [last];
      BuildSnoc(s, init, last);
      BuildFields(s, init);
    }
  }

  /** A source is bound after `ops` exactly when `s` had one or `ops` adds a glyph. */
  lemma {:induction false} LastSourcePresent(s: PlotState, ops: seq<PlotOp>)
    ensures LastSource(s, ops).Some? <==> s.source.Some? || HasGlyph(ops)
    decreases |ops|
  {
    if ops != [] {
      var init := ops[..|ops| - 1];
      LastSourcePresent(s, init);
      if HasGlyph(ops) && !ops[|ops| - 1].AddGlyph? {
        var i :| 0 <= i < |ops| && ops[i].AddGlyph?;
        assert init[i].AddGlyph?;
      }
      if HasGlyph(init) {
        var i :| 0 <= i < |init| && init[i].AddGlyph?;
        assert ops[i].AddGlyph?;
      }
    }
  }

  /**
   * A plot built by `ops` validates exactly when it started with a source or
   * some call added a glyph, and then it carries the last source bound.
   */
  lemma ValidateAfterBuild(s: PlotState, ops: seq<PlotOp>)
    ensures Build(s, ops).Validate().Ok? <==> s.source.Some? || HasGlyph(ops)
    ensures Build(s, ops).Validate().Ok? ==> Some(Build(s, ops).Validate().value.source) == LastSource(s, ops)
    ensures Build(s, ops).Validate().Err? ==> Build(s, ops).Validate().error == MissingDataSource
  {
    BuildFields(s, ops);
    LastSourcePresent(s, ops);
  }

  /**
   * From a new plot: validation fails with `MissingDataSource` exactly when no
   * glyph was added, and when the last call adds a glyph the plot validates
   * with that call's source.
   */
  lemma NewPlotValidation(ops: seq<PlotOp>)
    ensures Build(EmptyPlot, ops).Validate() == Err(MissingDataSource) <==> !HasGlyph(ops)
    ensures ops != [] && ops[|ops| - 1].AddGlyph? ==>
              Build(EmptyPlot, ops).Validate().Ok? &&
              Build(EmptyPlot, ops).Validate().value.source == ops[|ops| - 1].source
  {
    ValidateAfterBuild(EmptyPlot, ops);
  }
}
