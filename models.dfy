/**
 * The Bokeh model objects: a columnar data source, the glyphs, layouts and
 * tools a plot is made of, the plot and document builders with their
 * validation into immutable validated values, the fixed representations of
 * the tickers, and the serialisation of a validated document into Bokeh's
 * JSON document format.
 */
module BokehModels {
  import opened Wrappers
  import Json

  /** Rust's `u32`: stored, never computed on. */
  newtype U32 = x: int | 0 <= x < 0x1_0000_0000

  /** The protocol version written into every serialised document. */
  const BokehVersion: string := "1.0.3"

  /** The two ways validation can fail. */
  datatype Error =
    | MissingDataSource  // "no ColumnDataSource found"
    | MissingPlot        // "document requires a plot"

  datatype Result<+T> = Ok(value: T) | Err(error: Error)

  // Column data source

  /** Columnar data: each column name maps to its numbers, which are only stored. */
  class ColumnDataSource {
    var columns: map<string, seq<real>>

    constructor ()
      ensures columns == map[]
    {
      columns := map[];
    }

    /** Adds the column `key`, replacing any column already stored under that name. */
    method Add(key: string, values: seq<real>)
      modifies this
      ensures key in columns && columns[key] == values
      ensures columns.Keys == old(columns.Keys) + {key}
      ensures forall k :: k in old(columns) && k != key ==> columns[k] == old(columns)[k]
    {
      columns := columns[key := values];
    }

    /** The representation of a data source, which is JSON `null` whatever its columns hold. */
    function AsBokehValue(): (v: Json.Value)
      ensures !Json.IsTypedModelValue(v) && v == Json.Null
    {
      Json.Null
    }
  }

  // Glyphs, layouts and tools

  /** The edge of the plot a layout is attached to. */
  datatype Position = Below | Left | Right | Above

  /** A circle marker: column names for its visual channels and a literal size. */
  datatype Circle = Circle(
    x: Option<string>,
    y: Option<string>,
    fillColor: Option<string>,
    size: Option<U32>,
    lineColor: Option<string>)

  /** `Circle::new()`: a circle with every channel unset. */
  function DefaultCircle(): (c: Circle)
    ensures c.x.None? && c.y.None? && c.fillColor.None? && c.size.None? && c.lineColor.None?
  {
    Circle(None, None, None, None, None)
  }

  datatype Glyph = CircleGlyph(circle: Circle)

  datatype Layout = LinearAxis

  datatype Tool = PanTool | WheelZoomTool

  // Plot builder

  /** One call on the plot builder. */
  datatype PlotOp =
    | AddGlyph(source: ColumnDataSource, glyph: Glyph)
    | AddLayout(position: Position, layout: Layout)
    | AddTool(tool: Tool)

  /** The contents of a plot builder, as a value. */
  datatype PlotState = PlotState(
    minBorder: Option<U32>,
    source: Option<ColumnDataSource>,
    glyphs: seq<Glyph>,
    layouts: map<Position, Layout>,
    tools: seq<Tool>)
  {
    /** The state after one builder call. */
    function Apply(op: PlotOp): PlotState
    {
      match op
      case AddGlyph(s, g) => this.(source := Some(s), glyphs := glyphs + [g])
      case AddLayout(p, l) => this.(layouts := layouts[p := l])
      case AddTool(t) => this.(tools := tools + [t])
    }

    /**
     * `Plot::validate`: fails exactly when no data source was ever bound;
     * otherwise the validated plot carries every field of the builder unchanged.
     */
    function Validate(): (r: Result<ValidatedPlot>)
      ensures r.Err? <==> source.None?
      ensures r.Err? ==> r.error == MissingDataSource
      ensures r.Ok? ==> r.value.Unvalidated() == this
    {
      match source
      case None => Err(MissingDataSource)
      case Some(s) => Ok(ValidatedPlot(minBorder, s, glyphs, layouts, tools))
    }
  }

  /** `Plot::new()` as a value: no border, no source, no glyphs, layouts or tools. */
  const EmptyPlot: PlotState := PlotState(None, None, [], map[], [])

  /** A plot that passed validation: its data source is always present. */
  datatype ValidatedPlot = ValidatedPlot(
    minBorder: Option<U32>,
    source: ColumnDataSource,
    glyphs: seq<Glyph>,
    layouts: map<Position, Layout>,
    tools: seq<Tool>)
  {
    /** The builder state this validated plot carries. */
    function Unvalidated(): PlotState
    {
      PlotState(minBorder, Some(source), glyphs, layouts, tools)
    }
  }

  /** Every validated plot is what validating its own fields gives. */
  lemma ValidateUnvalidated(vp: ValidatedPlot)
    ensures vp.Unvalidated().Validate() == Ok(vp)
  {
  }

  /** The plot builder, updated in place by its `Add*` methods. */
  class Plot {
    var minBorder: Option<U32>
    var source: Option<ColumnDataSource>
    var glyphs: seq<Glyph>
    var layouts: map<Position, Layout>
    var tools: seq<Tool>

    /** The builder's contents as a value. */
    function State(): PlotState
      reads this
    {
      PlotState(minBorder, source, glyphs, layouts, tools)
    }

    constructor ()
      ensures State() == EmptyPlot
    {
      minBorder := None;
      source := None;
      glyphs := [];
      layouts := map[];
      tools := [];
    }

    /** Binds `source` (the last call wins) and appends `glyph`; nothing else changes. */
    method AddGlyph(source: ColumnDataSource, glyph: Glyph)
      modifies this
      ensures this.source == Some(source)
      ensures glyphs == old(glyphs) + [glyph]
      ensures layouts == old(layouts) && tools == old(tools) && minBorder == old(minBorder)
      ensures State() == old(State()).Apply(PlotOp.AddGlyph(source, glyph))
    {
      this.source := Some(source);
      glyphs := glyphs + [glyph];
    }

    /** Stores `layout` at `position`, replacing what was there; every other position keeps its layout. */
    method AddLayout(position: Position, layout: Layout)
      modifies this
      ensures position in layouts && layouts[position] == layout
      ensures layouts.Keys == old(layouts.Keys) + {position}
      ensures forall p :: p in old(layouts) && p != position ==> layouts[p] == old(layouts)[p]
      ensures source == old(source) && glyphs == old(glyphs) && tools == old(tools)
      ensures minBorder == old(minBorder)
      ensures State() == old(State()).Apply(PlotOp.AddLayout(position, layout))
    {
      layouts := layouts[position := layout];
    }

    /** Appends `tool`; nothing else changes. */
    method AddTool(tool: Tool)
      modifies this
      ensures tools == old(tools) + [tool]
      ensures source == old(source) && glyphs == old(glyphs) && layouts == old(layouts)
      ensures minBorder == old(minBorder)
      ensures State() == old(State()).Apply(PlotOp.AddTool(tool))
    {
      tools := tools + [tool];
    }
  }

  // Tickers

  /** A ticker without configuration. */
  datatype BasicTicker = BasicTicker
  {
    /** Always `{"attributes": {}, "type": "BasicTicker"}`, with no `id`. */
    function AsBokehValue(): (v: Json.Value)
      ensures v == Json.Obj(map["attributes" := Json.Obj(map[]), "type" := Json.Str("BasicTicker")])
      ensures Json.IsTypedModelValue(v) && "id" !in v.fields
    {
      Json.TypedModelValue("BasicTicker", map[])
    }
  }

  /** A tick formatter without configuration. */
  datatype BasicTickFormatter = BasicTickFormatter
  {
    /** Always `{"attributes": {}, "type": "BasicTickFormatter"}`, with no `id`. */
    function AsBokehValue(): (v: Json.Value)
      ensures v == Json.Obj(map["attributes" := Json.Obj(map[]), "type" := Json.Str("BasicTickFormatter")])
      ensures Json.IsTypedModelValue(v) && "id" !in v.fields
    {
      Json.TypedModelValue("BasicTickFormatter", map[])
    }
  }

  // Document

  /** A document that passed validation: it wraps one validated root plot. */
  datatype ValidatedDocument = ValidatedDocument(plot: ValidatedPlot)
  {
    /** The objects of the reference graph: only the root plot's data source, so far. */
    function References(): (refs: seq<Json.Value>)
      ensures |refs| == 1 && refs[0] == plot.source.AsBokehValue()
    {
      [plot.source.AsBokehValue()]
    }
  }

  /**
   * The document builder. `add_root` moves the plot into the document, so the
   * caller can no longer change it; the model keeps the plot's contents as of
   * that call.
   */
  class Document {
    var plot: Option<PlotState>

    constructor ()
      ensures plot == None
    {
      plot := None;
    }

    /** Makes `root` the single root plot, replacing any earlier one. */
    method AddRoot(root: Plot)
      modifies this
      ensures plot == Some(root.State())
    {
      plot := Some(root.State());
    }

    /**
     * `Document::validate`: fails with `MissingPlot` when no root was added,
     * passes on the root plot's own failure, and otherwise wraps exactly the
     * validated root plot.
     */
    function Validate(): (r: Result<ValidatedDocument>)
      reads this
      ensures plot.None? ==> r == Err(MissingPlot)
      ensures plot.Some? && plot.value.Validate().Err? ==> r == Err(plot.value.Validate().error)
      ensures r.Ok? <==> plot.Some? && plot.value.source.Some?
      ensures r.Ok? ==> Some(r.value.plot.Unvalidated()) == plot
    {
      match plot
      case None => Err(MissingPlot)
      case Some(p) =>
        match p.Validate()
        case Err(e) => Err(e)
        case Ok(vp) => Ok(ValidatedDocument(vp))
    }
  }

  // Serialisation

  /**
   * `to_bokeh_json`: never fails, and gives an object with exactly the keys
   * `roots`, `title` and `version`, where `roots` holds the document's
   * references under `references`.
   */
  function ToBokehJson(doc: ValidatedDocument, title: string): (r: Result<Json.Value>)
    ensures r.Ok? && r.value.Obj?
    ensures r.value.fields.Keys == {"roots", "title", "version"}
    ensures Json.Get(r.value, "title") == Some(Json.Str(title))
    ensures Json.Get(r.value, "version") == Some(Json.Str(BokehVersion))
    ensures Json.Get(r.value, "roots") == Some(Json.Obj(map["references" := Json.Arr(doc.References())]))
  {
    var roots := Json.Obj(map["references" := Json.Arr(doc.References())]);
    Ok(Json.Obj(map["roots" := roots, "title" := Json.Str(title), "version" := Json.Str(BokehVersion)]))
  }
}
