# bokeh-models in Dafny

A model of the client-side Bokeh models of `rust-bokeh` (`bokeh-models/src/lib.rs`):

- a `ColumnDataSource` of named numeric columns;
- the glyph (`Circle`), layout (`LinearAxis` keyed by a `Position`) and tool (`PanTool`, `WheelZoomTool`) variants;
- the `Plot` builder, updated in place by `add_glyph`, `add_layout` and `add_tool`;
- `Plot::validate` into a `ValidatedPlot` whose data source is always present;
- the `Document` builder with its single root plot, and `Document::validate`;
- the fixed representations of `BasicTicker` and `BasicTickFormatter`;
- `ValidatedDocument::references` and `to_bokeh_json`, which builds Bokeh's JSON document `{"roots": {"references": [...]}, "title": ..., "version": "1.0.3"}`.

Files:

- `wrappers.dfy` (module `Wrappers`): `Option`.
- `json.dfy` (module `Json`): JSON values (`Null`, `Str`, `Arr`, `Obj` over a string-keyed map) and the representation shape `{"attributes": {...}, "type": "<Kind>"}` of the ticker and tick-formatter representations (lib.rs:211-239).
- `models.dfy` (module `BokehModels`): the data model. The mutable builders (`ColumnDataSource`, `Plot`, `Document`) are classes whose methods state their whole new state. The validation steps and serialisation are functions over datatypes. `PlotState` is the plot builder's contents as a value, and each builder method ensures `State() == old(State()).Apply(op)` for its own call `op`.
- `plot_trace.dfy` (module `PlotTrace`): what any sequence of builder calls produces, field by field, and exactly when the resulting plot validates. Each field is stated against its own definition, which reads the calls from the last one back.
- `wire_format.dfy` (module `WireFormat`): a reader for the document format, proved to invert `ToBokehJson`. It also holds a client that builds the document of a one-circle plot over columns `x` and `y`.

The data source a plot binds is a class reference. "The last source wins" and "the validated plot carries the same source" are therefore statements about object identity, as with the borrowed `&ColumnDataSource` of the source.

Bokeh's document format expects more than this code produces; the model follows the code:

- `ColumnDataSource::as_bokeh_value` returns JSON `null` (lib.rs:52-56), not a typed model value.
- `references` holds only the root plot's data source (lib.rs:277-281). It does not walk the glyphs, layouts or tools.
- No `id` is ever assigned, and there is no deduplication by identity.

## Model

| member | source | states |
|---|---|---|
| `BokehModels.ColumnDataSource.constructor` | bokeh-models/src/lib.rs:37-41 | a new data source has no columns |
| `BokehModels.ColumnDataSource.Add` | bokeh-models/src/lib.rs:44-49 | the column `key` now holds `values`; the key set grows by `key` alone; every other column keeps its values (an existing column of that name is overwritten) |
| `BokehModels.ColumnDataSource.AsBokehValue` | bokeh-models/src/lib.rs:52-56 | the representation of a data source is `null`, which is not of the typed-model-value shape |
| `BokehModels.DefaultCircle` | bokeh-models/src/lib.rs:153-173 | a new circle has every channel (x, y, fill colour, size, line colour) unset |
| `BokehModels.Plot.constructor` | bokeh-models/src/lib.rs:85-93 | a new plot has no border, no source, no glyphs, no layouts and no tools |
| `BokehModels.Plot.AddGlyph` | bokeh-models/src/lib.rs:96-102 | the source becomes the given one whatever it was before; the glyph is appended at the end of the earlier glyphs; layouts, tools and border are unchanged |
| `BokehModels.Plot.AddLayout` | bokeh-models/src/lib.rs:105-110 | the position maps to the given layout, overwriting any earlier one; every other position keeps its layout; source, glyphs, tools and border are unchanged |
| `BokehModels.Plot.AddTool` | bokeh-models/src/lib.rs:113-118 | exactly one tool is appended at the end; nothing else changes |
| `BokehModels.PlotState.Validate` | bokeh-models/src/lib.rs:121-132 | validation fails, with `MissingDataSource`, exactly when no source is bound; on success the validated plot's source, border, glyphs, layouts and tools are those of the builder |
| `BokehModels.ValidateUnvalidated` | bokeh-models/src/lib.rs:121-143 | every validated plot is the result of validating a builder holding its own fields |
| `BokehModels.BasicTicker.AsBokehValue` | bokeh-models/src/lib.rs:211-218 | the value is exactly `{"attributes": {}, "type": "BasicTicker"}`, of the typed-model-value shape, with no `id` key |
| `BokehModels.BasicTickFormatter.AsBokehValue` | bokeh-models/src/lib.rs:232-239 | the value is exactly `{"attributes": {}, "type": "BasicTickFormatter"}`, of the typed-model-value shape, with no `id` key |
| `Json.TypedModelValue` | bokeh-models/src/lib.rs:211-239 | a representation built from a kind and attributes has exactly the keys `attributes` and `type`, no `id`, and gives back that kind and those attributes |
| `Json.TypedModelValueFromParts` | bokeh-models/src/lib.rs:211-239 | every value of the representation shape is the one built from its own `type` tag and `attributes` |
| `Json.TypedModelValueDeterminedByParts` | bokeh-models/src/lib.rs:211-239 | two representations with the same `type` tag and the same attributes are equal |
| `BokehModels.Document.constructor` | bokeh-models/src/lib.rs:250-252 | a new document has no root plot |
| `BokehModels.Document.AddRoot` | bokeh-models/src/lib.rs:255-257 | the root becomes the given plot, replacing any earlier root, so after two calls only the second plot is stored |
| `BokehModels.Document.Validate` | bokeh-models/src/lib.rs:260-267 | fails with `MissingPlot` when there is no root; passes on the root plot's own error; succeeds exactly when a root with a bound source is present, and then wraps exactly the validated root plot |
| `BokehModels.ValidatedDocument.References` | bokeh-models/src/lib.rs:277-281 | the reference list has one element, the representation of the root plot's data source |
| `BokehModels.ToBokehJson` | bokeh-models/src/lib.rs:293-307 | always succeeds; the result is an object with exactly the keys `roots`, `title` and `version`; `roots` is `{"references": references()}`, `title` is the argument and `version` is "1.0.3" |
| `WireFormat.ParseToBokehJson` | bokeh-models/src/lib.rs:293-307 | reading a serialised document back gives the document's references, the title passed in and version "1.0.3" |
| `WireFormat.ParseWireDetermines` | bokeh-models/src/lib.rs:293-307 | any value of the document shape whose parts are a document's references, a title and "1.0.3" is exactly what `to_bokeh_json` produces for them, so the output is fixed by its three parts |
| `WireFormat.DemoDocument` | bokeh-models/src/lib.rs:260-307 | a document with one plot, one circle over columns `x` = [1, 2, 3] and `y` = [4, 5, 6], validated and serialised under "demo", reads back as references `[null]`, title "demo" and version "1.0.3" |
| `PlotTrace.BuildSnoc` | bokeh-models/src/lib.rs:96-118 | builder calls apply in order: one more call at the end is one more step on the state built so far |
| `PlotTrace.BuildFields` | bokeh-models/src/lib.rs:96-118 | after any sequence of builder calls the border is untouched; the source is the last one bound; glyphs and tools are the earlier ones followed by those added, in call order; each position holds the last layout stored there |
| `PlotTrace.LastSourcePresent` | bokeh-models/src/lib.rs:96-102 | a source is bound after a sequence of calls exactly when one was bound before or some call added a glyph |
| `PlotTrace.ValidateAfterBuild` | bokeh-models/src/lib.rs:96-132 | a plot built by any sequence of calls validates exactly when it started with a source or some call added a glyph; it then carries the last source bound; otherwise it fails with `MissingDataSource` |
| `PlotTrace.NewPlotValidation` | bokeh-models/src/lib.rs:85-132 | from a new plot, validation fails with `MissingDataSource` exactly when no glyph was added; a plot whose last call added a glyph validates with that call's source |

## Left out

- `file_html` (lib.rs:285-290) is `unimplemented!()` and would only panic. It also concerns HTML output.
- `ToBokeh::as_string` (lib.rs:23-25) is JSON text encoding by serde_json. The model works on JSON values, not their text.
- Error messages are not modelled. The two errors are the cases `MissingDataSource` and `MissingPlot` of an enum.
- JSON booleans and numbers are not modelled, because the core never builds them. Object key order is not modelled either (objects are maps).
- Column values (`f64`) are `real`s that are only stored, never computed on. `HashMap` hashing and iteration order are not modelled; only map semantics are.
- Rust lifetimes and borrowing are not modelled. In the model, a bound `ColumnDataSource` can still be changed through another reference, which the shared borrow forbids in Rust. Nothing in the model reads the columns of a bound source, so no result depends on it.
- `Document.AddRoot` stores the plot's contents as of the call, not the `Plot` object. Rust moves the plot into the document, so the caller cannot change it afterwards; the model's copy gives the same guarantee.
- `Plot::validate` and `Document::validate` consume their builders in Rust. In the model they are functions, and the builder object stays usable afterwards.
- `min_border` is a public field that callers set directly. It has no builder method, so it is not one of the `PlotOp` calls.
- The test macro `assert_without_id_equal!` and the commented-out tests (lib.rs:309-366) are not modelled as such. Their expected ticker values are the `ensures` of the two `AsBokehValue` functions.
