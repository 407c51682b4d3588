/**
 * Reading Bokeh's JSON document format back: a reader that accepts exactly the
 * documents of the shape `{"roots": {"references": [...]}, "title": ..., "version": ...}`,
 * the round trip with `ToBokehJson`, and a client that builds the document of
 * a one-circle plot over two columns.
 */
module WireFormat {
  import opened Wrappers
  import Json
  import opened BokehModels

  /** The three parts a serialised document carries. */
  datatype WireDocument = WireDocument(references: seq<Json.Value>, title: string, version: string)

  /** The parts of `v` when it has exactly the document shape, `None` otherwise. */
  function ParseWire(v: Json.Value): Option<WireDocument>
  {
    if && v.Obj?
       && v.fields.Keys == {"roots", "title", "version"}
       && v.fields["roots"].Obj?
       && v.fields["roots"].fields.Keys == {"references"}
       && v.fields["roots"].fields["references"].Arr?
       && v.fields["title"].Str?
       && v.fields["version"].Str?
    then Some(WireDocument(v.fields["roots"].fields["references"].items, v.fields["title"].s, v.fields["version"].s))
    else None
  }

  /** Reading a serialised document gives back its references, its title and the version. */
  lemma ParseToBokehJson(doc: ValidatedDocument, title: string)
    ensures ParseWire(ToBokehJson(doc, title).value) == Some(WireDocument(doc.References(), title, BokehVersion))
  {
  }

  /** A document-shaped value is determined by its parts: it is what serialising them gives. */
  lemma ParseWireDetermines(v: Json.Value, doc: ValidatedDocument, title: string)
    requires ParseWire(v) == Some(WireDocument(doc.References(), title, BokehVersion))
    ensures v == ToBokehJson(doc, title).value
  {
    var w := ToBokehJson(doc, title).value;
    var roots := v.fields["roots"];
    assert roots.fields == w.fields["roots"].fields;
    assert v.fields.Keys == w.fields.Keys;
    assert v.fields == w.fields;
  }

  /**
   * A document with one plot, one data source with columns `x = [1, 2, 3]` and
   * `y = [4, 5, 6]` and one circle over them, serialised under the title
   * "demo": one reference, the source's representation, and the version "1.0.3".
   */
  method DemoDocument() returns (out: Result<Json.Value>)
    ensures out.Ok? && ParseWire(out.value) == Some(WireDocument([Json.Null], "demo", "1.0.3"))
  {
    var source := new ColumnDataSource();
    source.Add("x", [1.0, 2.0, 3.0]);
    source.Add("y", [4.0, 5.0, 6.0]);
    var plot := new Plot();
    plot.AddGlyph(source, CircleGlyph(DefaultCircle().(x := Some("x"), y := Some("y"))));
    var doc := new Document();
    doc.AddRoot(plot);
    var validated := doc.Validate();
    out := ToBokehJson(validated.value, "demo");
    ParseToBokehJson(validated.value, "demo");
  }
}
