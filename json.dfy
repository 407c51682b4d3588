/**
 * The JSON values the Bokeh models produce (serde_json's `Value`, restricted to
 * the kinds the core ever builds), and `{"attributes": {...}, "type": "<Kind>"}`,
 * the shape of the ticker and tick-formatter representations.
 */
module Json {
  import opened Wrappers

  /** A JSON value. Objects are maps from key to value, so key order is not modelled. */
  datatype Value =
    | Null
    | Str(s: string)
    | Arr(items: seq<Value>)
    | Obj(fields: map<string, Value>)

  /** The value under `key` when `v` is an object that has it. */
  function Get(v: Value, key: string): Option<Value>
  {
    if v.Obj? && key in v.fields then Some(v.fields[key]) else None
  }

  /** The shape of the ticker and tick-formatter representations: exactly the keys `attributes` (an object) and `type` (a string). */
  predicate IsTypedModelValue(v: Value)
  {
    && v.Obj?
    && v.fields.Keys == {"attributes", "type"}
    && v.fields["attributes"].Obj?
    && v.fields["type"].Str?
  }

  /** The `type` tag of a model representation. */
  function TypeTag(v: Value): Option<string>
  {
    match Get(v, "type")
    case Some(Str(kind)) => Some(kind)
    case _ => None
  }

  /** The `attributes` object of a model representation. */
  function Attributes(v: Value): Option<map<string, Value>>
  {
    match Get(v, "attributes")
    case Some(Obj(attributes)) => Some(attributes)
    case _ => None
  }

  /**
   * Builds the representation of a model of kind `kind`. It carries no `id`:
   * identities are the serialiser's business, not the model's.
   */
  function TypedModelValue(kind: string, attributes: map<string, Value>): (v: Value)
    ensures IsTypedModelValue(v)
    ensures "id" !in v.fields
    ensures TypeTag(v) == Some(kind) && Attributes(v) == Some(attributes)
  {
    Obj(map["attributes" := Obj(attributes), "type" := Str(kind)])
  }

  /** Every value of the representation shape is the one built from its tag and its attributes. */
  lemma TypedModelValueFromParts(v: Value)
    requires IsTypedModelValue(v)
    ensures TypeTag(v).Some? && Attributes(v).Some?
    ensures v == TypedModelValue(TypeTag(v).value, Attributes(v).value)
  {
  }

  /** Two representations with the same tag and attributes are the same value. */
  lemma TypedModelValueDeterminedByParts(v: Value, w: Value)
    requires IsTypedModelValue(v) && IsTypedModelValue(w)
    requires TypeTag(v) == TypeTag(w) && Attributes(v) == Attributes(w)
    ensures v == w
  {
  }
}
