/** The object bodies both collection APIs hand to the REST layer: a JSON
    object with the collection name, the encoded properties and, when the
    caller has them, the id and the vector. */
module Payloads {
  import opened Wrappers
  import opened Values

  /** A vector as JSON: its components in order. */
  function VectorValue(v: seq<Float>): (r: Value)
    ensures r.Array? && |r.items| == |v|
    ensures forall i :: 0 <= i < |v| ==> r.items[i] == Number(v[i])
  {
    Array(seq(|v|, i requires 0 <= i < |v| => Number(v[i])))
  }

  /** `{"class": name, "properties": properties}`, with `"id"` added when an
      id is given and `"vector"` added when a vector is given. */
  function WireObject(className: string, properties: map<string, Value>, id: Option<string>, vector: Option<seq<Float>>)
    : (r: map<string, Value>)
    ensures r.Keys == {"class", "properties"} + (if id.Some? then {"id"} else {}) + (if vector.Some? then {"vector"} else {})
    ensures r["class"] == Str(className) && r["properties"] == Object(properties)
    ensures id.Some? ==> r["id"] == Str(id.value)
    ensures vector.Some? ==> r["vector"] == VectorValue(vector.value)
  {
    var base := map["class" := Str(className), "properties" := Object(properties)];
    var withId := if id.Some? then base["id" := Str(id.value)] else base;
    if vector.Some? then withId["vector" := VectorValue(vector.value)] else withId
  }
}
