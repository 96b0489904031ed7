/** The data the client moves between Python objects and the wire. */
module Values {
  import opened Uuids

  /** A 64-bit float, kept as its bit pattern: the model never computes with one. */
  datatype Float = Float(bits: bv64)

  /** A JSON value, as REST bodies and protobuf `Struct` values carry them. */
  datatype Value =
    | Null
    | Str(s: string)
    | Int(i: int)
    | Number(f: Float)
    | Bool(b: bool)
    | Array(items: seq<Value>)
    | Object(fields: map<string, Value>)

  /** What a property holds on the Python side before it is written out: a
      plain JSON-able value, the `UUIDS` of a reference field (one id is a
      one-element list), or a `RefToObject` marker of the untyped API. */
  datatype FieldValue =
    | Plain(v: Value)
    | Ids(ids: seq<UuidValue>)
    | RefTo(uuidsTo: seq<UuidValue>)

  /** The string form of each id, as a JSON list. */
  function IdArray(ids: seq<UuidValue>): (r: Value)
    ensures r.Array? && |r.items| == |ids|
    ensures forall i :: 0 <= i < |ids| ==> r.items[i] == Str(UuidString(ids[i]))
  {
    Array(seq(|ids|, i requires 0 <= i < |ids| => Str(UuidString(ids[i]))))
  }

  /** A property value as the JSON encoder writes it when nothing converts it
      first: a plain value as itself, a list of ids as their strings, and a
      `RefToObject` as an object holding its one field `uuids_to`. */
  function Dumped(fv: FieldValue): Value {
    match fv
    case Plain(v) => v
    case Ids(ids) => IdArray(ids)
    case RefTo(ids) => Object(map["uuids_to" := IdArray(ids)])
  }
}
