/** The untyped collection API: request bodies built from plain property
    dictionaries, in which a `RefToObject` value stands for a reference, and
    the decoding of the objects the server returns. */
module Untyped {
  import opened Wrappers
  import opened Uuids
  import opened Values
  import opened Beacons
  import opened Payloads

  /** `DataObject(data, uuid, vector)`, one entry of `insert_many`. */
  datatype DataObject = DataObject(data: map<string, FieldValue>, uuid: Option<UuidValue>, vector: Option<seq<Float>>)

  /** The `properties` of every body: a `RefToObject` becomes `to_beacon()`,
      which names no target class; any other value is sent as it is. */
  function PayloadProperties(uri: BeaconUri, data: map<string, FieldValue>): (r: map<string, Value>)
    ensures r.Keys == data.Keys
  {
    map k | k in data :: if data[k].RefTo? then ToBeacons(uri, data[k].uuidsTo, None) else Dumped(data[k])
  }

  /** A reference written into the properties reads back as the string form
      of its ids, in order; every other value is sent unchanged. */
  lemma PayloadPropertiesReadBack(uri: BeaconUri, data: map<string, FieldValue>, k: string)
    requires EndsWithId(uri) && k in data
    requires data[k].RefTo? ==> forall i :: 0 <= i < |data[k].uuidsTo| ==> '/' !in UuidString(data[k].uuidsTo[i])
    ensures k in PayloadProperties(uri, data)
    ensures data[k].RefTo? ==> BeaconIds(PayloadProperties(uri, data)[k]) == Some(IdStrings(data[k].uuidsTo))
    ensures !data[k].RefTo? ==> PayloadProperties(uri, data)[k] == Dumped(data[k])
  {
    if data[k].RefTo? {
      BeaconRoundTrip(uri, data[k].uuidsTo, None);
    }
  }

  /** The `id` of an inserted object: `str(uuid)` when one is given, else
      the string of a fresh `uuid4()`, supplied here as `drawn`. */
  function InsertId(uuid: Option<UuidValue>, drawn: Uuid): (r: string)
    ensures uuid.None? ==> Parse(r) == Some(drawn)
    ensures uuid.Some? ==> r == UuidString(uuid.value)
  {
    match uuid
    case Some(u) => UuidString(u)
    case None => ParseFormat(drawn); Format(drawn)
  }

  /** `insert(data, uuid, vector)`: the body always carries an id, and a
      vector exactly when one is given. */
  function Insert(name: string, uri: BeaconUri, data: map<string, FieldValue>, uuid: Option<UuidValue>,
                  vector: Option<seq<Float>>, drawn: Uuid): (r: map<string, Value>)
    ensures r.Keys == {"class", "properties", "id"} + (if vector.Some? then {"vector"} else {})
    ensures r["class"] == Str(name) && r["properties"] == Object(PayloadProperties(uri, data))
    ensures r["id"] == Str(InsertId(uuid, drawn))
    ensures vector.Some? ==> r["vector"] == VectorValue(vector.value)
  {
    WireObject(name, PayloadProperties(uri, data), Some(InsertId(uuid, drawn)), vector)
  }

  /** `insert_many(objects)` as written: one body per object, in order, with
      the object's id (or a fresh one) and never a vector. */
  function InsertManyAsWritten(name: string, uri: BeaconUri, objs: seq<DataObject>, drawn: seq<Uuid>)
    : (r: seq<map<string, Value>>)
    requires |drawn| == |objs|
    ensures |r| == |objs|
    ensures forall i :: 0 <= i < |objs| ==> r[i] == Insert(name, uri, objs[i].data, objs[i].uuid, None, drawn[i])
    ensures forall i :: 0 <= i < |objs| ==> "vector" !in r[i]
  {
    seq(|objs|, i requires 0 <= i < |objs| => Insert(name, uri, objs[i].data, objs[i].uuid, None, drawn[i]))
  }

  /** `insert_many(objects)` sending each object's vector, as `insert` does. */
  function InsertMany(name: string, uri: BeaconUri, objs: seq<DataObject>, drawn: seq<Uuid>)
    : (r: seq<map<string, Value>>)
    requires |drawn| == |objs|
    ensures |r| == |objs|
    ensures forall i :: 0 <= i < |objs| ==> r[i] == Insert(name, uri, objs[i].data, objs[i].uuid, objs[i].vector, drawn[i])
  {
    seq(|objs|, i requires 0 <= i < |objs| => Insert(name, uri, objs[i].data, objs[i].uuid, objs[i].vector, drawn[i]))
  }

  /** As written, the vector of a `DataObject` never reaches the server;
      otherwise both send the same body. */
  lemma InsertManyDropsVectorAsWritten(name: string, uri: BeaconUri, objs: seq<DataObject>, drawn: seq<Uuid>, i: nat)
    requires |drawn| == |objs| && i < |objs|
    ensures objs[i].vector.Some? ==>
      "vector" !in InsertManyAsWritten(name, uri, objs, drawn)[i] && "vector" in InsertMany(name, uri, objs, drawn)[i]
    ensures objs[i].vector.None? ==> InsertManyAsWritten(name, uri, objs, drawn)[i] == InsertMany(name, uri, objs, drawn)[i]
  {
  }

  /** The body of `replace(data, uuid, vector)` and of `update(data, uuid,
      vector)`: no id (the target travels beside it), a vector exactly when
      one is given. */
  function ReplaceBody(name: string, uri: BeaconUri, data: map<string, FieldValue>, vector: Option<seq<Float>>)
    : (r: map<string, Value>)
    ensures r.Keys == {"class", "properties"} + (if vector.Some? then {"vector"} else {})
    ensures r["class"] == Str(name) && r["properties"] == Object(PayloadProperties(uri, data))
    ensures vector.Some? ==> r["vector"] == VectorValue(vector.value)
  {
    WireObject(name, PayloadProperties(uri, data), None, vector)
  }

  /** An object read back: its properties and the raw JSON, which becomes
      `MetadataReturn(**obj)`. */
  datatype UntypedObject = UntypedObject(data: map<string, Value>, metadata: map<string, Value>)

  /** The server's answer could not be read (`KeyError` or `TypeError`). */
  datatype ReadError = ReadError

  /** `_json_to_object(obj)`: the properties copied as they are; None where
      Python raises, when `obj` has no dict under "properties". */
  function JsonToObject(obj: Value): Option<UntypedObject> {
    if obj.Object? && "properties" in obj.fields && obj.fields["properties"].Object? then
      Some(UntypedObject(obj.fields["properties"].fields, obj.fields))
    else None
  }

  /** A body this API wrote reads back with exactly the properties it sent. */
  lemma InsertReadBack(name: string, uri: BeaconUri, data: map<string, FieldValue>, uuid: Option<UuidValue>,
                       vector: Option<seq<Float>>, drawn: Uuid)
    ensures JsonToObject(Object(Insert(name, uri, data, uuid, vector, drawn))).Some?
    ensures JsonToObject(Object(Insert(name, uri, data, uuid, vector, drawn))).value.data == PayloadProperties(uri, data)
    ensures JsonToObject(Object(ReplaceBody(name, uri, data, vector))).Some?
    ensures JsonToObject(Object(ReplaceBody(name, uri, data, vector))).value.data == PayloadProperties(uri, data)
  {
  }

  /** Each listed object decoded in turn; a failure anywhere fails the list. */
  function ReadObjects(objs: seq<Value>): (r: Result<seq<UntypedObject>, ReadError>)
    ensures r.Success? ==> |r.value| == |objs|
    ensures r.Success? ==> forall i :: 0 <= i < |objs| ==> JsonToObject(objs[i]) == Some(r.value[i])
    ensures r.Success? <==> forall i :: 0 <= i < |objs| ==> JsonToObject(objs[i]).Some?
  {
    if objs == [] then Success([])
    else
      match (JsonToObject(objs[0]), ReadObjects(objs[1..]))
      case (Some(o), Success(rest)) => Success([o] + rest)
      case (None, _) => Failure(ReadError)
      case (_, Failure(e)) => Failure(e)
  }

  /** `ret is None`: the server gave no answer, or its JSON was `null`. */
  predicate NoAnswer(ret: Option<Value>) {
    ret.None? || ret.value == Null
  }

  /** `get()`: no answer from the server (or a JSON `null`) is an empty
      list; otherwise one object per element Python iterates under
      "objects": a list's entries,
      nothing for an empty string or object, and for a non-empty string or
      object elements (characters, keys) that are not objects and fail. */
  function Get(ret: Option<Value>): (r: Result<seq<UntypedObject>, ReadError>)
    ensures NoAnswer(ret) ==> r == Success([])
    ensures !NoAnswer(ret) ==>
      (r.Success? <==>
        ret.value.Object? && "objects" in ret.value.fields &&
        ((ret.value.fields["objects"].Array? &&
          forall i :: 0 <= i < |ret.value.fields["objects"].items| ==> JsonToObject(ret.value.fields["objects"].items[i]).Some?) ||
         ret.value.fields["objects"] == Str([]) || ret.value.fields["objects"] == Object(map[])))
    ensures !NoAnswer(ret) && r.Success? && ret.value.fields["objects"].Array? ==>
      |r.value| == |ret.value.fields["objects"].items| &&
      forall i :: 0 <= i < |r.value| ==> JsonToObject(ret.value.fields["objects"].items[i]) == Some(r.value[i])
    ensures !NoAnswer(ret) && r.Success? && !ret.value.fields["objects"].Array? ==> r.value == []
  {
    if NoAnswer(ret) then Success([])
    else
      var v := ret.value;
      if !(v.Object? && "objects" in v.fields) then Failure(ReadError)
      else
        match v.fields["objects"]
        case Array(items) => ReadObjects(items)
        case Str(s) => if s == [] then Success([]) else Failure(ReadError)
        case Object(f) => if f == map[] then Success([]) else Failure(ReadError)
        case _ => Failure(ReadError)
  }

  /** `get_by_id(uuid)`: no answer (or a JSON `null`) is None, unlike `get`; otherwise the one
      object decoded. */
  function GetById(ret: Option<Value>): (r: Result<Option<UntypedObject>, ReadError>)
    ensures NoAnswer(ret) ==> r == Success(None)
    ensures !NoAnswer(ret) ==> (r.Success? <==> JsonToObject(ret.value).Some?)
    ensures !NoAnswer(ret) && r.Success? ==> r.value == JsonToObject(ret.value)
  {
    if NoAnswer(ret) then Success(None)
    else
      match JsonToObject(ret.value)
      case Some(o) => Success(Some(o))
      case None => Failure(ReadError)
  }

  /** A JSON `null` answer is `None` to both readers: `get` gives an empty
      list and `get_by_id` gives None. */
  lemma NullAnswerIsNone()
    ensures Get(Some(Null)) == Success([])
    ensures GetById(Some(Null)) == Success(None)
  {
  }
}
