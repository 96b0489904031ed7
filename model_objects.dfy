/** The object side of the typed collection API: a `BaseProperty` instance,
    its identifier, the property dictionary it writes (references as
    beacons), the request bodies built from it, and the decoding of an object
    read back from the server. */
module ModelObjects {
  import opened Wrappers
  import opened Uuids
  import opened Values
  import opened Beacons
  import opened ModelSchema
  import opened Payloads

  /** `UUID(hex=hashlib.md5(s.encode("UTF-8")).hexdigest())`: the digest is
      not part of this model, only that it is a function of `s`. */
  type Md5 = string -> Uuid

  /** `create_valid_uuid`: a `UUID` passes through, a string that parses as a
      UUID is parsed, and any other string is hashed. */
  function CreateValidUuid(input: UuidValue, md5: Md5): Uuid {
    match input
    case UuidObj(u) => u
    case UuidStr(s) =>
      match Parse(s)
      case Some(u) => u
      case None => md5(s)
  }

  /** A validated id is a fixed point of validation, whether it is passed
      again as a `UUID` or as its string form; so a string that already names
      a UUID is never hashed. */
  lemma CreateValidUuidFixedPoint(input: UuidValue, md5: Md5)
    ensures CreateValidUuid(UuidObj(CreateValidUuid(input, md5)), md5) == CreateValidUuid(input, md5)
    ensures CreateValidUuid(UuidStr(Format(CreateValidUuid(input, md5))), md5) == CreateValidUuid(input, md5)
  {
    ParseFormat(CreateValidUuid(input, md5));
  }

  /** Two strings that name the same UUID validate to the same id, and a
      string that names no UUID validates to its digest. */
  lemma CreateValidUuidOfString(s: string, md5: Md5)
    ensures Parse(s).Some? ==> CreateValidUuid(UuidStr(s), md5) == Parse(s).value
    ensures Parse(s).None? ==> CreateValidUuid(UuidStr(s), md5) == md5(s)
    ensures Parse(s).Some? ==> Format(CreateValidUuid(UuidStr(s), md5)) == Format(Parse(s).value)
  {
  }

  /** The id an instance gets as written: `Field(default=uuid4())` draws the
      default once, when the class is defined, so every instance built
      without an id shares `classDefault`. */
  function AssignedIdAsWritten(given: Option<UuidValue>, classDefault: Uuid, md5: Md5): Uuid {
    match given
    case Some(v) => CreateValidUuid(v, md5)
    case None => classDefault
  }

  /** The id an instance gets with a per-instance default
      (`default_factory=uuid4`): a fresh draw for each instance. */
  function AssignedId(given: Option<UuidValue>, drawn: Uuid, md5: Md5): Uuid {
    match given
    case Some(v) => CreateValidUuid(v, md5)
    case None => drawn
  }

  /** As written, every instance built without an id gets the one class
      default, so two such inserts name the same object on the server; of two
      distinct per-instance draws at least one differs from that default. */
  lemma DefaultIdSharedAsWritten(classDefault: Uuid, drawn1: Uuid, drawn2: Uuid, md5: Md5)
    requires drawn1 != drawn2
    ensures AssignedIdAsWritten(None, classDefault, md5) == classDefault
    ensures AssignedId(None, drawn1, md5) != classDefault || AssignedId(None, drawn2, md5) != classDefault
  {
  }

  /** With a draw per instance, two instances built without an id get
      distinct ids whenever the draws differ; an id the caller gives is used
      either way. */
  lemma FreshIdsDistinct(drawn1: Uuid, drawn2: Uuid, classDefault: Uuid, given: UuidValue, md5: Md5)
    requires drawn1 != drawn2
    ensures AssignedId(None, drawn1, md5) != AssignedId(None, drawn2, md5)
    ensures AssignedId(Some(given), drawn1, md5) == AssignedIdAsWritten(Some(given), classDefault, md5) == CreateValidUuid(given, md5)
  {
  }

  /** The fields a model declares itself (`uuid` and `vector` are inherited). */
  function OwnFields(m: ModelType): (r: set<string>)
    ensures r !! BaseFields
    ensures GetRefFields(m) <= r && GetNonRefFields(m) <= r
  {
    m.fields.Keys - BaseFields
  }

  /** What a reference field may hold: its ids, or None. */
  predicate IsRefValue(v: FieldValue) {
    v.Ids? || v == Plain(Null)
  }

  /** The keyword arguments pydantic accepts for `m`: own fields only, every
      field without a default given, and reference fields holding ids or None. */
  predicate Accepts(m: ModelType, data: map<string, FieldValue>) {
    data.Keys <= OwnFields(m) &&
    (forall n :: n in OwnFields(m) && n !in data ==> m.fields[n].default.Some?) &&
    (forall r :: r in GetRefFields(m) && r in data ==> IsRefValue(data[r])) &&
    (forall r :: r in GetRefFields(m) && r !in data ==> IsRefValue(m.fields[r].default.value))
  }

  /** The own field values after pydantic fills in the defaults. */
  function Filled(m: ModelType, data: map<string, FieldValue>): (r: map<string, FieldValue>)
    requires Accepts(m, data)
    ensures r.Keys == OwnFields(m)
    ensures forall n :: n in data ==> r[n] == data[n]
  {
    map n | n in OwnFields(m) :: if n in data then data[n] else m.fields[n].default.value
  }

  /** `ReferenceTo.name` of the reference field `r`. */
  function RefClass(m: ModelType, r: string): string
    requires r in GetRefFields(m)
  {
    RefName(m.fields[r].metadata[0].target)
  }

  /** A `BaseProperty` instance: the model it belongs to, its id and vector,
      its own field values, the fields the caller set, and the two private
      attributes `__init__` computes. */
  class BaseProperty {
    const model: ModelType
    const uuid: Uuid
    const vector: Option<seq<Float>>
    const values: map<string, FieldValue>
    /** `model_fields_set` */
    const fieldsSet: set<string>
    /** `_reference_fields` */
    const referenceFields: set<string>
    /** `_reference_to_class` */
    const referenceToClass: map<string, string>

    ghost predicate Valid() {
      values.Keys == OwnFields(model) &&
      referenceFields == GetRefFields(model) &&
      referenceToClass.Keys == referenceFields &&
      (forall r :: r in referenceFields ==> referenceToClass[r] == RefClass(model, r)) &&
      (forall r :: r in referenceFields ==> IsRefValue(values[r]))
    }

    /** `BaseProperty(**data)`: pydantic fills the fields, then `__init__`
        records the reference fields and the class each one points to. */
    constructor (model: ModelType, data: map<string, FieldValue>, uuid: Option<UuidValue>,
                 vector: Option<seq<Float>>, drawn: Uuid, md5: Md5)
      requires Accepts(model, data)
      ensures Valid()
      ensures this.model == model && values == Filled(model, data)
      ensures this.uuid == AssignedId(uuid, drawn, md5) && this.vector == vector
      ensures fieldsSet == data.Keys + (if uuid.Some? then {"uuid"} else {}) + (if vector.Some? then {"vector"} else {})
    {
      this.model := model;
      values := Filled(model, data);
      this.uuid := AssignedId(uuid, drawn, md5);
      this.vector := vector;
      fieldsSet := data.Keys + (if uuid.Some? then {"uuid"} else {}) + (if vector.Some? then {"vector"} else {});
      var refs := GetRefFields(model);
      var toClass: map<string, string> := map[];
      var rest := refs;
      while rest != {}
        invariant rest <= refs
        invariant toClass.Keys == refs - rest
        invariant forall r :: r in toClass ==> r in refs && toClass[r] == RefClass(model, r)
        decreases rest
      {
        var r :| r in rest;
        toClass := toClass[r := RefClass(model, r)];
        rest := rest - {r};
      }
      referenceFields := refs;
      referenceToClass := toClass;
    }

    /** The fields `props_to_dict` leaves out of the dump as written: the
        `union` for `update` builds a new set and discards it. */
    function ExcludedFieldsAsWritten(update: bool): set<string> {
      referenceFields + BaseFields
    }

    /** The fields `props_to_dict` is meant to leave out: with `update`, also
        every field the caller did not set. */
    function ExcludedFields(update: bool): set<string> {
      referenceFields + BaseFields + (if update then model.fields.Keys - fieldsSet else {})
    }

    /** `model_dump(exclude=excluded)` of the own fields. */
    function Dump(excluded: set<string>): map<string, Value> {
      map n | n in values && n !in excluded :: Dumped(values[n])
    }

    /** The beacon lists of the reference fields in `done` that hold ids
        (`getattr(self, ref, None)` is None for a field with no value). */
    function RefBeacons(uri: BeaconUri, done: set<string>): map<string, Value> {
      map r | r in done && r in referenceFields && r in values && values[r].Ids? && r in referenceToClass ::
        ToBeacons(uri, values[r].ids, Some(referenceToClass[r]))
    }

    /** What `props_to_dict(update)` returns as written. */
    function EncodedPropsAsWritten(update: bool, uri: BeaconUri): map<string, Value> {
      Dump(ExcludedFieldsAsWritten(update)) + RefBeacons(uri, referenceFields)
    }

    /** What `props_to_dict(update)` is meant to return. */
    function EncodedProps(update: bool, uri: BeaconUri): map<string, Value> {
      Dump(ExcludedFields(update)) + RefBeacons(uri, referenceFields)
    }

    /** `props_to_dict(update)`: dump the plain fields, then write each
        reference field that is not None as its beacon list. */
    method PropsToDict(update: bool, uri: BeaconUri) returns (c: map<string, Value>)
      ensures c == EncodedProps(update, uri)
    {
      var excluded := referenceFields + BaseFields;
      if update {
        excluded := excluded + (model.fields.Keys - fieldsSet);
      }
      c := map n | n in values && n !in excluded :: Dumped(values[n]);
      var rest := referenceFields;
      while rest != {}
        invariant rest <= referenceFields
        invariant c == Dump(excluded) + RefBeacons(uri, referenceFields - rest)
        decreases rest
      {
        var r :| r in rest;
        var done := referenceFields - rest;
        if r in values && values[r].Ids? && r in referenceToClass {
          WriteBeacons(excluded, uri, done, r, c);
          c := c[r := ToBeacons(uri, values[r].ids, Some(referenceToClass[r]))];
        } else {
          SkipBeacons(uri, done, r);
        }
        assert done + {r} == referenceFields - (rest - {r});
        rest := rest - {r};
      }
      assert referenceFields - rest == referenceFields;
    }

    /** Writing the beacon list of one more reference field that holds ids. */
    lemma WriteBeacons(excluded: set<string>, uri: BeaconUri, done: set<string>, r: string, c: map<string, Value>)
      requires r in referenceFields && r in values && values[r].Ids? && r in referenceToClass
      requires c == Dump(excluded) + RefBeacons(uri, done)
      ensures c[r := ToBeacons(uri, values[r].ids, Some(referenceToClass[r]))] == Dump(excluded) + RefBeacons(uri, done + {r})
    {
      var x := ToBeacons(uri, values[r].ids, Some(referenceToClass[r]));
      assert RefBeacons(uri, done + {r}) == RefBeacons(uri, done)[r := x];
    }

    /** A reference field with no ids adds nothing. */
    lemma SkipBeacons(uri: BeaconUri, done: set<string>, r: string)
      requires !(r in values && values[r].Ids? && r in referenceToClass)
      ensures RefBeacons(uri, done + {r}) == RefBeacons(uri, done)
    {
    }

    /** The encoded properties hold no `uuid`, no `vector` and no reference
        field that is None; a reference field that holds ids is its beacon
        list; a plain field is its dumped value, present unless an update
        leaves it out because the caller did not set it. */
    lemma EncodedPropsKeys(update: bool, uri: BeaconUri, k: string)
      requires Valid()
      ensures "uuid" !in EncodedProps(update, uri) && "vector" !in EncodedProps(update, uri)
      ensures k in EncodedProps(update, uri) ==> k in values
      ensures k in referenceFields ==>
        (k in EncodedProps(update, uri) <==> values[k].Ids?) &&
        (values[k].Ids? ==> EncodedProps(update, uri)[k] == ToBeacons(uri, values[k].ids, Some(RefClass(model, k))))
      ensures k in values && k !in referenceFields ==>
        (k in EncodedProps(update, uri) <==> !update || k in fieldsSet) &&
        (k in EncodedProps(update, uri) ==> EncodedProps(update, uri)[k] == Dumped(values[k]))
    {
    }

    /** As written, `update` changes nothing: an update sends every plain
        field, including one the caller left at its default, which then
        overwrites the stored value. */
    lemma UpdateSendsUnsetAsWritten(uri: BeaconUri, k: string)
      requires Valid()
      requires k in values && k !in referenceFields && k !in fieldsSet
      ensures EncodedPropsAsWritten(true, uri) == EncodedPropsAsWritten(false, uri)
      ensures k in EncodedPropsAsWritten(true, uri)
      ensures k !in EncodedProps(true, uri)
    {
    }
  }

  /** `insert(obj)`: the body sent and the id returned, `UUID(str(obj.uuid))`. */
  method Insert(name: string, uri: BeaconUri, obj: BaseProperty) returns (body: map<string, Value>, id: Uuid)
    requires obj.Valid()
    ensures body == WireObject(name, obj.EncodedProps(false, uri), Some(Format(obj.uuid)), obj.vector)
    ensures id == obj.uuid
  {
    var props := obj.PropsToDict(false, uri);
    body := WireObject(name, props, Some(Format(obj.uuid)), obj.vector);
    ParseFormat(obj.uuid);
    id := Parse(Format(obj.uuid)).value;
  }

  /** One entry of `insert_many` as written: no `vector`. */
  function InsertManyEntryAsWritten(name: string, uri: BeaconUri, obj: BaseProperty): map<string, Value>
    requires obj.Valid()
  {
    WireObject(name, obj.EncodedProps(false, uri), Some(Format(obj.uuid)), None)
  }

  /** As written, `insert_many` drops the vector of every object, which
      `insert` of the same object sends. */
  lemma InsertManyDropsVectorAsWritten(name: string, uri: BeaconUri, obj: BaseProperty)
    requires obj.Valid() && obj.vector.Some?
    ensures "vector" !in InsertManyEntryAsWritten(name, uri, obj)
    ensures "vector" in WireObject(name, obj.EncodedProps(false, uri), Some(Format(obj.uuid)), obj.vector)
  {
  }

  /** As written, two instances built without an id carry the class default,
      so their `insert` bodies send the same "id" and name one server object. */
  lemma InsertsShareIdAsWritten(name: string, uri: BeaconUri, a: BaseProperty, b: BaseProperty, classDefault: Uuid, md5: Md5)
    requires a.Valid() && b.Valid()
    requires a.uuid == AssignedIdAsWritten(None, classDefault, md5) && b.uuid == AssignedIdAsWritten(None, classDefault, md5)
    ensures var bodyA := WireObject(name, a.EncodedProps(false, uri), Some(Format(a.uuid)), a.vector);
      var bodyB := WireObject(name, b.EncodedProps(false, uri), Some(Format(b.uuid)), b.vector);
      "id" in bodyA && "id" in bodyB && bodyA["id"] == bodyB["id"] == Str(Format(classDefault))
  {
  }

  /** `insert_many(objects)`: one body per object, in order, each the body
      `insert` builds for it. */
  method InsertMany(name: string, uri: BeaconUri, objs: seq<BaseProperty>) returns (bodies: seq<map<string, Value>>)
    requires forall i :: 0 <= i < |objs| ==> objs[i].Valid()
    ensures |bodies| == |objs|
    ensures forall i :: 0 <= i < |objs| ==>
      bodies[i] == WireObject(name, objs[i].EncodedProps(false, uri), Some(Format(objs[i].uuid)), objs[i].vector)
  {
    bodies := [];
    for i := 0 to |objs|
      invariant |bodies| == i
      invariant forall j :: 0 <= j < i ==>
        bodies[j] == WireObject(name, objs[j].EncodedProps(false, uri), Some(Format(objs[j].uuid)), objs[j].vector)
    {
      var props := objs[i].PropsToDict(false, uri);
      bodies := bodies + [WireObject(name, props, Some(Format(objs[i].uuid)), objs[i].vector)];
    }
  }

  /** `replace(obj, uuid)` (`update` false) and `update(obj, uuid)` (`update`
      true): the body carries no id, the target id travels beside it. */
  method ReplaceBody(name: string, uri: BeaconUri, obj: BaseProperty, update: bool) returns (body: map<string, Value>)
    requires obj.Valid()
    ensures body == WireObject(name, obj.EncodedProps(update, uri), None, obj.vector)
    ensures "id" !in body
  {
    var props := obj.PropsToDict(update, uri);
    body := WireObject(name, props, None, obj.vector);
  }

  /** An object read back: its properties (reference fields as id strings)
      and the raw JSON it came from, which becomes `MetadataReturn(**obj)`. */
  datatype ModelObject = ModelObject(data: map<string, Value>, metadata: map<string, Value>)

  /** A list of ids as JSON strings. */
  function StrArray(ids: seq<string>): (r: Value)
    ensures r.Array? && |r.items| == |ids| && forall i :: 0 <= i < |ids| ==> r.items[i] == Str(ids[i])
  {
    Array(seq(|ids|, i requires 0 <= i < |ids| => Str(ids[i])))
  }

  /** Whether every reference field of `m` present in `props` reads as a beacon list. */
  predicate RefsDecode(m: ModelType, props: map<string, Value>) {
    forall r :: r in GetRefFields(m) && r in props ==> BeaconIds(props[r]).Some?
  }

  /** The properties `_json_to_object` builds: each reference field present
      becomes the list of ids its beacons name; everything else is kept. */
  function DecodedProps(m: ModelType, props: map<string, Value>, done: set<string>): map<string, Value>
    requires RefsDecode(m, props)
  {
    map k | k in props :: if k in done && k in GetRefFields(m) then StrArray(BeaconIds(props[k]).value) else props[k]
  }

  /** `_json_to_object(obj)`; None where Python raises: `obj` is not a dict,
      has no dict under "properties", or a reference field does not hold a
      list of beacons. */
  function ObjectOf(m: ModelType, obj: Value): Option<ModelObject> {
    if obj.Object? && "properties" in obj.fields && obj.fields["properties"].Object? then
      var props := obj.fields["properties"].fields;
      if RefsDecode(m, props) then Some(ModelObject(DecodedProps(m, props, GetRefFields(m)), obj.fields))
      else None
    else None
  }

  /** The inner loop of `_json_to_object`: the last `/`-segment of each
      beacon. An empty string or dict iterates zero times; any other value
      that is not a list raises. */
  method ReadBeacons(v: Value) returns (ids: Option<seq<string>>)
    ensures ids == BeaconIds(v)
  {
    match v {
      case Array(items) => ids := ReadBeaconList(items);
      case Str(s) => ids := if s == [] then Some([]) else None;
      case Object(f) => ids := if f == map[] then Some([]) else None;
      case _ => ids := None;
    }
  }

  /** `for beacon in beacons: uuids.append(beacon["beacon"].split("/")[-1])`. */
  method ReadBeaconList(items: seq<Value>) returns (ids: Option<seq<string>>)
    ensures ids == BeaconIdsOf(items)
  {
    var acc: seq<string> := [];
    for i := 0 to |items|
      invariant |acc| == i
      invariant forall j :: 0 <= j < i ==> BeaconId(items[j]) == Some(acc[j])
    {
      var id := BeaconId(items[i]);
      if id.None? {
        BeaconIdsOfFails(items, i);
        return None;
      }
      var prev := acc;
      acc := acc + [id.value];
      assert forall j :: 0 <= j < i ==> acc[j] == prev[j];
    }
    BeaconIdsOfAll(items, acc);
    ids := Some(acc);
  }

  /** One unreadable beacon makes the whole list unreadable. */
  lemma {:induction false} BeaconIdsOfFails(items: seq<Value>, i: nat)
    requires i < |items| && BeaconId(items[i]).None?
    ensures BeaconIdsOf(items) == None
  {
    if i > 0 {
      BeaconIdsOfFails(items[1..], i - 1);
    }
  }

  /** `_json_to_object(obj)`: rewrite each reference field present in the
      properties as its ids, then pair the properties with the metadata. */
  method JsonToObject(m: ModelType, obj: Value) returns (r: Option<ModelObject>)
    ensures r == ObjectOf(m, obj)
  {
    if !(obj.Object? && "properties" in obj.fields && obj.fields["properties"].Object?) {
      return None;
    }
    var original := obj.fields["properties"].fields;
    var props := original;
    var refs := GetRefFields(m);
    var rest := refs;
    while rest != {}
      invariant rest <= refs
      invariant forall x :: x in refs - rest && x in original ==> BeaconIds(original[x]).Some?
      invariant props.Keys == original.Keys
      invariant forall k :: k in props ==>
        props[k] == if k in refs - rest then StrArray(BeaconIds(original[k]).value) else original[k]
      decreases rest
    {
      var x :| x in rest;
      if x in props {
        var ids := ReadBeacons(props[x]);
        if ids.None? {
          assert x in GetRefFields(m) && x in original && BeaconIds(original[x]).None?;
          return None;
        }
        props := props[x := StrArray(ids.value)];
      }
      rest := rest - {x};
    }
    assert RefsDecode(m, original);
    assert props == DecodedProps(m, original, refs);
    r := Some(ModelObject(props, obj.fields));
  }

  /** `_json_to_object` keeps every property key; a reference field present
      becomes one id per beacon, in order, each the last `/`-segment of its
      URI; every other property, and a reference field that is absent, is
      left as it was. */
  lemma ObjectOfShape(m: ModelType, props: map<string, Value>, metadata: map<string, Value>, k: string)
    requires RefsDecode(m, props) && k in props
    ensures var obj := Object(metadata["properties" := Object(props)]);
      ObjectOf(m, obj).Some? &&
      ObjectOf(m, obj).value.data.Keys == props.Keys &&
      (k !in GetRefFields(m) ==> ObjectOf(m, obj).value.data[k] == props[k]) &&
      (k in GetRefFields(m) && props[k].Array? ==>
        ObjectOf(m, obj).value.data[k].Array? &&
        |ObjectOf(m, obj).value.data[k].items| == |props[k].items| &&
        forall i :: 0 <= i < |props[k].items| ==>
          Some(ObjectOf(m, obj).value.data[k].items[i].s) == BeaconId(props[k].items[i]))
  {
    var obj := Object(metadata["properties" := Object(props)]);
    assert obj.fields["properties"].fields == props;
  }

  /** Typed reference round trip: the properties an instance writes, read
      back, give each reference field the string form of its ids, in order,
      and keep every plain field as written. */
  lemma PropsRoundTrip(obj: BaseProperty, update: bool, uri: BeaconUri, k: string)
    requires obj.Valid() && EndsWithId(uri)
    requires forall r :: r in obj.referenceFields && obj.values[r].Ids? ==>
      forall i :: 0 <= i < |obj.values[r].ids| ==> '/' !in UuidString(obj.values[r].ids[i])
    ensures RefsDecode(obj.model, obj.EncodedProps(update, uri))
    ensures k in obj.EncodedProps(update, uri) ==>
      DecodedProps(obj.model, obj.EncodedProps(update, uri), GetRefFields(obj.model))[k] ==
        if k in obj.referenceFields then StrArray(IdStrings(obj.values[k].ids)) else obj.EncodedProps(update, uri)[k]
  {
    var p := obj.EncodedProps(update, uri);
    forall r | r in GetRefFields(obj.model) && r in p ensures BeaconIds(p[r]) == Some(IdStrings(obj.values[r].ids)) {
      obj.EncodedPropsKeys(update, uri, r);
      BeaconRoundTrip(uri, obj.values[r].ids, Some(obj.referenceToClass[r]));
    }
  }
}
