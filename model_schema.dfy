/** The typed collection API's view of a user model: which of its fields are
    plain properties and which are references, the schema derived from it,
    and the schema check `CollectionModel.get` runs against the server.
    Python reflection over a pydantic model is replaced by an explicit table
    of field descriptors. */
module ModelSchema {
  import opened Wrappers
  import opened Sets
  import opened Text
  import opened Values

  /** `ReferenceTo.ref_type`: a model class, known by its `__name__`, or a class name. */
  datatype RefTarget = ClassRef(className: string) | NameRef(name: string)

  /** `ReferenceTo.name`: the target name lower-cased, then capitalised. */
  function RefName(t: RefTarget): string {
    match t
    case ClassRef(n) => Capitalize(Lower(n))
    case NameRef(n) => Capitalize(Lower(n))
  }

  /** The reference name is the capitalised form of the target: its first
      letter upper case, every later letter lower case, whichever of the two
      forms names the target. */
  lemma RefNameCanonical(n: string)
    ensures RefName(ClassRef(n)) == RefName(NameRef(n))
    ensures |RefName(NameRef(n))| == |n|
    ensures |n| > 0 ==> RefName(NameRef(n))[0] == UpperChar(n[0])
    ensures forall i :: 0 < i < |n| ==> RefName(NameRef(n))[i] == LowerChar(n[i])
  {
    if |n| > 0 {
      CharCaseFacts(n[0]);
    }
  }

  /** Naming a target by its own reference name changes nothing. */
  lemma RefNameIdempotent(t: RefTarget)
    ensures RefName(NameRef(RefName(t))) == RefName(t)
  {
    var n := if t.ClassRef? then t.className else t.name;
    var c := RefName(t);
    var cc := RefName(NameRef(c));
    if |n| > 0 {
      CharCaseFacts(n[0]);
      CharCaseFacts(LowerChar(n[0]));
      forall i | 0 < i < |n| ensures cc[i] == c[i] {
        CharCaseFacts(n[i]);
      }
    }
  }

  /** The reference name ignores the casing of the target's name. */
  lemma RefNameIgnoresCase(a: string, b: string)
    requires Lower(a) == Lower(b)
    ensures RefName(NameRef(a)) == RefName(NameRef(b))
    ensures RefName(ClassRef(a)) == RefName(NameRef(b))
  {
  }

  /** A Python type annotation: a class, `NoneType`, or a subscripted generic
      such as `Optional[int]` (`Union` of `int` and `NoneType`) or `List[str]`. */
  datatype PyType = Class(name: string) | NoneType | Generic(origin: string, args: seq<PyType>)

  /** `typing.get_args(t)` */
  function TypeArgs(t: PyType): seq<PyType> {
    if t.Generic? then t.args else []
  }

  /** `_remove_optional_type` as written: a type without type arguments is
      returned as is, any other type is replaced by its first argument. The
      `t is not None` filter compares with the value None, which `get_args`
      never yields, so it removes nothing. */
  function RemoveOptionalTypeAsWritten(t: PyType): (r: PyType)
    ensures TypeArgs(t) == [] ==> r == t
    ensures TypeArgs(t) != [] ==> r == TypeArgs(t)[0]
  {
    var args := TypeArgs(t);
    if |args| == 0 then t else args[0]
  }

  /** `[t for t in args if t is not NoneType]` */
  function NotNone(args: seq<PyType>): (r: seq<PyType>)
    ensures forall a :: a in r <==> a in args && a != NoneType
  {
    if args == [] then []
    else if args[0] == NoneType then NotNone(args[1..])
    else [args[0]] + NotNone(args[1..])
  }

  /** Whether `t` is `Optional[...]`: a `Union` with `NoneType` among its
      arguments and at least one other argument. */
  predicate IsOptional(t: PyType) {
    t.Generic? && t.origin == "Union" && NoneType in t.args && NotNone(t.args) != []
  }

  /** `_remove_optional_type` as its name promises: `Optional[T]` becomes `T`;
      every other type, `List[str]` included, is left as it is. */
  function RemoveOptionalType(t: PyType): (r: PyType)
    ensures !IsOptional(t) ==> r == t
    ensures IsOptional(t) ==> r in t.args && r != NoneType
  {
    if IsOptional(t) then NotNone(t.args)[0] else t
  }

  /** On `Optional[T]` spelled the usual way, `Union[T, None]`, both
      definitions agree. */
  lemma RemoveOptionalTypesAgree(t: PyType)
    requires t != NoneType
    ensures RemoveOptionalType(Generic("Union", [t, NoneType])) == t
    ensures RemoveOptionalTypeAsWritten(Generic("Union", [t, NoneType])) == t
  {
    assert t in [t, NoneType];
  }

  /** As written, a list annotation loses its list: `List[str]` becomes `str`. */
  lemma RemoveOptionalTypeDropsList()
    ensures RemoveOptionalTypeAsWritten(Generic("list", [Class("str")])) == Class("str")
    ensures RemoveOptionalType(Generic("list", [Class("str")])) == Generic("list", [Class("str")])
  {
  }

  /** What `PropertyConfig.model_dump(exclude_unset=True, exclude_none=True)`
      yields: the options the user set, each with a value other than None. */
  datatype PropertyConfig = PropertyConfig(dump: map<string, Value>)

  /** One entry of a field's `Annotated[...]` metadata. */
  datatype Annotation = ConfigAnn(config: PropertyConfig) | RefAnn(target: RefTarget) | OtherAnn

  /** One entry of `model_fields`: the annotation, the metadata list and the
      default value (None for a required field). */
  datatype FieldInfo = FieldInfo(annotation: PyType, metadata: seq<Annotation>, default: Option<FieldValue>)

  /** A user model class: its `__name__` and its `model_fields`, the inherited
      `uuid` and `vector` included. */
  datatype ModelType = ModelType(name: string, fields: map<string, FieldInfo>)

  /** `BaseProperty.model_fields`. */
  const BaseFields: set<string> := {"uuid", "vector"}

  /** A field whose first metadata entry is a `ReferenceTo`. */
  predicate IsRefField(f: FieldInfo) {
    |f.metadata| > 0 && f.metadata[0].RefAnn?
  }

  /** A field with no metadata, or whose first metadata entry is a `PropertyConfig`. */
  predicate IsPlainField(f: FieldInfo) {
    |f.metadata| == 0 || f.metadata[0].ConfigAnn?
  }

  /** `get_ref_fields(model)` */
  function GetRefFields(m: ModelType): set<string> {
    set n | n in m.fields && IsRefField(m.fields[n]) && n !in BaseFields
  }

  /** `get_non_ref_fields(model)` */
  function GetNonRefFields(m: ModelType): set<string> {
    set n | n in m.fields && IsPlainField(m.fields[n]) && n !in BaseFields
  }

  /** Reference and plain fields are disjoint and never include `uuid` or
      `vector`; an own field is in one of them unless its first metadata
      entry is neither a `PropertyConfig` nor a `ReferenceTo`. */
  lemma FieldClassification(m: ModelType, n: string)
    ensures GetRefFields(m) !! GetNonRefFields(m)
    ensures "uuid" !in GetRefFields(m) + GetNonRefFields(m)
    ensures "vector" !in GetRefFields(m) + GetNonRefFields(m)
    ensures n in GetRefFields(m) + GetNonRefFields(m) <==>
      n in m.fields && n !in BaseFields && !(|m.fields[n].metadata| > 0 && m.fields[n].metadata[0].OtherAnn?)
  {
  }

  /** One schema property: a JSON object. */
  type SchemaProperty = map<string, Value>

  /** The type `type_to_dict` looks up for the field `name`: its annotation
      passed through `unwrap`, which is `_remove_optional_type` as shipped
      (`RemoveOptionalTypeAsWritten`) or as intended (`RemoveOptionalType`). */
  function FieldType(m: ModelType, unwrap: PyType -> PyType, name: string): PyType
    requires name in m.fields
  {
    unwrap(m.fields[name].annotation)
  }

  /** The entry `type_to_dict` emits for the plain field `name`: the name
      capitalised, the data type the table gives for its annotation with
      `Optional` removed (a `KeyError` naming the type when the table has
      none), and the options of a `PropertyConfig` merged over both. */
  function PlainEntry(m: ModelType, unwrap: PyType -> PyType, table: map<PyType, string>, name: string): Result<SchemaProperty, PyType>
    requires name in m.fields
  {
    var t := FieldType(m, unwrap, name);
    if t !in table then Failure(t)
    else
      var prop := map["name" := Str(Capitalize(name)), "dataType" := Array([Str(table[t])])];
      var md := m.fields[name].metadata;
      if |md| > 0 && md[0].ConfigAnn? then Success(prop + md[0].config.dump) else Success(prop)
  }

  /** The entry `type_to_dict` emits for the reference field `name`. */
  function RefEntry(m: ModelType, name: string): SchemaProperty
    requires name in m.fields && IsRefField(m.fields[name])
  {
    map["name" := Str(Capitalize(name)), "dataType" := Array([Str(RefName(m.fields[name].metadata[0].target))])]
  }

  /** The plain entries for `names`, in order; the first missing type raises. */
  function PlainEntries(m: ModelType, unwrap: PyType -> PyType, table: map<PyType, string>, names: seq<string>): (r: Result<seq<SchemaProperty>, PyType>)
    requires forall n :: n in names ==> n in m.fields
    ensures r.Success? ==> |r.value| == |names|
  {
    if names == [] then Success([])
    else
      match PlainEntries(m, unwrap, table, names[..|names| - 1])
      case Failure(t) => Failure(t)
      case Success(ps) =>
        match PlainEntry(m, unwrap, table, names[|names| - 1])
        case Failure(t) => Failure(t)
        case Success(p) => Success(ps + [p])
  }

  /** `type_to_dict(model)`: the plain fields' entries in the order the set of
      plain fields is iterated, then the reference fields' entries in the
      order that set is iterated. */
  function SchemaProperties(m: ModelType, unwrap: PyType -> PyType, table: map<PyType, string>, plainOrder: seq<string>, refOrder: seq<string>)
    : (r: Result<seq<SchemaProperty>, PyType>)
    requires Enumerates(plainOrder, GetNonRefFields(m)) && Enumerates(refOrder, GetRefFields(m))
    ensures r.Success? ==> |r.value| == |plainOrder| + |refOrder|
  {
    match PlainEntries(m, unwrap, table, plainOrder)
    case Failure(t) => Failure(t)
    case Success(ps) => Success(ps + RefEntries(m, refOrder))
  }

  /** The reference entries for `names`, in order. */
  function RefEntries(m: ModelType, names: seq<string>): (r: seq<SchemaProperty>)
    requires forall n :: n in names ==> n in GetRefFields(m)
    ensures |r| == |names|
  {
    seq(|names|, i requires 0 <= i < |names| => assert names[i] in names && names[i] in GetRefFields(m); RefEntry(m, names[i]))
  }

  /** Once a prefix of the names fails, the whole list fails the same way. */
  lemma {:induction false} PlainEntriesPrefixFailure(m: ModelType, unwrap: PyType -> PyType, table: map<PyType, string>, names: seq<string>, k: nat)
    requires forall n :: n in names ==> n in m.fields
    requires k <= |names| && PlainEntries(m, unwrap, table, names[..k]).Failure?
    ensures PlainEntries(m, unwrap, table, names) == PlainEntries(m, unwrap, table, names[..k])
    decreases |names| - k
  {
    if k < |names| {
      var init := names[..|names| - 1];
      assert init[..k] == names[..k];
      PlainEntriesPrefixFailure(m, unwrap, table, init, k);
    } else {
      assert names[..k] == names;
    }
  }

  /** Whether the table knows the type of every plain field in `names`. */
  predicate AllTyped(m: ModelType, unwrap: PyType -> PyType, table: map<PyType, string>, names: seq<string>)
    requires forall n :: n in names ==> n in m.fields
  {
    forall n :: n in names ==> FieldType(m, unwrap, n) in table
  }

  /** The plain entries exist exactly when the table knows the type of
      every plain field; otherwise the error is a type of one of the fields
      that the table lacks. */
  lemma {:induction false} PlainEntriesSucceedIff(m: ModelType, unwrap: PyType -> PyType, table: map<PyType, string>, names: seq<string>)
    requires forall n :: n in names ==> n in m.fields
    ensures PlainEntries(m, unwrap, table, names).Success? <==> AllTyped(m, unwrap, table, names)
    ensures PlainEntries(m, unwrap, table, names).Failure? ==> MissingType(m, unwrap, table, names, PlainEntries(m, unwrap, table, names).error)
  {
    if names != [] {
      var n := |names| - 1;
      var init := names[..n];
      PlainEntriesSucceedIff(m, unwrap, table, init);
      PlainEntriesStep(m, unwrap, table, names);
      if PlainEntries(m, unwrap, table, init).Failure? {
        var i :| 0 <= i < |init| && init[i] in m.fields && FieldType(m, unwrap, init[i]) == PlainEntries(m, unwrap, table, init).error && FieldType(m, unwrap, init[i]) !in table;
        assert names[i] == init[i];
      } else {
        assert forall i :: 0 <= i < n ==> names[i] == init[i];
      }
    }
  }

  /** Whether `t` is the type of one of the fields `names` and is not in the table. */
  predicate MissingType(m: ModelType, unwrap: PyType -> PyType, table: map<PyType, string>, names: seq<string>, t: PyType) {
    exists i :: 0 <= i < |names| && names[i] in m.fields && FieldType(m, unwrap, names[i]) == t && t !in table
  }

  /** One step of `PlainEntries`, spelled out. */
  lemma PlainEntriesStep(m: ModelType, unwrap: PyType -> PyType, table: map<PyType, string>, names: seq<string>)
    requires names != [] && forall n :: n in names ==> n in m.fields
    ensures PlainEntries(m, unwrap, table, names[..|names| - 1]).Failure? ==>
      PlainEntries(m, unwrap, table, names) == PlainEntries(m, unwrap, table, names[..|names| - 1])
    ensures PlainEntries(m, unwrap, table, names[..|names| - 1]).Success? && FieldType(m, unwrap, names[|names| - 1]) !in table ==>
      PlainEntries(m, unwrap, table, names) == Failure(FieldType(m, unwrap, names[|names| - 1]))
    ensures PlainEntries(m, unwrap, table, names[..|names| - 1]).Success? && FieldType(m, unwrap, names[|names| - 1]) in table ==>
      PlainEntries(m, unwrap, table, names) ==
        Success(PlainEntries(m, unwrap, table, names[..|names| - 1]).value + [PlainEntry(m, unwrap, table, names[|names| - 1]).value])
  {
  }

  /** When they exist, the plain entries are the entries of the names, one per name, in order. */
  lemma {:induction false} PlainEntriesValues(m: ModelType, unwrap: PyType -> PyType, table: map<PyType, string>, names: seq<string>, i: nat)
    requires forall n :: n in names ==> n in m.fields
    requires PlainEntries(m, unwrap, table, names).Success? && i < |names|
    ensures Success(PlainEntries(m, unwrap, table, names).value[i]) == PlainEntry(m, unwrap, table, names[i])
  {
    var n := |names| - 1;
    var init := names[..n];
    PlainEntriesStep(m, unwrap, table, names);
    if i < n {
      PlainEntriesValues(m, unwrap, table, init, i);
      assert names[i] == init[i];
    }
  }

  /** The derived schema exists exactly when the table knows the type of
      every plain field, and then holds one property per plain field and one
      per reference field; otherwise it raises with the unknown type of a
      plain field. */
  lemma SchemaPropertiesSucceedIff(m: ModelType, unwrap: PyType -> PyType, table: map<PyType, string>, plainOrder: seq<string>, refOrder: seq<string>)
    requires Enumerates(plainOrder, GetNonRefFields(m)) && Enumerates(refOrder, GetRefFields(m))
    ensures SchemaProperties(m, unwrap, table, plainOrder, refOrder).Success? <==>
      forall n :: n in GetNonRefFields(m) ==> FieldType(m, unwrap, n) in table
    ensures SchemaProperties(m, unwrap, table, plainOrder, refOrder).Success? ==>
      |SchemaProperties(m, unwrap, table, plainOrder, refOrder).value| == |GetNonRefFields(m)| + |GetRefFields(m)|
    ensures SchemaProperties(m, unwrap, table, plainOrder, refOrder).Failure? ==>
      MissingType(m, unwrap, table, plainOrder, SchemaProperties(m, unwrap, table, plainOrder, refOrder).error)
  {
    PlainEntriesSucceedIff(m, unwrap, table, plainOrder);
    EnumerationLength(plainOrder, GetNonRefFields(m));
    EnumerationLength(refOrder, GetRefFields(m));
  }

  /** Entry `i` of the derived schema: the plain fields' entries come first,
      in iteration order; each reference field's entry carries the
      capitalised field name and, as its data type, the reference name of
      its target. */
  lemma SchemaPropertyAt(m: ModelType, unwrap: PyType -> PyType, table: map<PyType, string>, plainOrder: seq<string>, refOrder: seq<string>, i: nat)
    requires Enumerates(plainOrder, GetNonRefFields(m)) && Enumerates(refOrder, GetRefFields(m))
    requires SchemaProperties(m, unwrap, table, plainOrder, refOrder).Success? && i < |plainOrder| + |refOrder|
    ensures i < |plainOrder| ==>
      plainOrder[i] in m.fields && Success(SchemaProperties(m, unwrap, table, plainOrder, refOrder).value[i]) == PlainEntry(m, unwrap, table, plainOrder[i])
    ensures |plainOrder| <= i ==>
      var name := refOrder[i - |plainOrder|];
      name in m.fields && IsRefField(m.fields[name]) &&
      SchemaProperties(m, unwrap, table, plainOrder, refOrder).value[i] ==
        map["name" := Str(Capitalize(name)), "dataType" := Array([Str(RefName(m.fields[name].metadata[0].target))])]
  {
    var v := SchemaProperties(m, unwrap, table, plainOrder, refOrder).value;
    var ps := PlainEntries(m, unwrap, table, plainOrder).value;
    var refs := RefEntries(m, refOrder);
    assert v == ps + refs;
    if i < |plainOrder| {
      assert plainOrder[i] in GetNonRefFields(m);
      PlainEntriesValues(m, unwrap, table, plainOrder, i);
    } else {
      var name := refOrder[i - |plainOrder|];
      assert name in GetRefFields(m);
      assert v[i] == refs[i - |plainOrder|];
    }
  }

  /** `type_to_dict(model)` as the client runs it: entries are appended one
      plain field at a time, then the reference entries are added. */
  method TypeToDict(m: ModelType, unwrap: PyType -> PyType, table: map<PyType, string>, plainOrder: seq<string>, refOrder: seq<string>)
    returns (r: Result<seq<SchemaProperty>, PyType>)
    requires Enumerates(plainOrder, GetNonRefFields(m)) && Enumerates(refOrder, GetRefFields(m))
    ensures r == SchemaProperties(m, unwrap, table, plainOrder, refOrder)
  {
    var properties: seq<SchemaProperty> := [];
    for i := 0 to |plainOrder|
      invariant forall n :: n in plainOrder[..i] ==> n in m.fields
      invariant PlainEntries(m, unwrap, table, plainOrder[..i]) == Success(properties)
    {
      assert plainOrder[..i + 1][..i] == plainOrder[..i];
      var name := plainOrder[i];
      assert name in plainOrder && plainOrder[..i + 1] == plainOrder[..i] + [name];
      var t := FieldType(m, unwrap, name);
      if t !in table {
        PlainEntriesPrefixFailure(m, unwrap, table, plainOrder, i + 1);
        return Failure(t);
      }
      var prop := map["name" := Str(Capitalize(name)), "dataType" := Array([Str(table[t])])];
      var md := m.fields[name].metadata;
      if |md| > 0 && md[0].ConfigAnn? {
        prop := prop + md[0].config.dump;
      }
      properties := properties + [prop];
    }
    assert plainOrder[..|plainOrder|] == plainOrder;
    r := Success(properties + RefEntries(m, refOrder));
  }

  /** The position of the first `x` in `xs`, as `list.remove(x)` finds it. */
  function IndexOf<T(==)>(xs: seq<T>, x: T): (r: Option<nat>)
    ensures r.None? <==> x !in xs
    ensures r.Some? ==> r.value < |xs| && xs[r.value] == x && x !in xs[..r.value]
  {
    if xs == [] then None
    else if xs[0] == x then Some(0)
    else match IndexOf(xs[1..], x)
      case None => None
      case Some(k) => assert xs[1..][..k] == xs[1..k + 1]; Some(k + 1)
  }

  /** `compare(s, t)` in `CollectionModel.get`: removes each element of `s`
      from a copy of `t`, failing when one is missing, and succeeds when
      nothing is left over; that is, exactly when `t` is a rearrangement of `s`. */
  method Compare<T(==)>(s: seq<T>, t: seq<T>) returns (same: bool)
    ensures same <==> multiset(s) == multiset(t)
  {
    var rest := t;
    for i := 0 to |s|
      invariant multiset(s[..i]) + multiset(rest) == multiset(t)
    {
      assert s[..i + 1] == s[..i] + [s[i]];
      var k := IndexOf(rest, s[i]);
      if k.None? {
        assert s == s[..i + 1] + s[i + 1..];
        assert multiset(s)[s[i]] > multiset(s[..i])[s[i]] == multiset(t)[s[i]];
        return false;
      }
      assert rest == rest[..k.value] + [s[i]] + rest[k.value + 1..];
      rest := rest[..k.value] + rest[k.value + 1..];
    }
    assert s[..|s|] == s;
    same := rest == [];
  }

  /** What `self._connection.get(path)` produced: a connection error, or a
      response with its status code and JSON body. */
  datatype SchemaResponse = ConnectionFailed | Response(statusCode: int, body: Value)

  /** What `CollectionModel.get` raises. */
  datatype GetError =
    | ConnectionError
    | UnexpectedStatusCode(code: int)
    | KeyErrorRaised(key: string)
    | TypeErrorRaised
    | MissingDataType(t: PyType)
    | SchemasNotCompatible

  /** `{"name": prop["name"], "dataType": prop["dataType"]}` for one element of
      the response's property list: a `KeyError` for a missing key, a
      `TypeError` for an element that is not a JSON object. */
  function SchemaEntry(prop: Value): Result<SchemaProperty, GetError> {
    if !prop.Object? then Failure(TypeErrorRaised)
    else if "name" !in prop.fields then Failure(KeyErrorRaised("name"))
    else if "dataType" !in prop.fields then Failure(KeyErrorRaised("dataType"))
    else Success(map["name" := prop.fields["name"], "dataType" := prop.fields["dataType"]])
  }

  /** `schema_props` over a list: entry i is `props[i]`'s name and data type;
      the walk fails with the error of the first element that has none. */
  function SchemaEntries(props: seq<Value>): (r: Result<seq<SchemaProperty>, GetError>)
    ensures r.Success? <==> forall i :: 0 <= i < |props| ==> SchemaEntry(props[i]).Success?
    ensures r.Success? ==> |r.value| == |props| && forall i :: 0 <= i < |props| ==> SchemaEntry(props[i]) == Success(r.value[i])
    ensures r.Failure? ==>
      exists i :: (0 <= i < |props| && SchemaEntry(props[i]) == Failure(r.error) &&
                   forall j :: 0 <= j < i ==> SchemaEntry(props[j]).Success?)
  {
    if props == [] then Success([])
    else
      match SchemaEntry(props[0])
      case Failure(e) => Failure(e)
      case Success(p) =>
        match SchemaEntries(props[1..])
        case Failure(e) => Failure(e)
        case Success(ps) => Success([p] + ps)
  }

  /** `schema_props`: the name and data type of each property the server
      reports. Iterating an empty string or object yields nothing; iterating
      anything else that is not a list fails on the first element. */
  function ServerSchema(body: Value): Result<seq<SchemaProperty>, GetError> {
    if !body.Object? then Failure(TypeErrorRaised)
    else if "properties" !in body.fields then Failure(KeyErrorRaised("properties"))
    else
      match body.fields["properties"]
      case Array(items) => SchemaEntries(items)
      case Str(s) => if s == [] then Success([]) else Failure(TypeErrorRaised)
      case Object(f) => if f == map[] then Success([]) else Failure(TypeErrorRaised)
      case _ => Failure(TypeErrorRaised)
  }

  /** The two schemas `CollectionModel.get` compares: the model's and the
      server's, or the error raised while obtaining them. */
  function FetchSchemas(m: ModelType, unwrap: PyType -> PyType, table: map<PyType, string>, plainOrder: seq<string>, refOrder: seq<string>,
                        response: SchemaResponse): (r: Result<(seq<SchemaProperty>, seq<SchemaProperty>), GetError>)
    requires Enumerates(plainOrder, GetNonRefFields(m)) && Enumerates(refOrder, GetRefFields(m))
  {
    match response
    case ConnectionFailed => Failure(ConnectionError)
    case Response(code, body) =>
      if code != 200 then Failure(UnexpectedStatusCode(code))
      else
        match SchemaProperties(m, unwrap, table, plainOrder, refOrder)
        case Failure(t) => Failure(MissingDataType(t))
        case Success(modelProps) =>
          match ServerSchema(body)
          case Failure(e) => Failure(e)
          case Success(schemaProps) => Success((modelProps, schemaProps))
  }

  /** `CollectionModel.get` as written: the model's schema is derived with
      `_remove_optional_type` as shipped, the object is bound to the
      capitalised model name, and `TypeError("Schemas not compatible")` is
      raised when `compare` reports that the two schemas MATCH. */
  function GetAsWritten(m: ModelType, table: map<PyType, string>, plainOrder: seq<string>, refOrder: seq<string>,
                        response: SchemaResponse): Result<string, GetError>
    requires Enumerates(plainOrder, GetNonRefFields(m)) && Enumerates(refOrder, GetRefFields(m))
  {
    match FetchSchemas(m, RemoveOptionalTypeAsWritten, table, plainOrder, refOrder, response)
    case Failure(e) => Failure(e)
    case Success((modelProps, schemaProps)) =>
      if multiset(modelProps) == multiset(schemaProps) then Failure(SchemasNotCompatible)
      else Success(Capitalize(m.name))
  }

  /** `CollectionModel.get` as its error message promises: the model's schema
      is derived unwrapping only `Optional[...]`, and the schemas not
      matching is what raises. */
  function Get(m: ModelType, table: map<PyType, string>, plainOrder: seq<string>, refOrder: seq<string>,
               response: SchemaResponse): (r: Result<string, GetError>)
    requires Enumerates(plainOrder, GetNonRefFields(m)) && Enumerates(refOrder, GetRefFields(m))
    ensures r.Success? <==>
      FetchSchemas(m, RemoveOptionalType, table, plainOrder, refOrder, response).Success? &&
      multiset(FetchSchemas(m, RemoveOptionalType, table, plainOrder, refOrder, response).value.0) ==
        multiset(FetchSchemas(m, RemoveOptionalType, table, plainOrder, refOrder, response).value.1)
    ensures r.Success? ==> r.value == Capitalize(m.name)
    ensures FetchSchemas(m, RemoveOptionalType, table, plainOrder, refOrder, response).Failure? ==>
      r == Failure(FetchSchemas(m, RemoveOptionalType, table, plainOrder, refOrder, response).error)
    ensures FetchSchemas(m, RemoveOptionalType, table, plainOrder, refOrder, response).Success? && r.Failure? ==>
      r.error == SchemasNotCompatible
  {
    match FetchSchemas(m, RemoveOptionalType, table, plainOrder, refOrder, response)
    case Failure(e) => Failure(e)
    case Success((modelProps, schemaProps)) =>
      if multiset(modelProps) == multiset(schemaProps) then Success(Capitalize(m.name))
      else Failure(SchemasNotCompatible)
  }

  /** Where both unwrappings give every plain field the same type, both
      derivations give the same plain entries. */
  lemma {:induction false} PlainEntriesUnwrapsAgree(m: ModelType, table: map<PyType, string>, names: seq<string>)
    requires forall n :: n in names ==> n in m.fields && FieldType(m, RemoveOptionalTypeAsWritten, n) == FieldType(m, RemoveOptionalType, n)
    ensures PlainEntries(m, RemoveOptionalTypeAsWritten, table, names) == PlainEntries(m, RemoveOptionalType, table, names)
  {
    if names != [] {
      PlainEntriesUnwrapsAgree(m, table, names[..|names| - 1]);
    }
  }

  /** For a model whose field types both unwrappings read alike (plain
      classes and `Optional[T]`), the code as written accepts exactly the
      cases the intended check rejects, once both schemas are obtained. */
  lemma GetAsWrittenInverted(m: ModelType, table: map<PyType, string>, plainOrder: seq<string>, refOrder: seq<string>,
                             response: SchemaResponse)
    requires Enumerates(plainOrder, GetNonRefFields(m)) && Enumerates(refOrder, GetRefFields(m))
    requires forall n :: n in GetNonRefFields(m) ==> FieldType(m, RemoveOptionalTypeAsWritten, n) == FieldType(m, RemoveOptionalType, n)
    requires FetchSchemas(m, RemoveOptionalType, table, plainOrder, refOrder, response).Success?
    ensures GetAsWritten(m, table, plainOrder, refOrder, response).Success? <==>
      !Get(m, table, plainOrder, refOrder, response).Success?
  {
    PlainEntriesUnwrapsAgree(m, table, plainOrder);
  }

  /** A model without properties of its own against a server schema without
      properties: the schemas match, and the code as written raises. */
  lemma GetAsWrittenRejectsMatch()
    ensures GetAsWritten(ModelType("Empty", map[]), map[], [], [], Response(200, Object(map["properties" := Array([])])))
      == Failure(SchemasNotCompatible)
    ensures Get(ModelType("Empty", map[]), map[], [], [], Response(200, Object(map["properties" := Array([])])))
      == Success("Empty")
  {
    var m := ModelType("Empty", map[]);
    assert GetNonRefFields(m) == {} && GetRefFields(m) == {};
    assert Capitalize("Empty") == "Empty";
  }

  /** A model with one plain field `tags: List[str]`, and a table that knows
      both `str` and `List[str]`. */
  const TagsModel := ModelType("Doc", map["tags" := FieldInfo(Generic("list", [Class("str")]), [], None)])
  const TagsTable := map[Class("str") := "text", Generic("list", [Class("str")]) := "text[]"]

  /** As written, `type_to_dict` declares a `List[str]` field with the data
      type of `str`; unwrapping only `Optional[...]` declares it as a list. */
  lemma ListFieldSchemaAsWritten()
    ensures GetNonRefFields(TagsModel) == {"tags"} && GetRefFields(TagsModel) == {}
    ensures SchemaProperties(TagsModel, RemoveOptionalTypeAsWritten, TagsTable, ["tags"], []) ==
      Success([map["name" := Str("Tags"), "dataType" := Array([Str("text")])]])
    ensures SchemaProperties(TagsModel, RemoveOptionalType, TagsTable, ["tags"], []) ==
      Success([map["name" := Str("Tags"), "dataType" := Array([Str("text[]")])]])
  {
    assert GetNonRefFields(TagsModel) == {"tags"};
    assert GetRefFields(TagsModel) == {};
    assert Capitalize("tags") == "Tags";
    RemoveOptionalTypeDropsList();
    var names := ["tags"];
    assert names[..|names| - 1] == [] && names[|names| - 1] == "tags";
    assert RefEntries(TagsModel, []) == [];
    var name := map["name" := Str("Tags")];
    assert PlainEntry(TagsModel, RemoveOptionalTypeAsWritten, TagsTable, "tags") ==
      Success(name["dataType" := Array([Str("text")])]);
    assert PlainEntry(TagsModel, RemoveOptionalType, TagsTable, "tags") ==
      Success(name["dataType" := Array([Str("text[]")])]);
    assert PlainEntries(TagsModel, RemoveOptionalTypeAsWritten, TagsTable, names) ==
      Success([] + [name["dataType" := Array([Str("text")])]]);
    assert PlainEntries(TagsModel, RemoveOptionalType, TagsTable, names) ==
      Success([] + [name["dataType" := Array([Str("text[]")])]]);
    assert Enumerates(names, GetNonRefFields(TagsModel)) && Enumerates([], GetRefFields(TagsModel));
    var p1 := map["name" := Str("Tags"), "dataType" := Array([Str("text")])];
    assert [] + [p1] + [] == [p1];
    var p2 := map["name" := Str("Tags"), "dataType" := Array([Str("text[]")])];
    assert [] + [p2] + [] == [p2];
    assert name["dataType" := Array([Str("text")])] == map["name" := Str("Tags"), "dataType" := Array([Str("text")])];
    assert name["dataType" := Array([Str("text[]")])] == map["name" := Str("Tags"), "dataType" := Array([Str("text[]")])];
  }
}
