# Weaviate collection client core, modelled in Dafny

This project models the core of the Python client's collection API: the
gRPC query builder, the typed (pydantic model) collection and the untyped
collection façade. Nothing here talks to a server. The server's answers, the
bearer token, fresh `uuid4()` draws and the md5 digest are inputs to the
model.

- **Query builder (`grpc_query.dfy`, `grpc_results.dfy`, `grpc_builder.dfy`).**
  `_GRPC` is a class, `GrpcBuilder.QueryBuilder`, whose fields the verbs
  `get`, `hybrid`, `bm25`, `near_vector` and `near_object` overwrite before
  they run the search (`__call`). Each verb is proved against a function of
  the old state (`GetStep`, `HybridStep`, …). The request sent is `Request`
  of the new state. The result is `SearchOutcome` of the response. The
  verbs add properties with the corrected union (Findings row
  grpc.py:165-166), not with `set.union` as shipped.
- **The request side.** A search asks for plain property names and `LinkTo`
  entries. From these the client builds the `Properties` message
  (`_convert_references_to_grpc`) and the projection tree
  (`_ref_props_return_meta`). The projection tree is built by a loop and
  proved equal to a recursive specification. `ConvertReferencesToGrpc`
  converts a link's nested properties by the corrected rule (Findings row
  grpc.py:371); `LinkedPropertiesAsWritten` is the step as shipped.
- **The answer side.** `_convert_references_to_grpc_result` rebuilds one
  result row by following the projection tree. It raises `KeyError` when a
  reference property is missing from the tree. `_extract_metadata` picks the
  requested additional values. Both loops are proved against recursive
  specifications, and those specifications are characterised by lemmas.
- **Typed models (`model_schema.dfy`, `model_objects.dfy`).**
  - `ReferenceTo.name` and the split of a model's fields into reference and
    plain fields.
  - `_remove_optional_type`, as shipped (`RemoveOptionalTypeAsWritten`) and
    corrected (`RemoveOptionalType`, Findings row collection_model.py:161-168).
  - `type_to_dict`, proved against a specification that says which entries
    it emits and when it raises. It takes the unwrapping of `Optional` as a
    parameter, so it is stated for both definitions above.
  - `compare`, proved to decide multiset equality.
  - `CollectionModel.get`: `GetAsWritten` is the method as shipped, with the
    shipped `_remove_optional_type` and the inverted check. `Get` uses the
    corrected unwrapping and raises on a mismatch (Findings rows
    collection_model.py:161-168 and collection_model.py:350-354).
  - `BaseProperty` as a class: its constructor records the reference
    fields; `props_to_dict` is proved against `EncodedProps`, which leaves
    unset fields out under `update` (Findings row
    collection_model.py:100-104). The constructor draws a fresh id per
    instance (Findings row collection_model.py:46).
  - `create_valid_uuid`.
  - The request bodies of `insert`, `insert_many`, `replace` and `update`.
    `InsertMany` sends each instance's vector (Findings row
    collection_model.py:221-233); `ReplaceBody` encodes the update branch
    with `EncodedProps`.
  - `_json_to_object`, which turns beacon lists back into id strings.
- **Untyped façade (`untyped.dfy`).** Request bodies built from plain
  property dictionaries, and `get`/`get_by_id` reading objects back.
  `InsertMany` sends each object's vector (Findings row collection.py:60-73);
  `InsertManyAsWritten` is the method as shipped.
- **Shared support.** UUID text (`uuids.dfy`: `str(UUID)` and the parser,
  with the round trip `Parse(Format(u)) == Some(u)`), beacons and batch
  references (`beacons.dfy`), JSON values (`values.dfy`), the common body
  layout (`payloads.dfy`), ASCII case mapping and `split("/")[-1]`
  (`text.dfy`).

## Model

| member | source | states |
|---|---|---|
| GrpcQuery.MetadataToGrpc | weaviate/collection/grpc.py:331-341 | every `MetadataQuery` flag reaches the `AdditionalProperties` message unchanged: reading the message back gives the query |
| GrpcQuery.MetadataGrpcRoundTrip | weaviate/collection/grpc.py:331-341 | the conversion is also onto: every message is the conversion of the query read from it |
| GrpcQuery.UnionProperties | weaviate/collection/grpc.py:161-166 | corrected union (Findings row grpc.py:165-166): requested properties are added to those already held, nothing is dropped, every requested entry is in the result, only requested entries are added, and a single name adds exactly that name |
| GrpcQuery.SingleNameSplitAsWritten | weaviate/collection/grpc.py:165-166 | as written, a single property name "id" is added as the characters "i" and "d", and "id" itself is not requested |
| GrpcQuery.RefPropsReturnMeta | weaviate/collection/grpc.py:322-329 | the loop builds exactly the projection tree of the requested properties |
| GrpcQuery.ProjectionTreeSpec | weaviate/collection/grpc.py:322-329 | a link name is in the tree iff some `LinkTo` uses it; its entry comes from the last such `LinkTo` (its linked properties' tree and its metadata) |
| GrpcQuery.ProjectionIgnoresNames | weaviate/collection/grpc.py:322-329 | plain property names do not change the projection tree |
| GrpcQuery.ConvertReferencesToGrpc | weaviate/collection/grpc.py:363-377 | the plain names sent are exactly the requested plain properties; an entry is among the reference entries iff it is the entry of some requested `LinkTo` (membership only: the message is a set, so two links with equal entries collapse into one); nested properties by the corrected rule, Findings row grpc.py:371 |
| GrpcQuery.RefEntry | weaviate/collection/grpc.py:369-373 | a reference entry names the link property and carries the link's metadata request; its nested properties follow the corrected rule, Findings row grpc.py:371 |
| GrpcQuery.LinkedPropertiesIsConversion | weaviate/collection/grpc.py:371 | corrected (Findings row grpc.py:371): the nested properties of a link are converted by the same rule as the top-level ones |
| GrpcQuery.LinkedPropertiesAsWrittenIsConversion | weaviate/collection/grpc.py:371 | as written, the nested properties are the conversion of `set(prop.properties)`, which is a set of characters when the properties are one string |
| GrpcQuery.LinkedSingleNameSplitAsWritten | weaviate/collection/grpc.py:371 | as written, a link asking for the single property "name" requests "n", "a", "m", "e" and not "name"; the corrected step requests "name" |
| GrpcQuery.ConvertPartition | weaviate/collection/grpc.py:363-377 | as many plain names are sent as plain properties were requested |
| GrpcResults.MetadataOf | weaviate/collection/grpc.py:379-410 | without a metadata request nothing is returned; otherwise a keyword is returned iff its flag is set, and it carries the wire value only when the server marked it present |
| GrpcResults.ExtractMetadata | weaviate/collection/grpc.py:379-410 | the flag-by-flag writes produce exactly `MetadataOf` |
| GrpcResults.RequestsSpec | weaviate/collection/grpc.py:384-409 | after the first n flag checks, a key is present iff it is among them and requested, with its wire value |
| GrpcResults.ExtractIgnoresAbsentValues | weaviate/collection/grpc.py:379-410 | values the server did not mark present do not affect the result |
| GrpcResults.UuidOnlyRequest | weaviate/collection/grpc.py:383-384 | asking only for the uuid returns only the id string |
| GrpcResults.PlainValues | weaviate/collection/grpc.py:347-348 | every plain property is copied under its own name |
| GrpcResults.ConvertReferencesToGrpcResult | weaviate/collection/grpc.py:343-361 | the loop over reference properties computes exactly the recursive rebuild, including the `KeyError` case |
| GrpcResults.RebuildLinked | weaviate/collection/grpc.py:351-358 | the linked objects of one reference are rebuilt one by one, in order, failing on the first that fails |
| GrpcResults.RebuildSucceedsIff | weaviate/collection/grpc.py:343-361 | a row is rebuilt iff every reference property that comes back with linked objects, at every depth, is in the projection tree |
| GrpcResults.RebuildListShape | weaviate/collection/grpc.py:351-358 | a rebuilt list has one object per linked object, each with its own metadata and rebuilt properties |
| GrpcResults.RebuildShape | weaviate/collection/grpc.py:343-361 | a key of a rebuilt row is a plain property or a reference property; a reference property overrides a plain one of the same name, and the last reference of a name wins |
| GrpcBuilder.RequestSpec | weaviate/collection/grpc.py:264-303 | each search section is sent iff its parameter is set, an unset `after` is sent as "", metadata is asked for iff requested, and every requested plain name is sent |
| GrpcBuilder.AfterIdRoundTrip | weaviate/collection/grpc.py:268 | a UUID `after` reaches the server as a string that parses back to it |
| GrpcBuilder.NearObjectIdRoundTrip | weaviate/collection/grpc.py:277-283 | a UUID `near_object` is sent in the near-object section as a string that parses back to it |
| GrpcBuilder.EarlierSectionsPersist | weaviate/collection/grpc.py:198-215 | a `bm25` after a `near_vector` on the same builder still sends the vector search |
| GrpcBuilder.PropertiesAccumulate | weaviate/collection/grpc.py:165-166 | with the corrected union (Findings row grpc.py:165-166), `get` never forgets a requested property and adds the ones it is given |
| GrpcBuilder.SearchResultsSpec | weaviate/collection/grpc.py:309-317 | a search returns one result per row, in order, iff every row rebuilds; otherwise it raises the `KeyError` of some row |
| GrpcBuilder.QueryBuilder.constructor | weaviate/collection/grpc.py:117-151 | a new builder holds the collection name, tenant and default properties, with every search field unset |
| GrpcBuilder.QueryBuilder.Call | weaviate/collection/grpc.py:256-320 | the request is built from the current fields, the token is sent as authorization iff it is non-empty, and the result is the rows read back or the RPC error |
| GrpcBuilder.QueryBuilder.Get | weaviate/collection/grpc.py:153-167 | updates the paging fields, metadata and properties as `GetStep` says (properties by the corrected union, Findings row grpc.py:165-166), then returns the outcome of the search on the new state, sending the token as authorization iff it is non-empty |
| GrpcBuilder.QueryBuilder.Hybrid | weaviate/collection/grpc.py:169-196 | updates the hybrid fields as `HybridStep` says (properties by the corrected union, Findings row grpc.py:165-166), then returns the outcome of the search on the new state, sending the token as authorization iff it is non-empty |
| GrpcBuilder.QueryBuilder.Bm25 | weaviate/collection/grpc.py:198-215 | updates the bm25 fields as `Bm25Step` says (properties by the corrected union, Findings row grpc.py:165-166), then returns the outcome of the search on the new state, sending the token as authorization iff it is non-empty |
| GrpcBuilder.QueryBuilder.NearVector | weaviate/collection/grpc.py:217-234 | updates the near-vector fields as `NearVectorStep` says (properties by the corrected union, Findings row grpc.py:165-166), then returns the outcome of the search on the new state, sending the token as authorization iff it is non-empty |
| GrpcBuilder.QueryBuilder.NearObject | weaviate/collection/grpc.py:236-254 | updates the near-object fields as `NearObjectStep` says (properties by the corrected union, Findings row grpc.py:165-166), then returns the outcome of the search on the new state, sending the token as authorization iff it is non-empty |
| ModelSchema.RefNameCanonical | weaviate/collection/collection_model.py:30-36 | a class and a class name give the same reference name: the first character upper-cased and the rest lower-cased |
| ModelSchema.RefNameIdempotent | weaviate/collection/collection_model.py:30-36 | a reference name is its own reference name |
| ModelSchema.RefNameIgnoresCase | weaviate/collection/collection_model.py:30-36 | names that differ only in case give the same reference name |
| ModelSchema.RemoveOptionalTypeAsWritten | weaviate/collection/collection_model.py:161-168 | a type without arguments is kept; otherwise its first argument is returned |
| ModelSchema.NotNone | weaviate/collection/collection_model.py:166 | keeps exactly the arguments that are not `NoneType` |
| ModelSchema.RemoveOptionalType | weaviate/collection/collection_model.py:161-168 | a non-optional type is kept; `Optional[...]` becomes one of its members other than `NoneType` |
| ModelSchema.RemoveOptionalTypesAgree | weaviate/collection/collection_model.py:161-168 | on `Union[T, None]` both definitions give `T` |
| ModelSchema.RemoveOptionalTypeDropsList | weaviate/collection/collection_model.py:161-168 | as written, `List[str]` becomes `str`; the corrected function keeps `List[str]` |
| ModelSchema.FieldClassification | weaviate/collection/collection_model.py:73-97 | reference and plain fields are disjoint, exclude `uuid` and `vector`, and together are the own fields whose first metadata entry is absent, a `PropertyConfig` or a `ReferenceTo` |
| ModelSchema.SchemaPropertiesSucceedIff | weaviate/collection/collection_model.py:126-159 | for either unwrapping of `Optional`, the schema is derived iff every plain field's type is in the type table, with one entry per field; otherwise it raises with the missing type of a plain field |
| ModelSchema.PlainEntriesSucceedIff | weaviate/collection/collection_model.py:136-147 | the plain entries exist iff every plain field's type is known, and a failure names the type of such a field |
| ModelSchema.PlainEntriesValues | weaviate/collection/collection_model.py:136-147 | entry i is the entry of plain field i |
| ModelSchema.SchemaPropertyAt | weaviate/collection/collection_model.py:126-159 | plain entries come first, then one entry per reference field naming its target class |
| ModelSchema.TypeToDict | weaviate/collection/collection_model.py:126-159 | for a given unwrapping of `Optional` (the shipped one in `GetAsWritten`, the corrected one in `Get`), the appending loops produce exactly the specified schema, or raise for the first unknown type |
| ModelSchema.PlainEntriesUnwrapsAgree | weaviate/collection/collection_model.py:128-140 | where both unwrappings give the same type for every plain field, the plain entries are the same |
| ModelSchema.ListFieldSchemaAsWritten | weaviate/collection/collection_model.py:126-168 | as written, a `List[str]` field is declared as `text`; with the corrected unwrapping it is declared as `text[]` |
| ModelSchema.IndexOf | weaviate/collection/collection_model.py:347 | finds the first occurrence of an element, and none iff it is absent |
| ModelSchema.Compare | weaviate/collection/collection_model.py:344-351 | `compare(s, t)` is true iff `s` and `t` are equal as multisets |
| ModelSchema.SchemaEntries | weaviate/collection/collection_model.py:339-342 | one entry per server property, in order: entry i is property i's name and data type; the walk fails iff some property has none, with the error of the first such property |
| ModelSchema.Get | weaviate/collection/collection_model.py:326-355 | corrected (Findings rows collection_model.py:161-168 and 350-354): connection and status errors propagate; with both schemas, `get` succeeds iff they are equal as multisets, binding the capitalised model name |
| ModelSchema.GetAsWrittenInverted | weaviate/collection/collection_model.py:350-354 | as written, when the two unwrappings agree on every plain field, `GetAsWritten` succeeds iff `Get` does not, that is iff the schemas differ |
| ModelSchema.GetAsWrittenRejectsMatch | weaviate/collection/collection_model.py:350-354 | a model whose schema matches the server's is rejected as written and accepted by `Get` |
| ModelObjects.CreateValidUuidFixedPoint | weaviate/collection/collection_model.py:113-123 | validating a validated id, as a UUID or as its string, gives it back |
| ModelObjects.CreateValidUuidOfString | weaviate/collection/collection_model.py:118-123 | a string that parses is that UUID; any other string becomes its md5 digest |
| ModelObjects.DefaultIdSharedAsWritten | weaviate/collection/collection_model.py:46 | as written, every instance without an id gets the one class default, which at least one of two distinct fresh draws differs from |
| ModelObjects.FreshIdsDistinct | weaviate/collection/collection_model.py:46 | with a draw per instance, distinct draws give distinct ids; a given id is validated the same way in both definitions |
| ModelObjects.BaseProperty.constructor | weaviate/collection/collection_model.py:65-71 | the instance holds the filled fields, the validated id and the vector; it records the reference fields and the target class of each |
| ModelObjects.BaseProperty.PropsToDict | weaviate/collection/collection_model.py:99-111 | corrected `update` branch (Findings row collection_model.py:100-104): the dump plus the beacon-list loop produce exactly `EncodedProps` |
| ModelObjects.BaseProperty.EncodedPropsKeys | weaviate/collection/collection_model.py:99-111 | corrected (Findings row collection_model.py:100-104): `uuid` and `vector` are never sent; a reference field is sent iff it holds ids, as its beacon list; a plain field is sent iff it is not excluded by `update` |
| ModelObjects.BaseProperty.UpdateSendsUnsetAsWritten | weaviate/collection/collection_model.py:100-104 | as written, `update=True` sends the same dict as `update=False`, including unset fields; the corrected dict leaves them out |
| ModelObjects.Insert | weaviate/collection/collection_model.py:207-219 | the body holds the class, the encoded properties, the id string and the vector when set; the returned UUID is the instance's id |
| ModelObjects.InsertManyDropsVectorAsWritten | weaviate/collection/collection_model.py:221-233 | as written, an instance's vector is missing from its `insert_many` body, though `insert` sends it |
| ModelObjects.InsertsShareIdAsWritten | weaviate/collection/collection_model.py:46 | as written, two instances built without an id send the same "id", the class default, in their `insert` bodies |
| ModelObjects.InsertMany | weaviate/collection/collection_model.py:221-233 | corrected (Findings row collection_model.py:221-233): one body per instance, in order, each the body `insert` would send |
| ModelObjects.ReplaceBody | weaviate/collection/collection_model.py:235-257 | the body of `replace`/`update` holds the class, the encoded properties (for `update`, by the corrected exclusion of Findings row collection_model.py:100-104) and the vector when set, but no id |
| ModelObjects.ReadBeacons | weaviate/collection/collection_model.py:304-309 | the ids read from a beacon list are its last path segments, one per beacon, or none when an entry is not a beacon |
| ModelObjects.ReadBeaconList | weaviate/collection/collection_model.py:306-309 | the loop collects each beacon's last path segment in order, and fails on the first entry that is not a beacon |
| ModelObjects.JsonToObject | weaviate/collection/collection_model.py:299-313 | each present reference field becomes its id list and everything else is kept; given that the values pass pydantic validation, the object fails to decode iff the properties are missing or a reference field is not a beacon list |
| ModelObjects.ObjectOfShape | weaviate/collection/collection_model.py:299-313 | decoding keeps every key, leaves plain values unchanged and turns a reference's beacon list into an id list of the same length |
| ModelObjects.PropsRoundTrip | weaviate/collection/collection_model.py:99-111 | properties this client encodes decode, and each reference field reads back as the string form of its ids |
| Beacons.ToBeacons | weaviate/collection/collection_model.py:108-110 | one beacon per id, in order |
| Beacons.BeaconIds | weaviate/collection/collection_model.py:304-309 | the ids of a beacon list are its entries' last path segments, present iff every entry is a beacon |
| Beacons.BeaconRoundTrip | weaviate/collection/collection_model.py:99-111 | a written beacon list reads back as the string form of its ids |
| Beacons.UuidBeaconRoundTrip | weaviate/collection/collection_model.py:304-309 | a UUID written as a beacon reads back as a string that parses to it |
| Beacons.BatchReferences | weaviate/collection/collection_model.py:289-297 | one `from`/`to` pair per reference |
| Beacons.BatchReferencesDecode | weaviate/collection/collection.py:123-131 | pair i's `to` ends with the target id and its `from` ends with the property name |
| Beacons.BatchReferenceFromDecode | weaviate/collection/collection.py:123-131 | pair i's `from` reads back as the BEACON prefix and class name, then the source id, then the property name |
| Uuids.ParseFormat | weaviate/collection/collection_model.py:219 | `UUID(str(u)) == u` |
| Uuids.FormatInjective | weaviate/collection/collection_model.py:213 | distinct UUIDs have distinct strings |
| Text.Capitalize | weaviate/collection/collection_model.py:33-36 | `capitalize()` upper-cases the first character and lower-cases the rest, keeping the length |
| Text.LastSegmentAfterSlash | weaviate/collection/collection_model.py:309 | `split("/")[-1]` of `prefix/tail` is `tail` when `tail` has no slash |
| Payloads.WireObject | weaviate/collection/collection.py:45-56 | a body has exactly the keys class and properties, plus id and vector when given, with those values |
| Untyped.PayloadProperties | weaviate/collection/collection.py:48-51 | the body's properties have exactly the keys of the data |
| Untyped.PayloadPropertiesReadBack | weaviate/collection/collection.py:48-51 | a `RefToObject` value reads back as its ids' strings; every other value is sent as it is |
| Untyped.InsertId | weaviate/collection/collection.py:52 | a given id is sent as its string; otherwise a fresh id is sent that parses back to the draw |
| Untyped.Insert | weaviate/collection/collection.py:40-58 | the body holds class, properties, id and the vector when given |
| Untyped.InsertManyAsWritten | weaviate/collection/collection.py:60-73 | as written, one body per object, in order, each without a vector |
| Untyped.InsertMany | weaviate/collection/collection.py:60-73 | corrected (Findings row collection.py:60-73): one body per object, in order, each the body `insert` would send |
| Untyped.InsertManyDropsVectorAsWritten | weaviate/collection/collection.py:60-73 | as written, an object's vector is dropped; otherwise both bodies agree |
| Untyped.ReplaceBody | weaviate/collection/collection.py:75-103 | the body of `replace`/`update` has class and properties, plus the vector when given, and no id |
| Untyped.InsertReadBack | weaviate/collection/collection.py:143-147 | a body this API writes reads back through `JsonToObject` (`_json_to_object`, which copies `obj["properties"]` and keeps `obj` as metadata) with exactly the properties it sent |
| Untyped.ReadObjects | weaviate/collection/collection.py:111-116 | one object per entry, in order, and success iff every entry decodes |
| Untyped.Get | weaviate/collection/collection.py:111-116 | no answer, or a JSON `null` (both `ret is None`), is an empty list; otherwise `get` succeeds iff the answer has "objects" and it is a list whose every entry decodes (one object per entry, in order) or it is the empty string or empty dict, which give an empty list |
| Untyped.NullAnswerIsNone | weaviate/collection/collection.py:105-114 | a JSON `null` answer gives `[]` from `get` and `None` from `get_by_id`, as no answer does |
| Untyped.GetById | weaviate/collection/collection.py:105-109 | no answer, or a JSON `null`, is `None`; otherwise success iff the object decodes |

## Left out

- The network is not modelled. Server answers, the HTTP status and the bearer token are inputs. `WeaviateGRPCException` is modelled as carrying the RPC error's details.
- `uuid4()`, md5 and the beacon prefix (`BEACON` and `_to_beacons`) are parameters. `PYTHON_TYPE_TO_DATATYPE` is a table parameter.
- Pydantic is not modelled. `model_validate`, type coercion and the model constructor in `_json_to_object` become the precondition `Accepts` and a map of values.
- `MetadataReturn` is kept as the keyword map passed to it.
- Python set iteration order is unspecified, so where the source iterates a set into a list the order is a parameter (`Enumerates`). The `Properties` message keeps sets, so reference entries that are equal collapse into one, where the source's list would repeat them.
- Floats are opaque 64-bit values. `str.lower`/`capitalize` are modelled on ASCII letters only. The UUID parser accepts the forms `uuid.UUID` strips (braces, `urn:uuid:`, hyphens), without further leniency.
- `_json_to_object` updates the caller's `obj["properties"]` in place; the model returns the decoded copy instead. The metadata map is taken from the undecoded `obj`, whereas the source passes the updated `obj` to `MetadataReturn(**obj)`; only its `properties` key differs.
- These are not part of this model: `get_dynamic`, `create`, `with_tenant`, `with_consistency_level`, `reference_add`/`delete`/`replace` and the typed `get`/`get_by_id`.
- Beacons.ToBeacons: states only the list's shape; the beacon strings are described by `Beacons.BeaconRoundTrip`.
- Beacons.BatchReferences: states only the length; the contents are described by `Beacons.BatchReferencesDecode` and `Beacons.BatchReferenceFromDecode`.

## Findings

| source | as written | input that shows it | evidently intended | confidence | as-written member | corrected member |
|---|---|---|---|---|---|---|
| weaviate/collection/collection_model.py:100-104 | `fields_to_exclude.union(...)` builds a new set and discards it, so `update=True` excludes nothing more | an instance with a plain field the caller did not set, dumped with `update=True` | with `update`, unset fields are left out of the body | high, not executed | ModelObjects.BaseProperty.UpdateSendsUnsetAsWritten | ModelObjects.BaseProperty.EncodedPropsKeys |
| weaviate/collection/collection_model.py:350-354 | `TypeError` is raised when `compare` is true, that is when the schemas match | a model with no properties against a server schema with no properties | raise when the schemas are not compatible | high, not executed | ModelSchema.GetAsWrittenRejectsMatch | ModelSchema.Get |
| weaviate/collection/collection_model.py:161-168 | the first type argument of any generic is returned, so `type_to_dict` declares a `List[str]` field as `text` | a model with a `List[str]` field | only `Optional[T]` is unwrapped | medium, not executed | ModelSchema.ListFieldSchemaAsWritten | ModelSchema.RemoveOptionalType |
| weaviate/collection/grpc.py:165-166 | `set.union` iterates a single property name, adding its characters; `hybrid`, `bm25`, `near_vector` and `near_object` repeat the same union at lines 194, 213, 232 and 252 | `return_properties="id"` | a single name adds that name | high, not executed | GrpcQuery.SingleNameSplitAsWritten | GrpcQuery.UnionProperties |
| weaviate/collection/collection_model.py:46 | `Field(default=uuid4())` draws the default once for the class | two instances of one model built without a uuid | a fresh id per instance | high, not executed | ModelObjects.InsertsShareIdAsWritten | ModelObjects.FreshIdsDistinct |
| weaviate/collection/collection_model.py:221-233 | the `insert_many` body has no vector | an instance with a vector | the vector is sent, as `insert` does | medium, not executed | ModelObjects.InsertManyDropsVectorAsWritten | ModelObjects.InsertMany |
| weaviate/collection/collection.py:60-73 | the `insert_many` body ignores `DataObject.vector` | a `DataObject` with a vector | the vector is sent, as `insert` does | medium, not executed | Untyped.InsertManyDropsVectorAsWritten | Untyped.InsertMany |
| weaviate/collection/grpc.py:371 | `set(prop.properties)` iterates a single property name, requesting its characters | `LinkTo(link_on="group", properties="name")` | a single name requests that name | high, not executed | GrpcQuery.LinkedSingleNameSplitAsWritten | GrpcQuery.LinkedPropertiesIsConversion |
