/** The request side of the collection query client: what a search asks for.
    A search names its plain properties and, through `LinkTo`, the reference
    properties to follow together with the metadata wanted of the linked
    objects. From that request the client derives two things: the
    `Properties` message sent to the server and the projection tree it uses
    to read the answer back. */
module GrpcQuery {
  import opened Wrappers

  /** `MetadataQuery`: which additional values a search returns. */
  datatype MetadataQuery = MetadataQuery(
    uuid: bool,
    vector: bool,
    creationTimeUnix: bool,
    lastUpdateTimeUnix: bool,
    distance: bool,
    certainty: bool,
    score: bool,
    explainScore: bool)

  /** The `AdditionalProperties` request message (its fields in wire order). */
  datatype AdditionalProperties = AdditionalProperties(
    uuid: bool,
    vector: bool,
    creationTimeUnix: bool,
    lastUpdateTimeUnix: bool,
    distance: bool,
    certainty: bool,
    explainScore: bool,
    score: bool)

  /** `_metadata_to_grpc`: each request flag is carried to the field of the same name. */
  function MetadataToGrpc(m: MetadataQuery): (r: AdditionalProperties)
    ensures MetadataFromGrpc(r) == m
  {
    AdditionalProperties(
      uuid := m.uuid,
      vector := m.vector,
      creationTimeUnix := m.creationTimeUnix,
      lastUpdateTimeUnix := m.lastUpdateTimeUnix,
      distance := m.distance,
      certainty := m.certainty,
      explainScore := m.explainScore,
      score := m.score)
  }

  /** What a server reads out of an `AdditionalProperties` message. */
  function MetadataFromGrpc(a: AdditionalProperties): MetadataQuery {
    MetadataQuery(a.uuid, a.vector, a.creationTimeUnix, a.lastUpdateTimeUnix,
                  a.distance, a.certainty, a.score, a.explainScore)
  }

  /** The message loses nothing in the other direction either: distinct
      metadata requests are distinct messages. */
  lemma MetadataGrpcRoundTrip(a: AdditionalProperties)
    ensures MetadataToGrpc(MetadataFromGrpc(a)) == a
  {
  }

  /** `PROPERTIES`: a list of names and links, or one name given as a string. */
  datatype Properties = Many(items: seq<Prop>) | Single(name: string)

  /** One requested property: a plain name, or `LinkTo(link_on, properties, metadata)`. */
  datatype Prop =
    | Name(name: string)
    | LinkTo(linkOn: string, properties: Properties, metadata: MetadataQuery)

  /** The entries that `for prop in props` should visit: a list's items, or
      the single name. */
  function Elements(ps: Properties): seq<Prop> {
    match ps
    case Many(items) => items
    case Single(s) => [Name(s)]
  }

  /** The entries Python visits: iterating a `str` visits its characters, so
      `"name"` is read as the four properties `n`, `a`, `m`, `e`. */
  function ElementsAsWritten(ps: Properties): seq<Prop> {
    match ps
    case Many(items) => items
    case Single(s) => seq(|s|, i requires 0 <= i < |s| => Name([s[i]]))
  }

  /** A one-string request as written splits the name into letters. */
  lemma SingleNameSplitAsWritten()
    ensures ElementsAsWritten(Single("id")) == [Name("i"), Name("d")]
    ensures Name("id") !in ElementsAsWritten(Single("id"))
  {
    var r := ElementsAsWritten(Single("id"));
    assert r[0] == Name("i") && r[1] == Name("d");
  }

  /** `self._default_props.union(return_properties)`. */
  function UnionProperties(current: set<Prop>, requested: Properties): (r: set<Prop>)
    ensures current <= r
    ensures forall p :: p in Elements(requested) ==> p in r
    ensures forall p :: p in r && p !in current ==> p in Elements(requested)
    ensures requested.Single? ==> r == current + {Name(requested.name)}
  {
    current + (set p | p in Elements(requested))
  }

  /** `RefProps(meta, refs)`: one node of the projection tree. */
  datatype RefProps = RefProps(meta: MetadataQuery, refs: map<string, RefProps>)

  /** The projection of one `LinkTo`'s own properties: a single name has no links. */
  function ProjectionOf(ps: Properties): map<string, RefProps>
    decreases ps, 1
  {
    match ps
    case Many(items) => ProjectionTree(items)
    case Single(_) => map[]
  }

  /** `_ref_props_return_meta(props)`: each `LinkTo` at this level maps its
      `link_on` to its metadata and the projection of its own properties; a
      later entry with the same `link_on` overwrites an earlier one. */
  function ProjectionTree(props: seq<Prop>): map<string, RefProps>
    decreases props, 0
  {
    if props == [] then map[]
    else
      var rest := ProjectionTree(props[..|props| - 1]);
      match props[|props| - 1]
      case Name(_) => rest
      case LinkTo(on, ps, m) => rest[on := RefProps(m, ProjectionOf(ps))]
  }

  /** `_ref_props_return_meta(props)` as the client runs it: one pass over the
      entries, filling the dictionary link by link. */
  method RefPropsReturnMeta(props: seq<Prop>) returns (refProps: map<string, RefProps>)
    ensures refProps == ProjectionTree(props)
    decreases props
  {
    refProps := map[];
    var i := 0;
    while i < |props|
      invariant 0 <= i <= |props|
      invariant refProps == ProjectionTree(props[..i])
    {
      assert props[..i + 1][..i] == props[..i];
      match props[i] {
        case Name(_) =>
        case LinkTo(on, ps, m) =>
          var sub: map<string, RefProps>;
          match ps {
            case Many(items) => sub := RefPropsReturnMeta(items);
            case Single(_) => sub := map[];
          }
          refProps := refProps[on := RefProps(m, sub)];
      }
      i := i + 1;
    }
    assert props[..|props|] == props;
  }

  /** Whether `props[i]` is the last `LinkTo` in `props` linking on `on`. */
  predicate LastLink(props: seq<Prop>, on: string, i: int) {
    0 <= i < |props| && props[i].LinkTo? && props[i].linkOn == on &&
    forall j :: i < j < |props| ==> !(props[j].LinkTo? && props[j].linkOn == on)
  }

  /** The keys of the projection tree are exactly the `link_on` names at that
      level, and each maps to the last link of that name, with that link's
      metadata and the projection of that link's properties. */
  lemma {:induction false} ProjectionTreeSpec(props: seq<Prop>, on: string)
    ensures on in ProjectionTree(props) <==> exists i :: 0 <= i < |props| && props[i].LinkTo? && props[i].linkOn == on
    ensures on in ProjectionTree(props) ==>
      exists i :: (LastLink(props, on, i) &&
                   ProjectionTree(props)[on] == RefProps(props[i].metadata, ProjectionOf(props[i].properties)))
  {
    if props != [] {
      var n := |props| - 1;
      var init := props[..n];
      ProjectionTreeSpec(init, on);
      if props[n].LinkTo? && props[n].linkOn == on {
        assert LastLink(props, on, n);
      } else {
        if on in ProjectionTree(props) {
          var i :| LastLink(init, on, i) &&
            ProjectionTree(init)[on] == RefProps(init[i].metadata, ProjectionOf(init[i].properties));
          assert LastLink(props, on, i);
        }
        forall i | 0 <= i < |props| && props[i].LinkTo? && props[i].linkOn == on
          ensures on in ProjectionTree(props)
        {
          assert i < n && init[i] == props[i];
        }
      }
    }
  }

  /** Plain names never enter the projection tree. */
  lemma {:induction false} ProjectionIgnoresNames(props: seq<Prop>, name: string)
    ensures ProjectionTree(props + [Name(name)]) == ProjectionTree(props)
  {
    assert (props + [Name(name)])[..|props|] == props;
  }

  /** One `ref_properties` entry of the `Properties` message. */
  datatype GrpcRefProperties = GrpcRefProperties(
    referenceProperty: string,
    linkedProperties: GrpcProperties,
    metadata: AdditionalProperties)

  /** The `Properties` message. The client fills its lists by iterating a set,
      so their order is not determined; the model keeps them as sets. */
  datatype GrpcProperties = GrpcProperties(
    nonRefProperties: set<string>,
    refProperties: set<GrpcRefProperties>)

  /** `_convert_references_to_grpc(properties)`: names go to
      `non_ref_properties`, links to `ref_properties`, each with its own
      properties converted in turn. */
  function ConvertReferencesToGrpc(props: set<Prop>): (r: GrpcProperties)
    ensures forall s :: s in r.nonRefProperties <==> Name(s) in props
    ensures forall e :: e in r.refProperties <==> exists p :: p in props && p.LinkTo? && e == RefEntry(p)
  {
    GrpcProperties(
      set p | p in props && p.Name? :: p.name,
      set p | p in props && p.LinkTo? :: RefEntry(p))
  }

  /** The message for one link. */
  function RefEntry(p: Prop): (r: GrpcRefProperties)
    requires p.LinkTo?
    ensures r.referenceProperty == p.linkOn
    ensures MetadataFromGrpc(r.metadata) == p.metadata
    decreases p, 1
  {
    GrpcRefProperties(p.linkOn, LinkedProperties(p.properties), MetadataToGrpc(p.metadata))
  }

  /** The recursive step `_convert_references_to_grpc(set(prop.properties))`,
      reading a single string as one name, as for the top-level request
      (`LinkedPropertiesAsWritten` is the step as shipped). */
  function LinkedProperties(ps: Properties): GrpcProperties
    decreases ps, 0
  {
    match ps
    case Single(s) => GrpcProperties({s}, {})
    case Many(items) =>
      GrpcProperties(
        set i | 0 <= i < |items| && items[i].Name? :: items[i].name,
        set i | 0 <= i < |items| && items[i].LinkTo? :: RefEntry(items[i]))
  }

  /** The recursive step is the same conversion applied to the set of a link's
      properties, so a link's `linked_properties` are partitioned just like
      the top level. */
  lemma LinkedPropertiesIsConversion(ps: Properties)
    ensures LinkedProperties(ps) == ConvertReferencesToGrpc(set q | q in Elements(ps))
  {
    var r := LinkedProperties(ps);
    var c := ConvertReferencesToGrpc(set q | q in Elements(ps));
    match ps
    case Single(s) =>
      assert Elements(ps) == [Name(s)];
      assert c.nonRefProperties == {s};
    case Many(items) =>
      forall s | s in c.nonRefProperties ensures s in r.nonRefProperties {
        var i :| 0 <= i < |items| && items[i] == Name(s);
      }
      forall e | e in c.refProperties ensures e in r.refProperties {
        var p :| p in items && p.LinkTo? && e == RefEntry(p);
        var i :| 0 <= i < |items| && items[i] == p;
      }
  }

  /** `_convert_references_to_grpc(set(prop.properties))` as written: for
      `properties` given as one string, `set` collects its characters. */
  function LinkedPropertiesAsWritten(ps: Properties): GrpcProperties {
    match ps
    case Single(s) => GrpcProperties(set i | 0 <= i < |s| :: [s[i]], {})
    case Many(_) => LinkedProperties(ps)
  }

  /** As written, the link's properties are converted from the characters
      Python iterates, just like the top-level single-string request. */
  lemma LinkedPropertiesAsWrittenIsConversion(ps: Properties)
    ensures LinkedPropertiesAsWritten(ps) == ConvertReferencesToGrpc(set q | q in ElementsAsWritten(ps))
  {
    match ps
    case Single(s) =>
      var c := ConvertReferencesToGrpc(set q | q in ElementsAsWritten(ps));
      forall x | x in c.nonRefProperties ensures x in LinkedPropertiesAsWritten(ps).nonRefProperties {
        var i :| 0 <= i < |s| && ElementsAsWritten(ps)[i] == Name(x);
      }
      forall x | x in LinkedPropertiesAsWritten(ps).nonRefProperties ensures x in c.nonRefProperties {
        var i :| 0 <= i < |s| && x == [s[i]];
        assert ElementsAsWritten(ps)[i] == Name(x);
      }
    case Many(_) =>
      LinkedPropertiesIsConversion(ps);
  }

  /** `LinkTo(link_on="group", properties="name")` as written asks the linked
      objects for the properties `n`, `a`, `m` and `e`, never for `name`;
      the corrected conversion asks for `name`. */
  lemma LinkedSingleNameSplitAsWritten()
    ensures LinkedPropertiesAsWritten(Single("name")).nonRefProperties == {"n", "a", "m", "e"}
    ensures "name" !in LinkedPropertiesAsWritten(Single("name")).nonRefProperties
    ensures LinkedProperties(Single("name")).nonRefProperties == {"name"}
  {
    var s := "name";
    var r := LinkedPropertiesAsWritten(Single(s)).nonRefProperties;
    assert [s[0]] == "n" && [s[1]] == "a" && [s[2]] == "m" && [s[3]] == "e";
    assert r == {"n", "a", "m", "e"};
  }

  /** No two requested names collapse: `non_ref_properties` holds one entry
      per distinct requested name. */
  lemma ConvertPartition(props: set<Prop>)
    ensures |ConvertReferencesToGrpc(props).nonRefProperties| == |set p | p in props && p.Name?|
  {
    var names := set p | p in props && p.Name?;
    var r := ConvertReferencesToGrpc(props).nonRefProperties;
    NameCount(names, r);
  }

  /** Taking the names of a set of `Name` entries loses no element. */
  lemma {:induction false} NameCount(names: set<Prop>, r: set<string>)
    requires forall p :: p in names ==> p.Name?
    requires r == set p | p in names :: p.name
    ensures |r| == |names|
    decreases |names|
  {
    if names != {} {
      var p :| p in names;
      var rest := names - {p};
      NameCount(rest, set q | q in rest :: q.name);
      assert r == (set q | q in rest :: q.name) + {p.name};
      assert p.name !in (set q | q in rest :: q.name);
    }
  }
}
