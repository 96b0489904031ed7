/** The query builder `_GRPC`: a set of search parameters that each search
    verb overwrites in part, and the one search call made from them. */
module GrpcBuilder {
  import opened Wrappers
  import opened Values
  import opened Uuids
  import opened GrpcQuery
  import opened GrpcResults
  import opened Sets

  /** `HybridFusion`: the fusion algorithms a hybrid search can ask for. */
  datatype HybridFusion = Ranked | RelativeScore {
    /** The enum member's name, which selects the wire enum value. */
    function Name(): string {
      match this
      case Ranked => "RANKED"
      case RelativeScore => "RELATIVE_SCORE"
    }
  }

  /** `HybridSearchParams.FusionType`, identified by the member name it was looked up with. */
  datatype FusionType = FusionType(name: string)

  /** `FusionType.Value(fusion_type.name)`, or None when no fusion type is given. */
  function FusionTypeOf(f: Option<HybridFusion>): Option<FusionType> {
    match f
    case None => None
    case Some(h) => Some(FusionType(h.Name()))
  }

  datatype NearVectorParams = NearVectorParams(vector: seq<Float>, certainty: Option<Float>, distance: Option<Float>)

  datatype NearObjectParams = NearObjectParams(id: string, certainty: Option<Float>, distance: Option<Float>)

  datatype BM25SearchParams = BM25SearchParams(properties: Option<seq<string>>, query: string)

  datatype HybridSearchParams = HybridSearchParams(
    properties: Option<seq<string>>,
    query: string,
    alpha: Option<Float>,
    vector: Option<seq<Float>>,
    fusionType: Option<FusionType>)

  /** The `SearchRequest` message; an absent section is None. */
  datatype SearchRequest = SearchRequest(
    className: string,
    limit: Option<int>,
    offset: Option<int>,
    after: string,
    autocut: Option<int>,
    nearVector: Option<NearVectorParams>,
    nearObject: Option<NearObjectParams>,
    properties: GrpcProperties,
    additionalProperties: Option<AdditionalProperties>,
    bm25Search: Option<BM25SearchParams>,
    hybridSearch: Option<HybridSearchParams>,
    tenant: Option<string>)

  /** The fields of `_GRPC`, as one value. */
  datatype QueryState = QueryState(
    name: string,
    tenant: Option<string>,
    defaultProps: set<Prop>,
    metadata: Option<MetadataQuery>,
    limit: Option<int>,
    offset: Option<int>,
    autocut: Option<int>,
    after: Option<UuidValue>,
    hybridQuery: Option<string>,
    hybridAlpha: Option<Float>,
    hybridVector: Option<seq<Float>>,
    hybridProperties: Option<seq<string>>,
    hybridFusionType: Option<FusionType>,
    bm25Query: Option<string>,
    bm25Properties: Option<seq<string>>,
    nearVectorVec: Option<seq<Float>>,
    nearObjectObj: Option<UuidValue>,
    nearCertainty: Option<Float>,
    nearDistance: Option<Float>)

  /** The state `_GRPC.__init__` leaves: the given default properties (or
      none) and every search parameter unset. */
  function InitialState(name: string, tenant: Option<string>, defaultProperties: Option<set<Prop>>): QueryState {
    QueryState(name, tenant, defaultProperties.GetOr({}), None,
               None, None, None, None,
               None, None, None, None, None,
               None, None,
               None, None, None, None)
  }

  /** The requested properties after a verb: unchanged when none are given,
      otherwise grown by them. */
  function AddProperties(current: set<Prop>, returnProperties: Option<Properties>): set<Prop> {
    match returnProperties
    case None => current
    case Some(ps) => UnionProperties(current, ps)
  }

  /** The fields `get` overwrites. */
  function GetStep(s: QueryState, limit: Option<int>, offset: Option<int>, after: Option<UuidValue>,
                   returnMetadata: Option<MetadataQuery>, returnProperties: Option<Properties>): QueryState {
    s.(limit := limit, offset := offset, after := after, metadata := returnMetadata,
       defaultProps := AddProperties(s.defaultProps, returnProperties))
  }

  /** The fields `hybrid` overwrites. */
  function HybridStep(s: QueryState, query: string, alpha: Option<Float>, vector: Option<seq<Float>>,
                      properties: Option<seq<string>>, fusionType: Option<HybridFusion>, limit: Option<int>,
                      autocut: Option<int>, returnMetadata: Option<MetadataQuery>,
                      returnProperties: Option<Properties>): QueryState {
    s.(hybridQuery := Some(query), hybridAlpha := alpha, hybridVector := vector,
       hybridProperties := properties, hybridFusionType := FusionTypeOf(fusionType),
       limit := limit, autocut := autocut, metadata := returnMetadata,
       defaultProps := AddProperties(s.defaultProps, returnProperties))
  }

  /** The fields `bm25` overwrites. */
  function Bm25Step(s: QueryState, query: string, properties: Option<seq<string>>, limit: Option<int>,
                    autocut: Option<int>, returnMetadata: Option<MetadataQuery>,
                    returnProperties: Option<Properties>): QueryState {
    s.(bm25Query := Some(query), bm25Properties := properties, limit := limit, autocut := autocut,
       metadata := returnMetadata, defaultProps := AddProperties(s.defaultProps, returnProperties))
  }

  /** The fields `near_vector` overwrites. */
  function NearVectorStep(s: QueryState, vector: seq<Float>, certainty: Option<Float>, distance: Option<Float>,
                          autocut: Option<int>, returnMetadata: Option<MetadataQuery>,
                          returnProperties: Option<Properties>): QueryState {
    s.(nearVectorVec := Some(vector), nearCertainty := certainty, nearDistance := distance,
       autocut := autocut, metadata := returnMetadata,
       defaultProps := AddProperties(s.defaultProps, returnProperties))
  }

  /** The fields `near_object` overwrites. */
  function NearObjectStep(s: QueryState, nearObject: UuidValue, certainty: Option<Float>, distance: Option<Float>,
                          autocut: Option<int>, returnMetadata: Option<MetadataQuery>,
                          returnProperties: Option<Properties>): QueryState {
    s.(nearObjectObj := Some(nearObject), nearCertainty := certainty, nearDistance := distance,
       autocut := autocut, metadata := returnMetadata,
       defaultProps := AddProperties(s.defaultProps, returnProperties))
  }

  /** The request `__call` builds from the builder's fields. */
  function Request(s: QueryState): SearchRequest
  {
    SearchRequest(
      className := s.name,
      limit := s.limit,
      offset := s.offset,
      after := if s.after.Some? then UuidString(s.after.value) else "",
      autocut := s.autocut,
      nearVector :=
        if s.nearVectorVec.Some? then Some(NearVectorParams(s.nearVectorVec.value, s.nearCertainty, s.nearDistance))
        else None,
      nearObject :=
        if s.nearObjectObj.Some? then Some(NearObjectParams(UuidString(s.nearObjectObj.value), s.nearCertainty, s.nearDistance))
        else None,
      properties := ConvertReferencesToGrpc(s.defaultProps),
      additionalProperties := if s.metadata.Some? then Some(MetadataToGrpc(s.metadata.value)) else None,
      bm25Search := if s.bm25Query.Some? then Some(BM25SearchParams(s.bm25Properties, s.bm25Query.value)) else None,
      hybridSearch :=
        if s.hybridQuery.Some? then
          Some(HybridSearchParams(s.hybridProperties, s.hybridQuery.value, s.hybridAlpha, s.hybridVector, s.hybridFusionType))
        else None,
      tenant := s.tenant)
  }

  /** The request `__call` sends: each search section is present exactly when
      its defining parameter is set, an unset `after` is sent as "", the
      requested properties are partitioned into plain and reference
      projections, and metadata is asked for only when a request was given. */
  lemma RequestSpec(s: QueryState)
    ensures Request(s).className == s.name && Request(s).tenant == s.tenant
    ensures Request(s).limit == s.limit && Request(s).offset == s.offset && Request(s).autocut == s.autocut
    ensures s.after.None? ==> Request(s).after == ""
    ensures Request(s).nearVector.Some? <==> s.nearVectorVec.Some?
    ensures Request(s).nearObject.Some? <==> s.nearObjectObj.Some?
    ensures Request(s).bm25Search.Some? <==> s.bm25Query.Some?
    ensures Request(s).hybridSearch.Some? <==> s.hybridQuery.Some?
    ensures Request(s).additionalProperties.Some? <==> s.metadata.Some?
    ensures s.metadata.Some? ==> MetadataFromGrpc(Request(s).additionalProperties.value) == s.metadata.value
    ensures forall p :: p in s.defaultProps && p.Name? ==> p.name in Request(s).properties.nonRefProperties
  {
  }

  /** An `after` id given as a `uuid.UUID` reaches the server as its
      canonical string, which parses back to the same id. */
  lemma AfterIdRoundTrip(s: QueryState, u: Uuid)
    requires s.after == Some(UuidObj(u))
    ensures Parse(Request(s).after) == Some(u)
  {
    ParseFormat(u);
  }

  /** A `near_object` id given as a `uuid.UUID` is sent in the near-object
      section as its canonical string, which parses back to the same id. */
  lemma NearObjectIdRoundTrip(s: QueryState, u: Uuid)
    requires s.nearObjectObj == Some(UuidObj(u))
    ensures Request(s).nearObject.Some? && Parse(Request(s).nearObject.value.id) == Some(u)
  {
    ParseFormat(u);
  }

  /** The builder keeps what earlier verbs set: a `bm25` search run on a
      builder that already ran `near_vector` still sends the vector search,
      with the vector and the metadata request of the second call. */
  lemma EarlierSectionsPersist(s: QueryState, vector: seq<Float>, query: string, m: Option<MetadataQuery>)
    ensures var t := Bm25Step(NearVectorStep(s, vector, None, None, None, None, None), query, None, None, None, m, None);
      Request(t).nearVector == Some(NearVectorParams(vector, None, None)) &&
      Request(t).bm25Search == Some(BM25SearchParams(None, query)) &&
      Request(t).additionalProperties.Some? == m.Some?
  {
  }

  /** Requested properties only accumulate: no verb forgets one. */
  lemma PropertiesAccumulate(s: QueryState, limit: Option<int>, offset: Option<int>, after: Option<UuidValue>,
                             m: Option<MetadataQuery>, ps: Option<Properties>)
    ensures s.defaultProps <= GetStep(s, limit, offset, after, m, ps).defaultProps
    ensures ps.Some? ==> forall p :: p in Elements(ps.value) ==> p in GetStep(s, limit, offset, after, m, ps).defaultProps
  {
  }

  /** `get_current_bearer_token` and the search call's outcome, taken as inputs. */
  datatype SearchResult = SearchResult(properties: ResultProperties, additionalProperties: ResultAdditionalProps)

  datatype SearchResponse = Rows(results: seq<SearchResult>) | RpcError(details: string)

  /** What `__call` raises: `WeaviateGRPCException(details)` for a failed
      call, or the `KeyError` of a row that does not match the projection. */
  datatype CallError = GrpcException(details: string) | KeyErrorRaised(key: string)

  /** The results `__call` returns for the rows of a response, in order:
      each row rebuilt along the projection tree, with its metadata read as
      requested; the first row that does not match the tree raises. */
  function SearchResults(rows: seq<SearchResult>, proj: map<string, RefProps>, meta: Option<MetadataQuery>)
    : Result<seq<GrpcResult>, CallError>
  {
    if rows == [] then Success([])
    else
      match Rebuild(rows[0].properties, proj)
      case Failure(e) => Failure(KeyErrorRaised(e))
      case Success(obj) =>
        Prepend([GrpcResult(MetadataOf(rows[0].additionalProperties, meta), obj)], SearchResults(rows[1..], proj, meta))
  }

  /** The outcome of `__call`: a failed call raises `WeaviateGRPCException`
      with the call's details; otherwise the rows are read back. */
  function SearchOutcome(response: SearchResponse, proj: map<string, RefProps>, meta: Option<MetadataQuery>)
    : Result<seq<GrpcResult>, CallError>
  {
    match response
    case RpcError(details) => Failure(GrpcException(details))
    case Rows(rows) => SearchResults(rows, proj, meta)
  }

  /** A search answers with one result per response row, in response order,
      exactly when every row matches the projection tree; otherwise it
      raises the `KeyError` of a row that does not. */
  lemma {:induction false} SearchResultsSpec(rows: seq<SearchResult>, proj: map<string, RefProps>, meta: Option<MetadataQuery>)
    ensures SearchResults(rows, proj, meta).Success? <==>
      forall i :: 0 <= i < |rows| ==> Rebuild(rows[i].properties, proj).Success?
    ensures SearchResults(rows, proj, meta).Success? ==>
      |SearchResults(rows, proj, meta).value| == |rows| &&
      forall i :: 0 <= i < |rows| ==>
        SearchResults(rows, proj, meta).value[i] ==
          GrpcResult(MetadataOf(rows[i].additionalProperties, meta), Rebuild(rows[i].properties, proj).value)
    ensures SearchResults(rows, proj, meta).Failure? ==>
      SearchResults(rows, proj, meta).error.KeyErrorRaised? &&
      exists i :: 0 <= i < |rows| &&
        Rebuild(rows[i].properties, proj) == Failure(SearchResults(rows, proj, meta).error.key)
  {
    if rows != [] {
      SearchResultsSpec(rows[1..], proj, meta);
      assert forall i :: 0 < i < |rows| ==> rows[i] == rows[1..][i - 1];
      var r := SearchResults(rows, proj, meta);
      if r.Failure? && Rebuild(rows[0].properties, proj).Success? {
        var i :| 0 <= i < |rows[1..]| &&
          Rebuild(rows[1..][i].properties, proj) == Failure(SearchResults(rows[1..], proj, meta).error.key);
        assert Rebuild(rows[i + 1].properties, proj) == Failure(r.error.key);
      }
    }
  }

  class QueryBuilder {
    const name: string
    const tenant: Option<string>
    var defaultProps: set<Prop>
    var metadata: Option<MetadataQuery>
    var limit: Option<int>
    var offset: Option<int>
    var autocut: Option<int>
    var after: Option<UuidValue>
    var hybridQuery: Option<string>
    var hybridAlpha: Option<Float>
    var hybridVector: Option<seq<Float>>
    var hybridProperties: Option<seq<string>>
    var hybridFusionType: Option<FusionType>
    var bm25Query: Option<string>
    var bm25Properties: Option<seq<string>>
    var nearVectorVec: Option<seq<Float>>
    var nearObjectObj: Option<UuidValue>
    var nearCertainty: Option<Float>
    var nearDistance: Option<Float>

    function State(): QueryState
      reads this
    {
      QueryState(name, tenant, defaultProps, metadata, limit, offset, autocut, after,
                 hybridQuery, hybridAlpha, hybridVector, hybridProperties, hybridFusionType,
                 bm25Query, bm25Properties, nearVectorVec, nearObjectObj, nearCertainty, nearDistance)
    }

    constructor (name: string, tenant: Option<string>, defaultProperties: Option<set<Prop>>)
      ensures State() == InitialState(name, tenant, defaultProperties)
    {
      this.name := name;
      this.tenant := tenant;
      if defaultProperties.Some? {
        defaultProps := defaultProperties.value;
      } else {
        defaultProps := {};
      }
      metadata := None;
      limit, offset, autocut, after := None, None, None, None;
      hybridQuery, hybridAlpha, hybridVector, hybridProperties, hybridFusionType := None, None, None, None, None;
      bm25Query, bm25Properties := None, None;
      nearVectorVec, nearObjectObj, nearCertainty, nearDistance := None, None, None, None;
    }

    /** `__call`: sends the request built from the current fields, with the
        bearer token as authorization metadata when there is one, and reads
        back one result per response row, in response order. */
    method Call(token: string, response: SearchResponse, order: seq<Prop>)
      returns (request: SearchRequest, callMetadata: seq<(string, string)>, r: Result<seq<GrpcResult>, CallError>)
      requires Enumerates(order, defaultProps)
      ensures request == Request(State())
      ensures |token| > 0 ==> callMetadata == [("authorization", token)]
      ensures |token| == 0 ==> callMetadata == []
      ensures r == SearchOutcome(response, ProjectionTree(order), metadata)
    {
      callMetadata := [];
      if |token| > 0 {
        callMetadata := [("authorization", token)];
      }
      request := Request(State());
      if response.RpcError? {
        return request, callMetadata, Failure(GrpcException(response.details));
      }
      var rows := response.results;
      var refPropsMeta := RefPropsReturnMeta(order);
      var objects: seq<GrpcResult> := [];
      assert rows[0..] == rows;
      for i := 0 to |rows|
        invariant Prepend(objects, SearchResults(rows[i..], refPropsMeta, metadata))
               == SearchResults(rows, refPropsMeta, metadata)
      {
        assert rows[i..][0] == rows[i] && rows[i..][1..] == rows[i + 1..];
        var obj := ConvertReferencesToGrpcResult(rows[i].properties, refPropsMeta);
        if obj.Failure? {
          return request, callMetadata, Failure(KeyErrorRaised(obj.error));
        }
        var metadataReturn := ExtractMetadata(rows[i].additionalProperties, metadata);
        var entry := GrpcResult(metadataReturn, obj.value);
        PrependTwice(objects, [entry], SearchResults(rows[i + 1..], refPropsMeta, metadata));
        objects := objects + [entry];
      }
      assert rows[|rows|..] == [] && objects + [] == objects;
      r := Success(objects);
    }

    /** `get`: sets the paging fields and the metadata request, adds the
        requested properties, then runs the search. */
    method Get(limit: Option<int>, offset: Option<int>, after: Option<UuidValue>,
               returnMetadata: Option<MetadataQuery>, returnProperties: Option<Properties>,
               token: string, response: SearchResponse, order: seq<Prop>)
      returns (request: SearchRequest, callMetadata: seq<(string, string)>, r: Result<seq<GrpcResult>, CallError>)
      requires Enumerates(order, AddProperties(defaultProps, returnProperties))
      modifies this`limit, this`offset, this`after, this`metadata, this`defaultProps
      ensures State() == GetStep(old(State()), limit, offset, after, returnMetadata, returnProperties)
      ensures request == Request(State())
      ensures |token| > 0 ==> callMetadata == [("authorization", token)]
      ensures |token| == 0 ==> callMetadata == []
      ensures r == SearchOutcome(response, ProjectionTree(order), returnMetadata)
    {
      SetGet(limit, offset, after, returnMetadata, returnProperties);
      assert State() == GetStep(old(State()), limit, offset, after, returnMetadata, returnProperties);
      request, callMetadata, r := Call(token, response, order);
    }

    /** The field updates of `get`. */
    method SetGet(limit: Option<int>, offset: Option<int>, after: Option<UuidValue>,
                  returnMetadata: Option<MetadataQuery>, returnProperties: Option<Properties>)
      modifies this`limit, this`offset, this`after, this`metadata, this`defaultProps
      ensures this.limit == limit && this.offset == offset && this.after == after && metadata == returnMetadata
      ensures defaultProps == AddProperties(old(defaultProps), returnProperties)
    {
      this.limit, this.offset, this.after, this.metadata := limit, offset, after, returnMetadata;
      defaultProps := AddProperties(defaultProps, returnProperties);
    }

    /** `hybrid`: sets the hybrid search fields, `limit`, `autocut` and the
        metadata request, adds the requested properties, then runs the search. */
    method Hybrid(query: string, alpha: Option<Float>, vector: Option<seq<Float>>, properties: Option<seq<string>>,
                  fusionType: Option<HybridFusion>, limit: Option<int>, autocut: Option<int>,
                  returnMetadata: Option<MetadataQuery>, returnProperties: Option<Properties>,
                  token: string, response: SearchResponse, order: seq<Prop>)
      returns (request: SearchRequest, callMetadata: seq<(string, string)>, r: Result<seq<GrpcResult>, CallError>)
      requires Enumerates(order, AddProperties(defaultProps, returnProperties))
      modifies this`hybridQuery, this`hybridAlpha, this`hybridVector, this`hybridProperties, this`hybridFusionType, this`limit, this`autocut, this`metadata, this`defaultProps
      ensures State() == HybridStep(old(State()), query, alpha, vector, properties, fusionType, limit, autocut,
                                    returnMetadata, returnProperties)
      ensures request == Request(State())
      ensures |token| > 0 ==> callMetadata == [("authorization", token)]
      ensures |token| == 0 ==> callMetadata == []
      ensures r == SearchOutcome(response, ProjectionTree(order), returnMetadata)
    {
      SetHybrid(query, alpha, vector, properties, fusionType, limit, autocut, returnMetadata, returnProperties);
      assert State() == HybridStep(old(State()), query, alpha, vector, properties, fusionType, limit, autocut,
                                   returnMetadata, returnProperties);
      request, callMetadata, r := Call(token, response, order);
    }

    /** The field updates of `hybrid`. */
    method SetHybrid(query: string, alpha: Option<Float>, vector: Option<seq<Float>>, properties: Option<seq<string>>,
                     fusionType: Option<HybridFusion>, limit: Option<int>, autocut: Option<int>,
                     returnMetadata: Option<MetadataQuery>, returnProperties: Option<Properties>)
      modifies this`hybridQuery, this`hybridAlpha, this`hybridVector, this`hybridProperties, this`hybridFusionType, this`limit, this`autocut, this`metadata, this`defaultProps
      ensures hybridQuery == Some(query) && hybridAlpha == alpha && hybridVector == vector && hybridProperties == properties
      ensures hybridFusionType == FusionTypeOf(fusionType)
      ensures this.limit == limit && this.autocut == autocut && metadata == returnMetadata
      ensures defaultProps == AddProperties(old(defaultProps), returnProperties)
    {
      hybridQuery, hybridAlpha, hybridVector, hybridProperties := Some(query), alpha, vector, properties;
      hybridFusionType := FusionTypeOf(fusionType);
      this.limit, this.autocut, metadata := limit, autocut, returnMetadata;
      defaultProps := AddProperties(defaultProps, returnProperties);
    }

    /** `bm25`: sets the keyword search fields, `limit`, `autocut` and the
        metadata request, adds the requested properties, then runs the search. */
    method Bm25(query: string, properties: Option<seq<string>>, limit: Option<int>, autocut: Option<int>,
                returnMetadata: Option<MetadataQuery>, returnProperties: Option<Properties>,
                token: string, response: SearchResponse, order: seq<Prop>)
      returns (request: SearchRequest, callMetadata: seq<(string, string)>, r: Result<seq<GrpcResult>, CallError>)
      requires Enumerates(order, AddProperties(defaultProps, returnProperties))
      modifies this`bm25Query, this`bm25Properties, this`limit, this`autocut, this`metadata, this`defaultProps
      ensures State() == Bm25Step(old(State()), query, properties, limit, autocut, returnMetadata, returnProperties)
      ensures request == Request(State())
      ensures |token| > 0 ==> callMetadata == [("authorization", token)]
      ensures |token| == 0 ==> callMetadata == []
      ensures r == SearchOutcome(response, ProjectionTree(order), returnMetadata)
    {
      SetBm25(query, properties, limit, autocut, returnMetadata, returnProperties);
      assert State() == Bm25Step(old(State()), query, properties, limit, autocut, returnMetadata, returnProperties);
      request, callMetadata, r := Call(token, response, order);
    }

    /** The field updates of `bm25`. */
    method SetBm25(query: string, properties: Option<seq<string>>, limit: Option<int>, autocut: Option<int>,
                   returnMetadata: Option<MetadataQuery>, returnProperties: Option<Properties>)
      modifies this`bm25Query, this`bm25Properties, this`limit, this`autocut, this`metadata, this`defaultProps
      ensures bm25Query == Some(query) && bm25Properties == properties
      ensures this.limit == limit && this.autocut == autocut && metadata == returnMetadata
      ensures defaultProps == AddProperties(old(defaultProps), returnProperties)
    {
      bm25Query, bm25Properties := Some(query), properties;
      this.limit, this.autocut, metadata := limit, autocut, returnMetadata;
      defaultProps := AddProperties(defaultProps, returnProperties);
    }

    /** `near_vector`: sets the vector and the shared certainty and distance,
        `autocut` and the metadata request, adds the requested properties,
        then runs the search. */
    method NearVector(vector: seq<Float>, certainty: Option<Float>, distance: Option<Float>, autocut: Option<int>,
                      returnMetadata: Option<MetadataQuery>, returnProperties: Option<Properties>,
                      token: string, response: SearchResponse, order: seq<Prop>)
      returns (request: SearchRequest, callMetadata: seq<(string, string)>, r: Result<seq<GrpcResult>, CallError>)
      requires Enumerates(order, AddProperties(defaultProps, returnProperties))
      modifies this`nearVectorVec, this`nearCertainty, this`nearDistance, this`autocut, this`metadata, this`defaultProps
      ensures State() == NearVectorStep(old(State()), vector, certainty, distance, autocut, returnMetadata, returnProperties)
      ensures request == Request(State())
      ensures |token| > 0 ==> callMetadata == [("authorization", token)]
      ensures |token| == 0 ==> callMetadata == []
      ensures r == SearchOutcome(response, ProjectionTree(order), returnMetadata)
    {
      SetNearVector(vector, certainty, distance, autocut, returnMetadata, returnProperties);
      assert State() == NearVectorStep(old(State()), vector, certainty, distance, autocut, returnMetadata, returnProperties);
      request, callMetadata, r := Call(token, response, order);
    }

    /** The field updates of `near_vector`. */
    method SetNearVector(vector: seq<Float>, certainty: Option<Float>, distance: Option<Float>, autocut: Option<int>,
                         returnMetadata: Option<MetadataQuery>, returnProperties: Option<Properties>)
      modifies this`nearVectorVec, this`nearCertainty, this`nearDistance, this`autocut, this`metadata, this`defaultProps
      ensures nearVectorVec == Some(vector) && nearCertainty == certainty && nearDistance == distance
      ensures this.autocut == autocut && metadata == returnMetadata
      ensures defaultProps == AddProperties(old(defaultProps), returnProperties)
    {
      nearVectorVec, nearCertainty, nearDistance := Some(vector), certainty, distance;
      this.autocut, metadata := autocut, returnMetadata;
      defaultProps := AddProperties(defaultProps, returnProperties);
    }

    /** `near_object`: sets the object id and the shared certainty and
        distance, `autocut` and the metadata request, adds the requested
        properties, then runs the search. */
    method NearObject(nearObject: UuidValue, certainty: Option<Float>, distance: Option<Float>, autocut: Option<int>,
                      returnMetadata: Option<MetadataQuery>, returnProperties: Option<Properties>,
                      token: string, response: SearchResponse, order: seq<Prop>)
      returns (request: SearchRequest, callMetadata: seq<(string, string)>, r: Result<seq<GrpcResult>, CallError>)
      requires Enumerates(order, AddProperties(defaultProps, returnProperties))
      modifies this`nearObjectObj, this`nearCertainty, this`nearDistance, this`autocut, this`metadata, this`defaultProps
      ensures State() == NearObjectStep(old(State()), nearObject, certainty, distance, autocut, returnMetadata, returnProperties)
      ensures request == Request(State())
      ensures |token| > 0 ==> callMetadata == [("authorization", token)]
      ensures |token| == 0 ==> callMetadata == []
      ensures r == SearchOutcome(response, ProjectionTree(order), returnMetadata)
    {
      SetNearObject(nearObject, certainty, distance, autocut, returnMetadata, returnProperties);
      assert State() == NearObjectStep(old(State()), nearObject, certainty, distance, autocut, returnMetadata, returnProperties);
      request, callMetadata, r := Call(token, response, order);
    }

    /** The field updates of `near_object`. */
    method SetNearObject(nearObject: UuidValue, certainty: Option<Float>, distance: Option<Float>, autocut: Option<int>,
                         returnMetadata: Option<MetadataQuery>, returnProperties: Option<Properties>)
      modifies this`nearObjectObj, this`nearCertainty, this`nearDistance, this`autocut, this`metadata, this`defaultProps
      ensures nearObjectObj == Some(nearObject) && nearCertainty == certainty && nearDistance == distance
      ensures this.autocut == autocut && metadata == returnMetadata
      ensures defaultProps == AddProperties(old(defaultProps), returnProperties)
    {
      nearObjectObj, nearCertainty, nearDistance := Some(nearObject), certainty, distance;
      this.autocut, metadata := autocut, returnMetadata;
      defaultProps := AddProperties(defaultProps, returnProperties);
    }
  }
}
