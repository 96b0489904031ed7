/** The answer side of the collection query client: how one result row of a
    search is read back into a dictionary, following the projection tree
    into the linked objects, and how its additional values are picked out
    according to the metadata that was asked for. */
module GrpcResults {
  import opened Wrappers
  import opened Values
  import opened Text
  import opened GrpcQuery

  /** The `ResultAdditionalProps` message: each optional value comes with a
      flag saying whether the server set it. */
  datatype ResultAdditionalProps = ResultAdditionalProps(
    id: string,
    vector: seq<Float>,
    creationTimeUnix: int,
    creationTimeUnixPresent: bool,
    lastUpdateTimeUnix: int,
    lastUpdateTimeUnixPresent: bool,
    distance: Float,
    distancePresent: bool,
    certainty: Float,
    certaintyPresent: bool,
    score: Float,
    scorePresent: bool,
    explainScore: Float,
    explainScorePresent: bool)

  /** The keyword arguments `_extract_metadata` can pass to `MetadataReturn`. */
  datatype MetaKey =
    | Id | Vector | Distance | Certainty | CreationTimeUnix | LastUpdateTimeUnix | Score | ExplainScore
  {
    /** The order in which `_extract_metadata` looks at the flags. */
    function Position(): nat {
      match this
      case Id => 0
      case Vector => 1
      case Distance => 2
      case Certainty => 3
      case CreationTimeUnix => 4
      case LastUpdateTimeUnix => 5
      case Score => 6
      case ExplainScore => 7
    }

    /** The keyword as spelled in the call. */
    function Keyword(): string {
      match this
      case Id => "id"
      case Vector => "vector"
      case Distance => "distance"
      case Certainty => "certainty"
      case CreationTimeUnix => "creationTimeUnix"
      case LastUpdateTimeUnix => "lastUpdateTimeUnix"
      case Score => "score"
      case ExplainScore => "explainScore"
    }
  }

  /** The keyword looked at in position `n`. */
  function KeyAt(n: nat): (k: MetaKey)
    requires n < 8
    ensures k.Position() == n
  {
    [Id, Vector, Distance, Certainty, CreationTimeUnix, LastUpdateTimeUnix, Score, ExplainScore][n]
  }

  /** Every keyword, as a set. */
  const AllMetaKeys: set<MetaKey> :=
    {Id, Vector, Distance, Certainty, CreationTimeUnix, LastUpdateTimeUnix, Score, ExplainScore}

  /** The request flag that governs each keyword. */
  predicate Requested(m: MetadataQuery, key: MetaKey) {
    match key
    case Id => m.uuid
    case Vector => m.vector
    case Distance => m.distance
    case Certainty => m.certainty
    case CreationTimeUnix => m.creationTimeUnix
    case LastUpdateTimeUnix => m.lastUpdateTimeUnix
    case Score => m.score
    case ExplainScore => m.explainScore
  }

  /** `[float(num) for num in props.vector]` */
  function Numbers(v: seq<Float>): (r: seq<Value>)
    ensures |r| == |v| && forall i :: 0 <= i < |v| ==> r[i] == Number(v[i])
  {
    seq(|v|, i requires 0 <= i < |v| => Number(v[i]))
  }

  /** A wire value when its presence flag is set, None otherwise. */
  function WhenPresent(present: bool, v: Value): Value {
    if present then v else Null
  }

  /** The value `_extract_metadata` writes under a keyword: the id and the
      copied vector (None when empty) as they are, the other values only
      when the server marked them present, the timestamps as decimal strings. */
  function WireValue(props: ResultAdditionalProps, key: MetaKey): Value {
    match key
    case Id => Str(props.id)
    case Vector => if |props.vector| > 0 then Array(Numbers(props.vector)) else Null
    case Distance => WhenPresent(props.distancePresent, Number(props.distance))
    case Certainty => WhenPresent(props.certaintyPresent, Number(props.certainty))
    case CreationTimeUnix => WhenPresent(props.creationTimeUnixPresent, Str(IntToDecimal(props.creationTimeUnix)))
    case LastUpdateTimeUnix => WhenPresent(props.lastUpdateTimeUnixPresent, Str(IntToDecimal(props.lastUpdateTimeUnix)))
    case Score => WhenPresent(props.scorePresent, Number(props.score))
    case ExplainScore => WhenPresent(props.explainScorePresent, Number(props.explainScore))
  }

  /** The keyword arguments `_extract_metadata(props, meta)` passes to
      `MetadataReturn`. With no metadata request nothing is passed; otherwise
      each keyword is passed exactly when its flag is set, and carries the
      wire value only when the server marked it present. */
  function MetadataOf(props: ResultAdditionalProps, meta: Option<MetadataQuery>): (r: map<MetaKey, Value>)
    ensures meta.None? ==> r == map[]
    ensures meta.Some? ==> forall k :: k in r <==> Requested(meta.value, k)
    ensures Id in r ==> r[Id] == Str(props.id)
    ensures Vector in r ==> r[Vector] == if props.vector == [] then Null else Array(Numbers(props.vector))
    ensures Distance in r ==> r[Distance] == WhenPresent(props.distancePresent, Number(props.distance))
    ensures Certainty in r ==> r[Certainty] == WhenPresent(props.certaintyPresent, Number(props.certainty))
    ensures CreationTimeUnix in r ==>
      r[CreationTimeUnix] == WhenPresent(props.creationTimeUnixPresent, Str(IntToDecimal(props.creationTimeUnix)))
    ensures LastUpdateTimeUnix in r ==>
      r[LastUpdateTimeUnix] == WhenPresent(props.lastUpdateTimeUnixPresent, Str(IntToDecimal(props.lastUpdateTimeUnix)))
    ensures Score in r ==> r[Score] == WhenPresent(props.scorePresent, Number(props.score))
    ensures ExplainScore in r ==> r[ExplainScore] == WhenPresent(props.explainScorePresent, Number(props.explainScore))
  {
    match meta
    case None => map[]
    case Some(m) =>
      var r := Requests(props, m, 8);
      assert forall k :: k in r <==> Requested(m, k) by {
        forall k ensures k in r <==> Requested(m, k) { RequestsSpec(props, m, 8, k); }
      }
      assert forall k :: k in r ==> r[k] == WireValue(props, k) by {
        forall k ensures k in r ==> r[k] == WireValue(props, k) { RequestsSpec(props, m, 8, k); }
      }
      r
  }

  /** `_extract_metadata` as the client runs it: one conditional write per flag. */
  method ExtractMetadata(props: ResultAdditionalProps, meta: Option<MetadataQuery>) returns (r: map<MetaKey, Value>)
    ensures r == MetadataOf(props, meta)
  {
    if meta.None? {
      return map[];
    }
    var m := meta.value;
    r := map[];
    assert r == Requests(props, m, 0);
    if m.uuid {
      r := r[Id := Str(props.id)];
    }
    assert r == Requests(props, m, 1);
    if m.vector {
      r := r[Vector := if |props.vector| > 0 then Array(Numbers(props.vector)) else Null];
    }
    assert r == Requests(props, m, 2);
    if m.distance {
      r := r[Distance := if props.distancePresent then Number(props.distance) else Null];
    }
    assert r == Requests(props, m, 3);
    if m.certainty {
      r := r[Certainty := if props.certaintyPresent then Number(props.certainty) else Null];
    }
    assert r == Requests(props, m, 4);
    if m.creationTimeUnix {
      r := r[CreationTimeUnix := if props.creationTimeUnixPresent then Str(IntToDecimal(props.creationTimeUnix)) else Null];
    }
    assert r == Requests(props, m, 5);
    if m.lastUpdateTimeUnix {
      r := r[LastUpdateTimeUnix := if props.lastUpdateTimeUnixPresent then Str(IntToDecimal(props.lastUpdateTimeUnix)) else Null];
    }
    assert r == Requests(props, m, 6);
    if m.score {
      r := r[Score := if props.scorePresent then Number(props.score) else Null];
    }
    assert r == Requests(props, m, 7);
    if m.explainScore {
      r := r[ExplainScore := if props.explainScorePresent then Number(props.explainScore) else Null];
    }
    assert r == Requests(props, m, 8);
  }

  /** The keywords written once the first `n` flags have been looked at. */
  function Requests(props: ResultAdditionalProps, m: MetadataQuery, n: nat): map<MetaKey, Value>
    requires n <= 8
  {
    if n == 0 then map[]
    else
      var k := KeyAt(n - 1);
      var before := Requests(props, m, n - 1);
      if Requested(m, k) then before[k := WireValue(props, k)] else before
  }

  /** After `n` flags, exactly the keywords among the first `n` whose flag is
      set have been written, each with its wire value. */
  lemma {:induction false} RequestsSpec(props: ResultAdditionalProps, m: MetadataQuery, n: nat, k: MetaKey)
    requires n <= 8
    ensures k in Requests(props, m, n) <==> k.Position() < n && Requested(m, k)
    ensures k in Requests(props, m, n) ==> Requests(props, m, n)[k] == WireValue(props, k)
  {
    if n > 0 {
      RequestsSpec(props, m, n - 1, k);
      if k.Position() == n - 1 {
        assert k == KeyAt(n - 1);
      }
    }
  }

  /** Two wire messages that agree on every value the server marked present
      (and on the id and vector, which have no flag). */
  predicate AgreeWhenPresent(p: ResultAdditionalProps, q: ResultAdditionalProps) {
    p.id == q.id && p.vector == q.vector &&
    p.creationTimeUnixPresent == q.creationTimeUnixPresent &&
    (p.creationTimeUnixPresent ==> p.creationTimeUnix == q.creationTimeUnix) &&
    p.lastUpdateTimeUnixPresent == q.lastUpdateTimeUnixPresent &&
    (p.lastUpdateTimeUnixPresent ==> p.lastUpdateTimeUnix == q.lastUpdateTimeUnix) &&
    p.distancePresent == q.distancePresent && (p.distancePresent ==> p.distance == q.distance) &&
    p.certaintyPresent == q.certaintyPresent && (p.certaintyPresent ==> p.certainty == q.certainty) &&
    p.scorePresent == q.scorePresent && (p.scorePresent ==> p.score == q.score) &&
    p.explainScorePresent == q.explainScorePresent && (p.explainScorePresent ==> p.explainScore == q.explainScore)
  }

  /** A value the server did not mark present never shows through: whatever
      default (zero, empty) the message holds in its place, the extracted
      metadata is the same. */
  lemma ExtractIgnoresAbsentValues(p: ResultAdditionalProps, q: ResultAdditionalProps, meta: Option<MetadataQuery>)
    requires AgreeWhenPresent(p, q)
    ensures MetadataOf(p, meta) == MetadataOf(q, meta)
  {
  }

  /** A search asking only for the id gets the id and nothing else, so the
      last update time of such a row stays unset. */
  lemma UuidOnlyRequest(p: ResultAdditionalProps)
    ensures MetadataOf(p, Some(MetadataQuery(true, false, false, false, false, false, false, false))) == map[Id := Str(p.id)]
  {
  }

  /** `ResultProperties`: the plain values of one object, the objects linked
      through each returned reference property, and its additional values. */
  datatype ResultProperties = ResultProperties(
    nonRefProperties: map<string, Value>,
    refProps: seq<RefPropertiesResult>,
    metadata: ResultAdditionalProps)

  /** `RefPropertiesResult`: the objects linked through one reference property. */
  datatype RefPropertiesResult = RefPropertiesResult(propName: string, properties: seq<ResultProperties>)

  /** A value of the rebuilt dictionary: a plain wire value, or the list of
      rebuilt linked objects. */
  datatype ResultValue = Struct(value: Value) | Linked(objects: seq<GrpcResult>)

  /** `GrpcResult(metadata, result)` */
  datatype GrpcResult = GrpcResult(metadata: map<MetaKey, Value>, result: map<string, ResultValue>)

  /** `props[name]` on a name the projection tree lacks raises `KeyError(name)`. */
  type KeyError = string

  /** `_convert_references_to_grpc_result(properties, props)`: the plain
      values first, then each reference property in order. */
  function Rebuild(rp: ResultProperties, proj: map<string, RefProps>): Result<map<string, ResultValue>, KeyError>
    decreases rp, 2
  {
    RebuildRefs(rp.refProps, proj, PlainValues(rp.nonRefProperties))
  }

  /** The dictionary after the first loop: every plain value copied as is. */
  function PlainValues(m: map<string, Value>): (r: map<string, ResultValue>)
    ensures r.Keys == m.Keys && forall k :: k in m ==> r[k] == Struct(m[k])
  {
    map k | k in m :: Struct(m[k])
  }

  /** The second loop from some point on, with the dictionary built so far. */
  function RebuildRefs(refs: seq<RefPropertiesResult>, proj: map<string, RefProps>, acc: map<string, ResultValue>)
    : Result<map<string, ResultValue>, KeyError>
    decreases refs, 1
  {
    if refs == [] then Success(acc)
    else
      match RebuildList(refs[0].properties, refs[0].propName, proj)
      case Failure(e) => Failure(e)
      case Success(objs) => RebuildRefs(refs[1..], proj, acc[refs[0].propName := Linked(objs)])
  }

  /** The list comprehension over the objects linked through `name`: each
      object is rebuilt with the subtree under `name` and its metadata read
      with the metadata requested for `name`. The lookup `props[name]` only
      happens when there is an object to rebuild. */
  function RebuildList(objs: seq<ResultProperties>, name: string, proj: map<string, RefProps>)
    : Result<seq<GrpcResult>, KeyError>
    decreases objs, 0
  {
    if objs == [] then Success([])
    else if name !in proj then Failure(name)
    else
      match Rebuild(objs[0], proj[name].refs)
      case Failure(e) => Failure(e)
      case Success(first) =>
        match RebuildList(objs[1..], name, proj)
        case Failure(e) => Failure(e)
        case Success(rest) => Success([GrpcResult(MetadataOf(objs[0].metadata, Some(proj[name].meta)), first)] + rest)
  }

  /** `objs` in front of a list result; a failure stays a failure. */
  function Prepend<E>(objs: seq<GrpcResult>, r: Result<seq<GrpcResult>, E>): (p: Result<seq<GrpcResult>, E>)
    ensures objs == [] ==> p == r
  {
    match r
    case Success(rest) =>
      assert objs == [] ==> objs + rest == rest;
      Success(objs + rest)
    case Failure(e) => Failure(e)
  }

  lemma PrependTwice<E>(a: seq<GrpcResult>, b: seq<GrpcResult>, r: Result<seq<GrpcResult>, E>)
    ensures Prepend(a, Prepend(b, r)) == Prepend(a + b, r)
  {
    if r.Success? {
      assert a + (b + r.value) == (a + b) + r.value;
    }
  }

  /** `_convert_references_to_grpc_result` as the client runs it: a loop
      copying the plain values, then a loop over the reference properties. */
  method ConvertReferencesToGrpcResult(rp: ResultProperties, proj: map<string, RefProps>)
    returns (r: Result<map<string, ResultValue>, KeyError>)
    ensures r == Rebuild(rp, proj)
    decreases rp, 1
  {
    var result: map<string, ResultValue> := map[];
    var pending := rp.nonRefProperties.Keys;
    while pending != {}
      invariant pending <= rp.nonRefProperties.Keys
      invariant result == map k | k in rp.nonRefProperties && k !in pending :: Struct(rp.nonRefProperties[k])
      decreases pending
    {
      var name :| name in pending;
      result := result[name := Struct(rp.nonRefProperties[name])];
      pending := pending - {name};
    }
    assert result == PlainValues(rp.nonRefProperties);
    var i := 0;
    assert rp.refProps[0..] == rp.refProps;
    while i < |rp.refProps|
      invariant 0 <= i <= |rp.refProps|
      invariant RebuildRefs(rp.refProps[i..], proj, result) == Rebuild(rp, proj)
    {
      var refProp := rp.refProps[i];
      assert rp.refProps[i..][1..] == rp.refProps[i + 1..];
      var objects := RebuildLinked(refProp.properties, refProp.propName, proj);
      if objects.Failure? {
        return Failure(objects.error);
      }
      result := result[refProp.propName := Linked(objects.value)];
      i := i + 1;
    }
    return Success(result);
  }

  /** The list comprehension of `_convert_references_to_grpc_result` over
      the objects linked through `name`. */
  method RebuildLinked(objs: seq<ResultProperties>, name: string, proj: map<string, RefProps>)
    returns (r: Result<seq<GrpcResult>, KeyError>)
    ensures r == RebuildList(objs, name, proj)
    decreases objs, 0
  {
    var objects: seq<GrpcResult> := [];
    var j := 0;
    assert objs[0..] == objs;
    while j < |objs|
      invariant 0 <= j <= |objs|
      invariant Prepend(objects, RebuildList(objs[j..], name, proj)) == RebuildList(objs, name, proj)
    {
      ghost var remaining := objs[j..];
      assert remaining != [] && remaining[0] == objs[j] && remaining[1..] == objs[j + 1..];
      if name !in proj {
        assert RebuildList(remaining, name, proj) == Failure(name);
        return Failure(name);
      }
      var node := proj[name];
      var prop := objs[j];
      var sub := ConvertReferencesToGrpcResult(prop, node.refs);
      if sub.Failure? {
        assert RebuildList(remaining, name, proj) == Failure(sub.error);
        return Failure(sub.error);
      }
      var metadata := ExtractMetadata(prop.metadata, Some(node.meta));
      var entry := GrpcResult(metadata, sub.value);
      assert RebuildList(remaining, name, proj) == Prepend([entry], RebuildList(objs[j + 1..], name, proj));
      PrependTwice(objects, [entry], RebuildList(objs[j + 1..], name, proj));
      objects := objects + [entry];
      j := j + 1;
    }
    assert objs[j..] == [] && objects + [] == objects;
    return Success(objects);
  }

  /** Whether every reference property returned with at least one linked
      object is a key of the projection tree, at every depth. */
  predicate WellProjected(rp: ResultProperties, proj: map<string, RefProps>)
    decreases rp, 1
  {
    forall i :: 0 <= i < |rp.refProps| ==>
      LinkedWellProjected(rp.refProps[i].properties, rp.refProps[i].propName, proj)
  }

  predicate LinkedWellProjected(objs: seq<ResultProperties>, name: string, proj: map<string, RefProps>)
    decreases objs, 0
  {
    objs == [] || (name in proj && forall j :: 0 <= j < |objs| ==> WellProjected(objs[j], proj[name].refs))
  }

  /** Rebuilding a row raises `KeyError` exactly when some reference property
      comes back, at some depth, with linked objects but without an entry in
      the projection tree; a property that comes back empty is never looked up. */
  lemma {:induction false} RebuildSucceedsIff(rp: ResultProperties, proj: map<string, RefProps>)
    ensures Rebuild(rp, proj).Success? <==> WellProjected(rp, proj)
    decreases rp, 2
  {
    RefsSucceedIff(rp.refProps, proj, PlainValues(rp.nonRefProperties));
  }

  lemma {:induction false} RefsSucceedIff(refs: seq<RefPropertiesResult>, proj: map<string, RefProps>, acc: map<string, ResultValue>)
    ensures RebuildRefs(refs, proj, acc).Success? <==>
      forall i :: 0 <= i < |refs| ==> LinkedWellProjected(refs[i].properties, refs[i].propName, proj)
    decreases refs, 1
  {
    if refs != [] {
      ListSucceedsIff(refs[0].properties, refs[0].propName, proj);
      var l := RebuildList(refs[0].properties, refs[0].propName, proj);
      if l.Success? {
        RefsSucceedIff(refs[1..], proj, acc[refs[0].propName := Linked(l.value)]);
        assert forall i :: 0 < i < |refs| ==> refs[i] == refs[1..][i - 1];
      }
    }
  }

  lemma {:induction false} ListSucceedsIff(objs: seq<ResultProperties>, name: string, proj: map<string, RefProps>)
    ensures RebuildList(objs, name, proj).Success? <==> LinkedWellProjected(objs, name, proj)
    decreases objs, 0
  {
    if objs != [] && name in proj {
      RebuildSucceedsIff(objs[0], proj[name].refs);
      if Rebuild(objs[0], proj[name].refs).Success? {
        ListSucceedsIff(objs[1..], name, proj);
        assert forall j :: 0 < j < |objs| ==> objs[j] == objs[1..][j - 1];
      }
    }
  }

  /** A successful comprehension has one rebuilt result per linked object,
      in the same order: the object rebuilt with the subtree under `name`,
      with its metadata read as requested for `name`. */
  lemma {:induction false} RebuildListShape(objs: seq<ResultProperties>, name: string, proj: map<string, RefProps>)
    requires RebuildList(objs, name, proj).Success?
    ensures |RebuildList(objs, name, proj).value| == |objs|
    ensures forall j :: 0 <= j < |objs| ==>
      name in proj && Rebuild(objs[j], proj[name].refs).Success? &&
      RebuildList(objs, name, proj).value[j] ==
        GrpcResult(MetadataOf(objs[j].metadata, Some(proj[name].meta)), Rebuild(objs[j], proj[name].refs).value)
  {
    if objs != [] {
      RebuildListShape(objs[1..], name, proj);
      assert forall j :: 0 < j < |objs| ==> objs[j] == objs[1..][j - 1];
    }
  }

  /** Whether `refs[i]` is the last returned reference property named `name`. */
  predicate LastRef(refs: seq<RefPropertiesResult>, name: string, i: int) {
    0 <= i < |refs| && refs[i].propName == name &&
    forall j :: i < j < |refs| ==> refs[j].propName != name
  }

  lemma {:induction false} RebuildRefsShape(refs: seq<RefPropertiesResult>, proj: map<string, RefProps>, acc: map<string, ResultValue>, k: string)
    requires RebuildRefs(refs, proj, acc).Success?
    ensures k in RebuildRefs(refs, proj, acc).value <==>
      k in acc || exists i :: 0 <= i < |refs| && refs[i].propName == k
    ensures k in acc && (forall i :: 0 <= i < |refs| ==> refs[i].propName != k) ==>
      RebuildRefs(refs, proj, acc).value[k] == acc[k]
    ensures forall i :: LastRef(refs, k, i) ==>
      RebuildList(refs[i].properties, k, proj).Success? &&
      RebuildRefs(refs, proj, acc).value[k] == Linked(RebuildList(refs[i].properties, k, proj).value)
    decreases refs
  {
    if refs != [] {
      var l := RebuildList(refs[0].properties, refs[0].propName, proj);
      var acc' := acc[refs[0].propName := Linked(l.value)];
      RebuildRefsShape(refs[1..], proj, acc', k);
      assert forall i :: 0 < i < |refs| ==> refs[i] == refs[1..][i - 1];
      forall i | LastRef(refs, k, i) && i > 0 ensures LastRef(refs[1..], k, i - 1) { }
    }
  }

  /** A successfully rebuilt row holds every plain value and every returned
      reference property, and nothing else. A plain value is copied as is
      unless a reference property of the same name overwrites it; a
      reference property maps to the list rebuilt from its last occurrence
      (described element by element by `RebuildListShape`). */
  lemma RebuildShape(rp: ResultProperties, proj: map<string, RefProps>, k: string)
    requires Rebuild(rp, proj).Success?
    ensures k in Rebuild(rp, proj).value <==>
      k in rp.nonRefProperties || exists i :: 0 <= i < |rp.refProps| && rp.refProps[i].propName == k
    ensures k in rp.nonRefProperties && (forall i :: 0 <= i < |rp.refProps| ==> rp.refProps[i].propName != k) ==>
      Rebuild(rp, proj).value[k] == Struct(rp.nonRefProperties[k])
    ensures forall i :: LastRef(rp.refProps, k, i) ==>
      RebuildList(rp.refProps[i].properties, k, proj).Success? &&
      Rebuild(rp, proj).value[k] == Linked(RebuildList(rp.refProps[i].properties, k, proj).value)
  {
    RebuildRefsShape(rp.refProps, proj, PlainValues(rp.nonRefProperties), k);
  }
}
