/** The reference codec: reference ids become beacon URIs on the way out, and
    the last path segment of each beacon is read back as the id. */
module Beacons {
  import opened Wrappers
  import opened Uuids
  import opened Values
  import opened Text

  /** The URI that `_to_beacons` writes for one id, given the target class when
      the caller names one. `_to_beacons` itself is not part of this model. */
  type BeaconUri = (string, Option<string>) -> string

  /** The beacon format `weaviate://<authority>/.../<uuid>`: the id is the last segment. */
  ghost predicate EndsWithId(uri: BeaconUri) {
    forall id, target :: '/' !in id ==> LastSegment(uri(id, target)) == id
  }

  function BeaconObject(uri: string): Value {
    Object(map["beacon" := Str(uri)])
  }

  /** `_to_beacons(ids, target)`: one `{"beacon": uri}` object per id, in order. */
  function ToBeacons(uri: BeaconUri, ids: seq<UuidValue>, target: Option<string>): (r: Value)
    ensures r.Array? && |r.items| == |ids|
  {
    Array(seq(|ids|, i requires 0 <= i < |ids| => BeaconObject(uri(UuidString(ids[i]), target))))
  }

  /** The id that `uri.split("/")[-1]` reads out of one element of a beacon
      list; None where Python raises (not a dict, no "beacon" key, or a
      non-string URI, which fails the `isinstance` assertion). */
  function BeaconId(item: Value): Option<string> {
    if item.Object? && "beacon" in item.fields && item.fields["beacon"].Str? then
      Some(LastSegment(item.fields["beacon"].s))
    else None
  }

  /** The loop of `_json_to_object` over one reference property's value. A
      list is read element by element; an empty string or dict iterates zero
      times; anything else raises (None). */
  function BeaconIds(v: Value): (r: Option<seq<string>>)
    ensures r.Some? && v.Array? ==> |r.value| == |v.items|
    ensures r.Some? && v.Array? ==> forall i :: 0 <= i < |v.items| ==> BeaconId(v.items[i]) == Some(r.value[i])
    ensures v.Array? && (forall i :: 0 <= i < |v.items| ==> BeaconId(v.items[i]).Some?) ==> r.Some?
  {
    match v
    case Array(items) => BeaconIdsOf(items)
    case Str(s) => if s == [] then Some([]) else None
    case Object(m) => if m == map[] then Some([]) else None
    case _ => None
  }

  function BeaconIdsOf(items: seq<Value>): (r: Option<seq<string>>)
    ensures r.Some? ==> |r.value| == |items|
    ensures r.Some? ==> forall i :: 0 <= i < |items| ==> BeaconId(items[i]) == Some(r.value[i])
    ensures (forall i :: 0 <= i < |items| ==> BeaconId(items[i]).Some?) ==> r.Some?
  {
    if items == [] then Some([])
    else match (BeaconId(items[0]), BeaconIdsOf(items[1..]))
      case (Some(id), Some(rest)) => Some([id] + rest)
      case _ => None
  }

  /** `str(id)` of each id, in order. */
  function IdStrings(ids: seq<UuidValue>): (r: seq<string>)
    ensures |r| == |ids| && forall i :: 0 <= i < |ids| ==> r[i] == UuidString(ids[i])
  {
    seq(|ids|, i requires 0 <= i < |ids| => UuidString(ids[i]))
  }

  /** Reference round trip: reading back the beacons written for `ids` yields
      the string form of each id, in order, whatever the authority spelling. */
  lemma BeaconRoundTrip(uri: BeaconUri, ids: seq<UuidValue>, target: Option<string>)
    requires EndsWithId(uri)
    requires forall i :: 0 <= i < |ids| ==> '/' !in UuidString(ids[i])
    ensures BeaconIds(ToBeacons(uri, ids, target)) == Some(IdStrings(ids))
  {
    var items := ToBeacons(uri, ids, target).items;
    var want := IdStrings(ids);
    forall i | 0 <= i < |ids| ensures BeaconId(items[i]) == Some(want[i]) {
      assert items[i] == BeaconObject(uri(UuidString(ids[i]), target));
      OneBeacon(uri, UuidString(ids[i]), target);
      assert want[i] == UuidString(ids[i]);
    }
    BeaconIdsOfAll(items, want);
  }

  /** One beacon object reads back as its id. */
  lemma OneBeacon(uri: BeaconUri, id: string, target: Option<string>)
    requires EndsWithId(uri)
    requires '/' !in id
    ensures BeaconId(BeaconObject(uri(id, target))) == Some(id)
  {
  }

  /** Reading a list whose every element names an id yields exactly those ids. */
  lemma {:induction false} BeaconIdsOfAll(items: seq<Value>, ids: seq<string>)
    requires |items| == |ids|
    requires forall i :: 0 <= i < |items| ==> BeaconId(items[i]) == Some(ids[i])
    ensures BeaconIdsOf(items) == Some(ids)
  {
    if items != [] {
      BeaconIdsOfAll(items[1..], ids[1..]);
      assert [ids[0]] + ids[1..] == ids;
    }
  }

  /** One `uuid.UUID` object survives the round trip exactly once it is parsed back. */
  lemma UuidBeaconRoundTrip(uri: BeaconUri, u: Uuid, target: Option<string>)
    requires EndsWithId(uri)
    ensures BeaconIds(ToBeacons(uri, [UuidObj(u)], target)).Some?
    ensures Parse(BeaconIds(ToBeacons(uri, [UuidObj(u)], target)).value[0]) == Some(u)
  {
    assert '/' !in Format(u) by { FormatHasNoTagsSlash(u); }
    BeaconRoundTrip(uri, [UuidObj(u)], target);
    ParseFormat(u);
  }

  lemma FormatHasNoTagsSlash(u: Uuid)
    ensures '/' !in Format(u)
  {
    var f := Format(u);
    forall i | 0 <= i < 36 ensures f[i] != '/' {
      if i < 8 { assert f[i] == Hex(u[..8])[i]; }
      else if i == 8 || i == 13 || i == 18 || i == 23 { }
      else if i < 13 { assert f[i] == Hex(u[8..12])[i - 9]; }
      else if i < 18 { assert f[i] == Hex(u[12..16])[i - 14]; }
      else if i < 23 { assert f[i] == Hex(u[16..20])[i - 19]; }
      else { assert f[i] == Hex(u[20..])[i - 24]; }
    }
  }

  /** `BatchReference(from_uuid, to_uuid)` of both collection APIs. */
  datatype BatchReference = BatchReference(fromUuid: UuidValue, toUuid: UuidValue)

  /** One `{"from": ..., "to": ...}` entry of a batch reference request. */
  datatype ReferencePair = ReferencePair(from: string, to: string)

  /** `reference_batch_add`: for each reference, in order,
      `from = BEACON + "<class>/<from_uuid>/<property>"` and `to = BEACON + str(to_uuid)`. */
  function BatchReferences(beacon: string, className: string, fromProperty: string, refs: seq<BatchReference>): (r: seq<ReferencePair>)
    ensures |r| == |refs|
  {
    seq(|refs|, i requires 0 <= i < |refs| =>
      ReferencePair(beacon + className + "/" + UuidString(refs[i].fromUuid) + "/" + fromProperty,
                    beacon + UuidString(refs[i].toUuid)))
  }

  /** The batch entries decode: with a BEACON prefix ending in '/', the last
      segment of "to" is the target id and that of "from" is the property. */
  lemma {:induction false} BatchReferencesDecode(beacon: string, className: string, fromProperty: string, refs: seq<BatchReference>, i: nat)
    requires |beacon| > 0 && beacon[|beacon| - 1] == '/'
    requires i < |refs| && '/' !in UuidString(refs[i].toUuid) && '/' !in fromProperty
    ensures LastSegment(BatchReferences(beacon, className, fromProperty, refs)[i].to) == UuidString(refs[i].toUuid)
    ensures LastSegment(BatchReferences(beacon, className, fromProperty, refs)[i].from) == fromProperty
  {
    var r := BatchReferences(beacon, className, fromProperty, refs);
    var b := beacon[..|beacon| - 1];
    assert beacon == b + "/";
    assert r[i].to == b + "/" + UuidString(refs[i].toUuid);
    LastSegmentAfterSlash(b, UuidString(refs[i].toUuid));
    var head := beacon + className + "/" + UuidString(refs[i].fromUuid);
    assert r[i].from == head + "/" + fromProperty;
    LastSegmentAfterSlash(head, fromProperty);
  }

  /** The "from" URI of a batch entry reads back as `<BEACON><class>/<from_uuid>/<property>`:
      its last segment is the property, the one before is the source id, and
      what precedes them is the BEACON prefix followed by the class name. */
  lemma BatchReferenceFromDecode(beacon: string, className: string, fromProperty: string, refs: seq<BatchReference>, i: nat)
    requires i < |refs| && '/' !in UuidString(refs[i].fromUuid) && '/' !in fromProperty
    ensures var from := BatchReferences(beacon, className, fromProperty, refs)[i].from;
      LastSegment(from) == fromProperty &&
      LastSegment(DropLastSegment(from)) == UuidString(refs[i].fromUuid) &&
      DropLastSegment(DropLastSegment(from)) == beacon + className
  {
    var id := UuidString(refs[i].fromUuid);
    var head := beacon + className + "/" + id;
    assert BatchReferences(beacon, className, fromProperty, refs)[i].from == head + "/" + fromProperty;
    LastSegmentAfterSlash(head, fromProperty);
    DropLastSegmentAfterSlash(head, fromProperty);
    LastSegmentAfterSlash(beacon + className, id);
    DropLastSegmentAfterSlash(beacon + className, id);
  }
}
