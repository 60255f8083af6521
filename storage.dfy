/** `store_to_s3` and `store_flat_file` of the consumer: every record of a
    non-empty group is merged with the shared metadata envelope, the group is
    written as one JSON Lines object under a key naming the resource type,
    the account, the region and the run's timestamp, and a failed write
    propagates. S3 is an oracle saying whether a put succeeds. */
module Storage {
  import opened PyValues
  import opened Collectors
  import opened Lines

  /** The `network_data` dict that `collect_network_data` builds */
  datatype NetworkData = NetworkData(
    accountId: Value,
    accountName: Value,
    businessUnit: Value,
    region: Value,
    collectionTimestamp: Value,
    vpcs: seq<Dict>,
    subnets: seq<Dict>,
    securityGroups: seq<Dict>)

  /** `network_data['network'][<resource type>]` */
  function Group(data: NetworkData, kind: Kind): seq<Dict>
  {
    match kind
    case Vpcs => data.vpcs
    case Subnets => data.subnets
    case SecurityGroups => data.securityGroups
  }

  /** The `resource_type` of a group, the first segment of its key */
  function KindName(kind: Kind): string
  {
    match kind
    case Vpcs => "vpcs"
    case Subnets => "subnets"
    case SecurityGroups => "security_groups"
  }

  /** The position of a group in the order `store_to_s3` writes them */
  function Rank(kind: Kind): nat
  {
    match kind
    case Vpcs => 0
    case Subnets => 1
    case SecurityGroups => 2
  }

  const EnvelopeKeys: set<string> := {"account_id", "account_name", "business_unit", "region", "collection_timestamp"}

  /** `base_metadata` */
  function Envelope(data: NetworkData): (r: Dict)
    ensures r.Keys == EnvelopeKeys
  {
    map[
      "account_id" := data.accountId,
      "account_name" := data.accountName,
      "business_unit" := data.businessUnit,
      "region" := data.region,
      "collection_timestamp" := data.collectionTimestamp]
  }

  /** Each envelope key holds the matching field of `network_data` */
  lemma EnvelopeFields(data: NetworkData)
    ensures var r := Envelope(data);
      && r["account_id"] == data.accountId && r["account_name"] == data.accountName
      && r["business_unit"] == data.businessUnit && r["region"] == data.region
      && r["collection_timestamp"] == data.collectionTimestamp
  {
  }

  /** `[{**envelope, **r} for r in resources]`: one record per resource, in
      order; a resource field overrides an envelope field of the same name. */
  function Enrich(envelope: Dict, resources: seq<Dict>): (r: seq<Dict>)
    ensures |r| == |resources|
    ensures forall i :: 0 <= i < |r| ==> r[i].Keys == envelope.Keys + resources[i].Keys
    ensures forall i, k :: 0 <= i < |r| && k in resources[i] ==> r[i][k] == resources[i][k]
    ensures forall i, k :: 0 <= i < |r| && k in envelope && k !in resources[i] ==> r[i][k] == envelope[k]
  {
    seq(|resources|, i requires 0 <= i < |resources| => envelope + resources[i])
  }

  /** No collector produces an envelope key, so a stored record carries the
      envelope unchanged next to the resource's own fields. */
  lemma EnvelopeSurvives(data: NetworkData, kind: Kind, resources: seq<Dict>)
    requires forall i :: 0 <= i < |resources| ==> resources[i].Keys == Schema(kind)
    ensures var records := Enrich(Envelope(data), resources);
      forall i, k :: 0 <= i < |records| && k in EnvelopeKeys ==> records[i][k] == Envelope(data)[k]
  {
    SchemaAvoidsEnvelope(kind);
  }

  /** No collector field is named like an envelope field */
  lemma SchemaAvoidsEnvelope(kind: Kind)
    ensures EnvelopeKeys * Schema(kind) == {}
  {
    forall k | k in Schema(kind) ensures k !in EnvelopeKeys {
    }
  }

  /** The f-string of the object key */
  function StorageKey(prefix: string, kindName: string, account: string, region: string, stamp: string): string
  {
    prefix + kindName + "/account=" + account + "/region=" + region + "/data-" + stamp + ".json"
  }

  /** Groups of one message never share a key: the resource types differ
      in their first two characters. */
  lemma KindsGetDistinctKeys(prefix: string, k1: Kind, k2: Kind, account: string, region: string, stamp: string)
    requires k1 != k2
    ensures StorageKey(prefix, KindName(k1), account, region, stamp) != StorageKey(prefix, KindName(k2), account, region, stamp)
  {
    var n := |prefix|;
    var key1 := StorageKey(prefix, KindName(k1), account, region, stamp);
    var key2 := StorageKey(prefix, KindName(k2), account, region, stamp);
    assert key1[n..n + 2] == KindName(k1)[..2];
    assert key2[n..n + 2] == KindName(k2)[..2];
  }

  predicate EndsWith(s: string, tail: string)
  {
    |tail| <= |s| && s[|s| - |tail|..] == tail
  }

  /** Every key ends with the run's timestamp and `.json` */
  lemma KeyEndsWithStamp(prefix: string, kindName: string, account: string, region: string, stamp: string)
    ensures EndsWith(StorageKey(prefix, kindName, account, region, stamp), "/data-" + stamp + ".json")
  {
    var tail := "/data-" + stamp + ".json";
    var head := prefix + kindName + "/account=" + account + "/region=" + region;
    assert StorageKey(prefix, kindName, account, region, stamp) == head + tail;
  }

  /** Two runs for one account and region get different keys exactly when
      their timestamps differ: the key determines the stamp. */
  lemma StampDeterminesKey(prefix: string, kindName: string, account: string, region: string, s1: string, s2: string)
    requires StorageKey(prefix, kindName, account, region, s1) == StorageKey(prefix, kindName, account, region, s2)
    ensures s1 == s2
  {
    Unframe(prefix + kindName + "/account=" + account + "/region=" + region + "/data-", s1, s2, ".json");
  }

  /** The S3 write of one file */
  datatype Put = Put(key: string, body: string)

  /** What storing needs besides the data: the key prefix, `json.dumps` of
      a record, and the f-string rendering of non-string values. */
  datatype Sink = Sink(prefix: string, toJson: Dict -> string, show: Value -> string)

  /** The JSON texts of the records, one per line */
  function JsonTexts(sink: Sink, records: seq<Dict>): (r: seq<string>)
    ensures |r| == |records|
    ensures forall i :: 0 <= i < |records| ==> r[i] == sink.toJson(records[i])
  {
    seq(|records|, i requires 0 <= i < |records| => sink.toJson(records[i]))
  }

  /** The object `store_flat_file` writes */
  function FlatFile(sink: Sink, records: seq<Dict>, kind: Kind, accountId: Value, region: Value, stamp: string): Put
  {
    Put(StorageKey(sink.prefix, KindName(kind), Text(sink.show, accountId), Text(sink.show, region), stamp),
        JoinLines(JsonTexts(sink, records)))
  }

  /** The file a non-empty group is written to */
  function GroupPut(sink: Sink, data: NetworkData, kind: Kind, stamp: string): Put
  {
    FlatFile(sink, Enrich(Envelope(data), Group(data, kind)), kind, data.accountId, data.region, stamp)
  }

  /** A group's file holds one line per resource: the JSON text of the
      resource merged with the envelope, in order, when no JSON text holds a
      raw newline. */
  lemma GroupFileLines(sink: Sink, data: NetworkData, kind: Kind, stamp: string)
    requires Group(data, kind) != []
    requires forall d :: '\n' !in sink.toJson(d)
    ensures var lines := SplitLines(GroupPut(sink, data, kind, stamp).body);
      && |lines| == |Group(data, kind)|
      && (forall i :: 0 <= i < |lines| ==> lines[i] == sink.toJson(Envelope(data) + Group(data, kind)[i]))
      && Newlines(GroupPut(sink, data, kind, stamp).body) == |Group(data, kind)| - 1
  {
    var texts := JsonTexts(sink, Enrich(Envelope(data), Group(data, kind)));
    SplitJoin(texts);
    JoinNewlines(texts);
  }

  /** The group's file, if the group has records */
  function GroupPlan(sink: Sink, data: NetworkData, kind: Kind, stamp: string): seq<Put>
  {
    if Group(data, kind) == [] then [] else [GroupPut(sink, data, kind, stamp)]
  }

  /** The groups `store_to_s3` writes: the non-empty ones, in their fixed order */
  function PlannedKinds(data: NetworkData): seq<Kind>
  {
    (if data.vpcs == [] then [] else [Vpcs]) +
    (if data.subnets == [] then [] else [Subnets]) +
    (if data.securityGroups == [] then [] else [SecurityGroups])
  }

  /** The groups written are exactly the non-empty ones, in the fixed order */
  lemma PlannedKindsSpec(data: NetworkData)
    ensures forall k :: k in PlannedKinds(data) <==> Group(data, k) != []
    ensures forall i, j :: 0 <= i < j < |PlannedKinds(data)| ==> Rank(PlannedKinds(data)[i]) < Rank(PlannedKinds(data)[j])
  {
  }

  /** Every file `store_to_s3` means to write, in order */
  function Plan(sink: Sink, data: NetworkData, stamp: string): seq<Put>
  {
    GroupPlan(sink, data, Vpcs, stamp) + GroupPlan(sink, data, Subnets, stamp) + GroupPlan(sink, data, SecurityGroups, stamp)
  }

  /** `plan` holds the files of the groups `ks`, in order */
  predicate Follows(plan: seq<Put>, ks: seq<Kind>, sink: Sink, data: NetworkData, stamp: string)
  {
    |plan| == |ks| && forall i :: 0 <= i < |plan| ==> plan[i] == GroupPut(sink, data, ks[i], stamp)
  }

  lemma FollowsAppend(p1: seq<Put>, k1: seq<Kind>, p2: seq<Put>, k2: seq<Kind>, sink: Sink, data: NetworkData, stamp: string)
    requires Follows(p1, k1, sink, data, stamp) && Follows(p2, k2, sink, data, stamp)
    ensures Follows(p1 + p2, k1 + k2, sink, data, stamp)
  {
    forall i | |p1| <= i < |p1 + p2|
      ensures (p1 + p2)[i] == GroupPut(sink, data, (k1 + k2)[i], stamp)
    {
      assert (p1 + p2)[i] == p2[i - |p1|];
      assert (k1 + k2)[i] == k2[i - |p1|];
    }
  }

  /** A group's part of the plan is its file when it has records */
  lemma GroupPlanFollows(sink: Sink, data: NetworkData, kind: Kind, stamp: string)
    ensures Follows(GroupPlan(sink, data, kind, stamp), if Group(data, kind) == [] then [] else [kind], sink, data, stamp)
  {
  }

  /** The plan holds the files of the planned groups, in order */
  lemma PlanFollows(sink: Sink, data: NetworkData, stamp: string)
    ensures Follows(Plan(sink, data, stamp), PlannedKinds(data), sink, data, stamp)
  {
    var v, n, g := GroupPlan(sink, data, Vpcs, stamp), GroupPlan(sink, data, Subnets, stamp), GroupPlan(sink, data, SecurityGroups, stamp);
    var kv := if Group(data, Vpcs) == [] then [] else [Vpcs];
    var kn := if Group(data, Subnets) == [] then [] else [Subnets];
    var kg := if Group(data, SecurityGroups) == [] then [] else [SecurityGroups];
    GroupPlanFollows(sink, data, Vpcs, stamp);
    GroupPlanFollows(sink, data, Subnets, stamp);
    GroupPlanFollows(sink, data, SecurityGroups, stamp);
    FollowsAppend(v, kv, n, kn, sink, data, stamp);
    FollowsAppend(v + n, kv + kn, g, kg, sink, data, stamp);
    assert PlannedKinds(data) == kv + kn + kg;
  }

  /** The plan writes one file per non-empty group, in the fixed order, all
      under distinct keys that share the run's timestamp. */
  lemma PlanFollowsKinds(sink: Sink, data: NetworkData, stamp: string)
    ensures var plan, ks := Plan(sink, data, stamp), PlannedKinds(data);
      && |plan| == |ks|
      && (forall i :: 0 <= i < |plan| ==> plan[i] == GroupPut(sink, data, ks[i], stamp))
      && (forall i, j :: 0 <= i < j < |plan| ==> plan[i].key != plan[j].key)
  {
    PlanFollows(sink, data, stamp);
    PlannedKindsSpec(data);
    var plan, ks := Plan(sink, data, stamp), PlannedKinds(data);
    var account, region := Text(sink.show, data.accountId), Text(sink.show, data.region);
    forall i, j | 0 <= i < j < |plan| ensures plan[i].key != plan[j].key {
      assert Rank(ks[i]) < Rank(ks[j]);
      KindsGetDistinctKeys(sink.prefix, ks[i], ks[j], account, region, stamp);
    }
  }

  /** All files of one `store_to_s3` call carry its one timestamp */
  lemma PlanSharesStamp(sink: Sink, data: NetworkData, stamp: string)
    ensures forall p :: p in Plan(sink, data, stamp) ==> EndsWith(p.key, "/data-" + stamp + ".json")
  {
    PlanFollows(sink, data, stamp);
    var plan, ks := Plan(sink, data, stamp), PlannedKinds(data);
    var account, region := Text(sink.show, data.accountId), Text(sink.show, data.region);
    forall p | p in plan ensures EndsWith(p.key, "/data-" + stamp + ".json") {
      var i :| 0 <= i < |plan| && plan[i] == p;
      KeyEndsWithStamp(sink.prefix, KindName(ks[i]), account, region, stamp);
    }
  }

  /** The files written before the first failed put: S3 writes in order, and
      the first failure raises out of `store_to_s3`. */
  function Written(puts: seq<Put>, putOk: Put -> bool): (w: seq<Put>)
    ensures |w| <= |puts| && w == puts[..|w|]
    ensures forall i :: 0 <= i < |w| ==> putOk(w[i])
    ensures |w| < |puts| ==> !putOk(puts[|w|])
  {
    if puts == [] || !putOk(puts[0]) then []
    else
      var rest := Written(puts[1..], putOk);
      assert puts[1..][..|rest|] == puts[1..|rest| + 1];
      [puts[0]] + rest
  }

  /** Writing `a` then `b` goes on to `b` only when all of `a` succeeds */
  lemma {:induction false} WrittenAppend(a: seq<Put>, b: seq<Put>, putOk: Put -> bool)
    ensures Written(a + b, putOk) == if Written(a, putOk) == a then a + Written(b, putOk) else Written(a, putOk)
  {
    if a != [] {
      assert (a + b)[0] == a[0];
      assert (a + b)[1..] == a[1..] + b;
      WrittenAppend(a[1..], b, putOk);
      if putOk(a[0]) {
        assert a == [a[0]] + a[1..];
      }
    } else {
      assert a + b == b;
    }
  }

  /** `{**base_metadata, **r}` appended for each resource of a group */
  method EnrichGroup(envelope: Dict, resources: seq<Dict>) returns (records: seq<Dict>)
    ensures records == Enrich(envelope, resources)
  {
    records := [];
    for i := 0 to |resources|
      invariant |records| == i
      invariant forall j :: 0 <= j < i ==> records[j] == envelope + resources[j]
    {
      var record := envelope + resources[i];
      records := records + [record];
    }
  }

  /** Writing three batches in turn: each goes on only when the previous
      ones were all written */
  lemma WrittenThree(a: seq<Put>, b: seq<Put>, c: seq<Put>, putOk: Put -> bool)
    ensures Written(a + b + c, putOk) ==
      if Written(a, putOk) != a then Written(a, putOk)
      else if Written(b, putOk) != b then a + Written(b, putOk)
      else a + b + Written(c, putOk)
  {
    WrittenAppend(a + b, c, putOk);
    WrittenAppend(a, b, putOk);
  }

  /** One `if network_data['network'][...]:` block of `store_to_s3`:
      nothing for an empty group, else the group's file, appended to
      `done` when the put succeeds. */
  method StoreGroup(sink: Sink, putOk: Put -> bool, data: NetworkData, kind: Kind, stamp: string, done: seq<Put>)
    returns (ok: bool, written: seq<Put>)
    ensures written == done + Written(GroupPlan(sink, data, kind, stamp), putOk)
    ensures ok <==> Written(GroupPlan(sink, data, kind, stamp), putOk) == GroupPlan(sink, data, kind, stamp)
  {
    var resources := Group(data, kind);
    if resources == [] {
      return true, done;
    }
    var records := EnrichGroup(Envelope(data), resources);
    var put := FlatFile(sink, records, kind, data.accountId, data.region, stamp);
    if putOk(put) {
      ok, written := true, done + [put];
    } else {
      ok, written := false, done;
    }
  }

  /** `store_to_s3` with the timestamp `stamp`: the files written, and
      whether all of them were (False means the call raised). */
  method StoreToS3(sink: Sink, putOk: Put -> bool, data: NetworkData, stamp: string)
    returns (ok: bool, written: seq<Put>)
    ensures written == Written(Plan(sink, data, stamp), putOk)
    ensures ok <==> written == Plan(sink, data, stamp)
  {
    ghost var vpcs := GroupPlan(sink, data, Vpcs, stamp);
    ghost var subnets := GroupPlan(sink, data, Subnets, stamp);
    ghost var groups := GroupPlan(sink, data, SecurityGroups, stamp);
    assert Plan(sink, data, stamp) == vpcs + subnets + groups;
    WrittenThree(vpcs, subnets, groups, putOk);
    ok, written := StoreGroup(sink, putOk, data, Vpcs, stamp, []);
    if !ok {
      return;
    }
    assert written == vpcs;
    ok, written := StoreGroup(sink, putOk, data, Subnets, stamp, written);
    if !ok {
      return;
    }
    assert written == vpcs + subnets;
    ok, written := StoreGroup(sink, putOk, data, SecurityGroups, stamp, written);
  }
}
