/** The consumer Lambda: for every SQS record, unwrap the SNS notification
    it carries, collect the network resources of the account and region it
    names, and store them; a failure on one record is counted and the batch
    goes on. */
module Consumer {
  import opened PyValues
  import opened Broker
  import opened Collectors
  import opened Storage

  /** The work one message asks for, read from the producer's payload */
  datatype WorkItem = WorkItem(accountId: Value, region: Value, accountName: Value, businessUnit: Value)

  /** Fixed for the whole invocation: `json.loads` (None where it raises)
      and the storage settings. */
  datatype Config = Config(loads: string -> Option<Value>, sink: Sink)

  /** What the cloud answers while one record is processed: the caller's
      account (None where `get_caller_identity` raises), `assume_role`,
      whether an EC2 client can be built for a region, the `describe_*`
      calls of a client (None where they raise), the two clock readings as
      text, and whether an S3 put succeeds. */
  datatype Env = Env(
    callerAccount: Option<string>,
    assumeRole: RoleRequest -> Option<Dict>,
    clientOk: Value -> bool,
    describe: (Ec2Client, Kind) -> Option<Dict>,
    isoNow: string,
    stamp: string,
    putOk: Put -> bool)

  /** `json.loads(v)` where `v` must be a string */
  function LoadsText(loads: string -> Option<Value>, v: Value): (r: Option<Value>)
    ensures !v.Str? ==> r.None?
  {
    if v.Str? then loads(v.s) else None
  }

  /** `d[key]` where `d` must be a dict holding `key` */
  function Field(d: Value, key: string): (r: Option<Value>)
    ensures r.Some? <==> d.Obj? && key in d.fields
  {
    if d.Obj? && key in d.fields then Some(d.fields[key]) else None
  }

  /** `json.loads(json.loads(record['body'])['Message'])`: the producer's
      payload, which must decode to a dict */
  function Unwrap(loads: string -> Option<Value>, record: Value): (r: Option<Dict>)
    ensures r.Some? ==> record.Obj? && "body" in record.fields && record.fields["body"].Str?
    // the payload is the decoding of the decoded body's `Message`
    ensures r.Some? ==>
      var outer := LoadsText(loads, record.fields["body"]);
      && outer.Some? && outer.value.Obj? && "Message" in outer.value.fields
      && LoadsText(loads, outer.value.fields["Message"]) == Some(Obj(r.value))
  {
    match Field(record, "body")
    case None => None
    case Some(body) =>
      match LoadsText(loads, body)
      case None => None
      case Some(outer) =>
        match Field(outer, "Message")
        case None => None
        case Some(message) =>
          match LoadsText(loads, message)
          case Some(Obj(payload)) => Some(payload)
          case _ => None
  }

  /** Conversely, a record whose body decodes to a dict whose `Message`
      decodes to a dict yields that dict as its payload. */
  lemma UnwrapDecodes(loads: string -> Option<Value>, record: Value, outer: Dict, payload: Dict)
    requires record.Obj? && "body" in record.fields
    requires LoadsText(loads, record.fields["body"]) == Some(Obj(outer))
    requires "Message" in outer && LoadsText(loads, outer["Message"]) == Some(Obj(payload))
    ensures Unwrap(loads, record) == Some(payload)
  {
    assert Field(record, "body") == Some(record.fields["body"]);
    assert Field(Obj(outer), "Message") == Some(outer["Message"]);
  }

  /** The fields `lambda_handler` and `collect_network_data` read from the
      payload: `account_id`, `region` and `account_name` are required,
      `business_unit` is None when absent. */
  function WorkItemOf(payload: Dict): (r: Option<WorkItem>)
    ensures r.Some? <==> "account_id" in payload && "region" in payload && "account_name" in payload
    ensures r.Some? ==>
      && r.value.accountId == payload["account_id"]
      && r.value.region == payload["region"]
      && r.value.accountName == payload["account_name"]
    ensures r.Some? && "business_unit" !in payload ==> r.value.businessUnit == Null
    ensures r.Some? && "business_unit" in payload ==> r.value.businessUnit == payload["business_unit"]
  {
    if "account_id" in payload && "region" in payload && "account_name" in payload then
      Some(WorkItem(payload["account_id"], payload["region"], payload["account_name"], Get(payload, "business_unit", Null)))
    else None
  }

  function DecodeWorkItem(loads: string -> Option<Value>, record: Value): Option<WorkItem>
  {
    match Unwrap(loads, record)
    case None => None
    case Some(payload) => WorkItemOf(payload)
  }

  /** `collect_network_data`: None where `get_ec2_client` raises; the
      collectors never raise. */
  function CollectNetworkData(w: WorkItem, env: Env, show: Value -> string): (r: Option<NetworkData>)
    ensures r.Some? <==> GetEc2Client(w.accountId, w.region, env.callerAccount, env.assumeRole, env.clientOk, show).Some?
    ensures r.Some? ==>
      && r.value.accountId == w.accountId && r.value.region == w.region
      && r.value.accountName == w.accountName && r.value.businessUnit == w.businessUnit
      && r.value.collectionTimestamp == Str(env.isoNow + "Z")
      && (forall i :: 0 <= i < |r.value.vpcs| ==> r.value.vpcs[i].Keys == Schema(Vpcs))
      && (forall i :: 0 <= i < |r.value.subnets| ==> r.value.subnets[i].Keys == Schema(Subnets))
      && (forall i :: 0 <= i < |r.value.securityGroups| ==> r.value.securityGroups[i].Keys == Schema(SecurityGroups))
    // each group is its own collector's result on the client obtained
    ensures r.Some? ==>
      var c := GetEc2Client(w.accountId, w.region, env.callerAccount, env.assumeRole, env.clientOk, show).value;
      && r.value.vpcs == Collect(Vpcs, env.describe(c, Vpcs))
      && r.value.subnets == Collect(Subnets, env.describe(c, Subnets))
      && r.value.securityGroups == Collect(SecurityGroups, env.describe(c, SecurityGroups))
  {
    match GetEc2Client(w.accountId, w.region, env.callerAccount, env.assumeRole, env.clientOk, show)
    case None => None
    case Some(client) =>
      Some(NetworkData(
        w.accountId, w.accountName, w.businessUnit, w.region,
        Str(env.isoNow + "Z"),
        Collect(Vpcs, env.describe(client, Vpcs)),
        Collect(Subnets, env.describe(client, Subnets)),
        Collect(SecurityGroups, env.describe(client, SecurityGroups))))
  }

  /** How one record ends: whether it counts as processed, and the files it wrote */
  datatype Outcome = Outcome(ok: bool, written: seq<Put>)

  /** The files the record asks to store: None when the payload does not
      decode or no EC2 client is obtained, which raise before `store_to_s3` */
  function Attempt(cfg: Config, env: Env, record: Value): Option<seq<Put>>
  {
    match DecodeWorkItem(cfg.loads, record)
    case None => None
    case Some(w) =>
      match CollectNetworkData(w, env, cfg.sink.show)
      case None => None
      case Some(data) => Some(Plan(cfg.sink, data, env.stamp))
  }

  /** Storing the planned files: the record succeeds when every put does */
  function Store(plan: Option<seq<Put>>, putOk: Put -> bool): Outcome
  {
    match plan
    case None => Outcome(false, [])
    case Some(puts) =>
      var written := Written(puts, putOk);
      Outcome(written == puts, written)
  }

  /** The body of the per-record `try` */
  function Process(cfg: Config, env: Env, record: Value): Outcome
  {
    Store(Attempt(cfg, env, record), env.putOk)
  }

  /** A store succeeds exactly when there is a plan and every put of it is
      accepted, and it writes only accepted files */
  lemma StoreOutcome(plan: Option<seq<Put>>, putOk: Put -> bool)
    ensures Store(plan, putOk).ok <==> plan.Some? && forall i :: 0 <= i < |plan.value| ==> putOk(plan.value[i])
    ensures forall i :: 0 <= i < |Store(plan, putOk).written| ==> putOk(Store(plan, putOk).written[i])
  {
    if plan.Some? {
      var written := Written(plan.value, putOk);
      if |written| < |plan.value| {
        assert !putOk(plan.value[|written|]);
      }
    }
  }

  /** A record counts as processed exactly when it decodes, a client is
      obtained and every planned file is stored; what it writes is always
      the accepted files of its plan, in order, stopping at the first
      rejected one. */
  lemma ProcessOutcome(cfg: Config, env: Env, record: Value)
    ensures var o := Process(cfg, env, record);
      && (o.ok <==>
          && DecodeWorkItem(cfg.loads, record).Some?
          && var w := DecodeWorkItem(cfg.loads, record).value;
             && CollectNetworkData(w, env, cfg.sink.show).Some?
             && var plan := Plan(cfg.sink, CollectNetworkData(w, env, cfg.sink.show).value, env.stamp);
                forall i :: 0 <= i < |plan| ==> env.putOk(plan[i]))
      && (forall i :: 0 <= i < |o.written| ==> env.putOk(o.written[i]))
  {
    StoreOutcome(Attempt(cfg, env, record), env.putOk);
  }

  /** How each record of the batch ends, each judged on its own with the
      cloud it meets */
  function Outcomes(cfg: Config, records: seq<Value>, world: nat -> Env): (os: seq<Outcome>)
    ensures |os| == |records|
  {
    seq(|records|, i requires 0 <= i < |records| => Process(cfg, world(i), records[i]))
  }

  /** `processed_count` after the given outcomes */
  function CountOk(os: seq<Outcome>): nat
  {
    if os == [] then 0 else CountOk(os[..|os| - 1]) + if os[|os| - 1].ok then 1 else 0
  }

  /** The files written over the given outcomes, record after record */
  function WrittenBy(os: seq<Outcome>): seq<Put>
  {
    if os == [] then [] else WrittenBy(os[..|os| - 1]) + os[|os| - 1].written
  }

  /** The positions of the records that succeed */
  function OkIndices(os: seq<Outcome>): set<nat>
  {
    set i: nat | i < |os| && os[i].ok
  }

  /** The processed count is the number of records that succeed, whatever
      their order, and never exceeds the batch. */
  lemma {:induction false} CountOkIndices(os: seq<Outcome>)
    ensures CountOk(os) == |OkIndices(os)|
    ensures CountOk(os) <= |os|
  {
    if os != [] {
      var n := |os| - 1;
      var init := os[..n];
      CountOkIndices(init);
      var before, after := OkIndices(init), OkIndices(os);
      var last := if os[n].ok then {n} else {};
      forall i: nat ensures i in after <==> i in before + last {
        if i < n {
          assert init[i] == os[i];
        }
      }
      assert after == before + last;
      assert n !in before;
    }
  }

  /** One more record adds its success to the count and its files to the
      files written */
  lemma CountStep(os: seq<Outcome>, i: nat)
    requires i < |os|
    ensures CountOk(os[..i + 1]) == CountOk(os[..i]) + if os[i].ok then 1 else 0
    ensures WrittenBy(os[..i + 1]) == WrittenBy(os[..i]) + os[i].written
  {
    assert os[..i + 1][..i] == os[..i];
  }

  /** The response `lambda_handler` returns: always status 200 */
  datatype BatchResponse = BatchResponse(statusCode: int, processed: nat, failed: nat)

  /** The per-record `try` of `lambda_handler` */
  method ProcessRecord(cfg: Config, env: Env, record: Value) returns (ok: bool, written: seq<Put>)
    ensures Outcome(ok, written) == Process(cfg, env, record)
  {
    var payload := Unwrap(cfg.loads, record);
    if payload.None? {
      return false, [];
    }
    var work := WorkItemOf(payload.value);
    if work.None? {
      return false, [];
    }
    var networkData := CollectNetworkData(work.value, env, cfg.sink.show);
    if networkData.None? {
      return false, [];
    }
    ok, written := StoreToS3(cfg.sink, env.putOk, networkData.value, env.stamp);
  }

  /** `lambda_handler` over `event['Records']`; record i meets the cloud as
      `world(i)`. Every record is attempted, and the two counters add up
      to the number of records. */
  method LambdaHandler(cfg: Config, records: seq<Value>, world: nat -> Env)
    returns (response: BatchResponse, written: seq<Put>)
    ensures response.statusCode == 200
    ensures response.processed + response.failed == |records|
    ensures response.processed == CountOk(Outcomes(cfg, records, world))
    ensures written == WrittenBy(Outcomes(cfg, records, world))
  {
    ghost var outcomes := Outcomes(cfg, records, world);
    var processedCount, failedCount := 0, 0;
    written := [];
    for i := 0 to |records|
      invariant processedCount == CountOk(outcomes[..i])
      invariant processedCount + failedCount == i
      invariant written == WrittenBy(outcomes[..i])
    {
      CountStep(outcomes, i);
      var ok, files := ProcessRecord(cfg, world(i), records[i]);
      if ok {
        processedCount := processedCount + 1;
      } else {
        failedCount := failedCount + 1;
      }
      written := written + files;
    }
    assert outcomes[..|records|] == outcomes;
    response := BatchResponse(200, processedCount, failedCount);
  }
}
