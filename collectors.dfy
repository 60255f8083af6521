/** `collect_vpcs`, `collect_subnets` and `collect_security_groups`: each
    turns the `describe_*` response into flat records, one per described
    resource, and any exception inside gives `[]` for the whole group. */
module Collectors {
  import opened PyValues

  datatype Kind = Vpcs | Subnets | SecurityGroups

  /** The key of the resource list in the `describe_*` response */
  function ResponseKey(kind: Kind): string
  {
    match kind
    case Vpcs => "Vpcs"
    case Subnets => "Subnets"
    case SecurityGroups => "SecurityGroups"
  }

  /** The keys of a normalised record */
  function Schema(kind: Kind): set<string>
  {
    match kind
    case Vpcs => {"vpc_id", "cidr_block", "state", "is_default", "tags"}
    case Subnets => {"subnet_id", "vpc_id", "cidr_block", "availability_zone", "available_ip_count", "tags"}
    case SecurityGroups => {"sg_id", "sg_name", "vpc_id", "description", "ingress_rules_count", "egress_rules_count", "tags"}
  }

  /** The raw fields a record cannot do without: subscripting a missing one raises KeyError */
  function Required(kind: Kind): set<string>
  {
    match kind
    case Vpcs => {"VpcId", "CidrBlock", "State"}
    case Subnets => {"SubnetId", "VpcId", "CidrBlock", "AvailabilityZone", "AvailableIpAddressCount"}
    case SecurityGroups => {"GroupId", "GroupName", "Description"}
  }

  /** `len(sg.get(key, []))` as a record field; None where `len` raises */
  function RuleCount(sg: Dict, key: string): (r: Option<Value>)
    ensures key !in sg ==> r == Some(Num(0))
    ensures key in sg && sg[key].List? ==> r == Some(Num(|sg[key].items|))
    ensures r.None? <==> key in sg && Len(sg[key]).None?
  {
    match Len(Get(sg, key, List([])))
    case None => None
    case Some(n) => Some(Num(n))
  }

  /** One element of the comprehension; None where building it raises
      (the element is not a dict, a required field is missing, `len` fails). */
  function Normalise(kind: Kind, raw: Value): (r: Option<Dict>)
    ensures r.Some? ==> r.value.Keys == Schema(kind)
    ensures r.None? <==>
      || !raw.Obj?
      || !(Required(kind) <= raw.fields.Keys)
      || (kind == SecurityGroups &&
          (RuleCount(raw.fields, "IpPermissions").None? || RuleCount(raw.fields, "IpPermissionsEgress").None?))
    // the identifying fields are copied unchanged
    ensures r.Some? && kind == Vpcs ==>
      r.value["vpc_id"] == raw.fields["VpcId"] && r.value["cidr_block"] == raw.fields["CidrBlock"]
    ensures r.Some? && kind == Subnets ==>
      r.value["subnet_id"] == raw.fields["SubnetId"] && r.value["vpc_id"] == raw.fields["VpcId"]
    ensures r.Some? && kind == SecurityGroups ==>
      r.value["sg_id"] == raw.fields["GroupId"] && r.value["sg_name"] == raw.fields["GroupName"]
    // the defaults of the optional fields
    ensures r.Some? && "Tags" !in raw.fields ==> r.value["tags"] == List([])
    ensures r.Some? && kind == Vpcs && "IsDefault" !in raw.fields ==> r.value["is_default"] == Bool(false)
    ensures r.Some? && kind == SecurityGroups && "VpcId" !in raw.fields ==> r.value["vpc_id"] == Str("N/A")
    ensures r.Some? && kind == SecurityGroups ==>
      && ("IpPermissions" !in raw.fields ==> r.value["ingress_rules_count"] == Num(0))
      && ("IpPermissionsEgress" !in raw.fields ==> r.value["egress_rules_count"] == Num(0))
  {
    if !raw.Obj? || !(Required(kind) <= raw.fields.Keys) then None
    else
      var f := raw.fields;
      match kind
      case Vpcs =>
        Some(map[
          "vpc_id" := f["VpcId"],
          "cidr_block" := f["CidrBlock"],
          "state" := f["State"],
          "is_default" := Get(f, "IsDefault", Bool(false)),
          "tags" := Get(f, "Tags", List([]))])
      case Subnets =>
        Some(map[
          "subnet_id" := f["SubnetId"],
          "vpc_id" := f["VpcId"],
          "cidr_block" := f["CidrBlock"],
          "availability_zone" := f["AvailabilityZone"],
          "available_ip_count" := f["AvailableIpAddressCount"],
          "tags" := Get(f, "Tags", List([]))])
      case SecurityGroups =>
        match (RuleCount(f, "IpPermissions"), RuleCount(f, "IpPermissionsEgress"))
        case (Some(ingress), Some(egress)) =>
          Some(map[
            "sg_id" := f["GroupId"],
            "sg_name" := f["GroupName"],
            "vpc_id" := Get(f, "VpcId", Str("N/A")),
            "description" := f["Description"],
            "ingress_rules_count" := ingress,
            "egress_rules_count" := egress,
            "tags" := Get(f, "Tags", List([]))])
        case _ => None
  }

  /** Every field of a normalised record: the required ones copied, the
      optional ones copied when present and defaulted otherwise, and the rule
      counts the lengths of the permission lists. */
  lemma NormaliseFields(kind: Kind, raw: Value)
    requires Normalise(kind, raw).Some?
    ensures raw.Obj? && Required(kind) <= raw.fields.Keys
    ensures var r, f := Normalise(kind, raw).value, raw.fields;
      && r["tags"] == Get(f, "Tags", List([]))
      && (kind == Vpcs ==>
          && r["vpc_id"] == f["VpcId"] && r["cidr_block"] == f["CidrBlock"] && r["state"] == f["State"]
          && r["is_default"] == Get(f, "IsDefault", Bool(false)))
      && (kind == Subnets ==>
          && r["subnet_id"] == f["SubnetId"] && r["vpc_id"] == f["VpcId"] && r["cidr_block"] == f["CidrBlock"]
          && r["availability_zone"] == f["AvailabilityZone"]
          && r["available_ip_count"] == f["AvailableIpAddressCount"])
      && (kind == SecurityGroups ==>
          && r["sg_id"] == f["GroupId"] && r["sg_name"] == f["GroupName"]
          && r["vpc_id"] == Get(f, "VpcId", Str("N/A")) && r["description"] == f["Description"]
          && Some(r["ingress_rules_count"]) == RuleCount(f, "IpPermissions")
          && Some(r["egress_rules_count"]) == RuleCount(f, "IpPermissionsEgress"))
  {
  }

  /** The comprehension over all elements: every element normalised, in
      order, or None as soon as one raises. */
  function NormaliseAll(kind: Kind, raws: seq<Value>): (r: Option<seq<Dict>>)
    ensures r.Some? <==> forall i :: 0 <= i < |raws| ==> Normalise(kind, raws[i]).Some?
    ensures r.Some? ==> |r.value| == |raws|
    ensures r.Some? ==> forall i :: 0 <= i < |raws| ==> r.value[i] == Normalise(kind, raws[i]).value
  {
    if raws == [] then Some([])
    else
      assert forall i :: 1 <= i < |raws| ==> raws[i] == raws[1..][i - 1];
      match Normalise(kind, raws[0])
      case None => None
      case Some(first) =>
        match NormaliseAll(kind, raws[1..])
        case None => None
        case Some(rest) => Some([first] + rest)
  }

  /** The resources a successful `describe_*` response lists; None where
      the call raises, the list key is missing or the value is not iterable */
  function Described(kind: Kind, response: Option<Dict>): Option<seq<Value>>
  {
    if response.None? || ResponseKey(kind) !in response.value then None
    else Iter(response.value[ResponseKey(kind)])
  }

  /** A collector given the `describe_*` response (None where the call
      raises). All or nothing: when the call succeeds and every resource
      normalises, one record per resource in input order; otherwise `[]`. */
  function Collect(kind: Kind, response: Option<Dict>): (r: seq<Dict>)
    ensures forall i :: 0 <= i < |r| ==> r[i].Keys == Schema(kind)
    ensures var raws := Described(kind, response);
      if raws.Some? && forall i :: 0 <= i < |raws.value| ==> Normalise(kind, raws.value[i]).Some?
      then
        && |r| == |raws.value|
        && forall i :: 0 <= i < |raws.value| ==> r[i] == Normalise(kind, raws.value[i]).value
      else r == []
  {
    match Described(kind, response)
    case None => []
    case Some(raws) =>
      match NormaliseAll(kind, raws)
      case None => []
      case Some(records) => records
  }
}
