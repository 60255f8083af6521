/** `get_ec2_client` of the consumer: the client for the caller's own
    account, or one built from the credentials of an assumed role. STS is an
    oracle: the caller's identity is given, and `assume_role` is a function
    from the request to its response, None where the call raises. */
module Broker {
  import opened PyValues

  /** The request `sts.assume_role` receives */
  datatype RoleRequest = RoleRequest(roleArn: string, roleSessionName: string)

  /** The three credential fields the client is built from */
  datatype Credentials = Credentials(accessKeyId: Value, secretAccessKey: Value, sessionToken: Value)

  /** An EC2 client: its region and, on the assume-role path, the
      credentials it signs with; None means the Lambda's own credentials. */
  datatype Ec2Client = Ec2Client(region: Value, credentials: Option<Credentials>)

  const ArnPrefix := "arn:aws:iam::"
  const ArnSuffix := ":role/NetworkDataCollectionReadOnly"
  const SessionPrefix := "NetworkDataCollection-"

  /** The role ARN for an account id rendered as text */
  function RoleArn(account: string): string
  {
    ArnPrefix + account + ArnSuffix
  }

  /** The account an ARN of the read-only role names, if it is one */
  function ArnAccount(arn: string): (r: Option<string>)
    ensures r.Some? ==> RoleArn(r.value) == arn
  {
    if |arn| >= |ArnPrefix| + |ArnSuffix|
       && arn[..|ArnPrefix|] == ArnPrefix
       && arn[|arn| - |ArnSuffix|..] == ArnSuffix
    then
      var account := arn[|ArnPrefix|..|arn| - |ArnSuffix|];
      assert arn == arn[..|ArnPrefix|] + account + arn[|arn| - |ArnSuffix|..];
      Some(account)
    else None
  }

  /** The ARN names its account: parsing it back gives the account, so
      distinct accounts assume distinct roles. */
  lemma RoleArnNamesAccount(account: string)
    ensures ArnAccount(RoleArn(account)) == Some(account)
  {
    var arn := RoleArn(account);
    assert arn[..|ArnPrefix|] == ArnPrefix;
    assert arn[|arn| - |ArnSuffix|..] == ArnSuffix;
    assert arn[|ArnPrefix|..|arn| - |ArnSuffix|] == account;
  }

  lemma RoleArnInjective(a: string, b: string)
    requires RoleArn(a) == RoleArn(b)
    ensures a == b
  {
    RoleArnNamesAccount(a);
    RoleArnNamesAccount(b);
  }

  /** The role session name for an account id and a region rendered as text */
  function SessionName(account: string, region: string): string
  {
    SessionPrefix + account + "-" + region
  }

  /** For account ids of one length (AWS account ids have twelve digits) the
      session name determines the account and the region. */
  lemma SessionNameIdentifiesPair(a1: string, r1: string, a2: string, r2: string)
    requires |a1| == |a2| && SessionName(a1, r1) == SessionName(a2, r2)
    ensures a1 == a2 && r1 == r2
  {
    var s := SessionName(a1, r1);
    var n := |SessionPrefix|;
    assert s == SessionPrefix + a1 + "-" + r1;
    assert s == SessionPrefix + a2 + "-" + r2;
    assert a1 == s[n..n + |a1|];
    assert a2 == s[n..n + |a2|];
    assert r1 == s[n + |a1| + 1..];
    assert r2 == s[n + |a2| + 1..];
  }

  /** The request sent for an account and a region */
  function RequestFor(show: Value -> string, accountId: Value, region: Value): RoleRequest
  {
    RoleRequest(RoleArn(Text(show, accountId)), SessionName(Text(show, accountId), Text(show, region)))
  }

  /** `assumed_role['Credentials']` and its three fields; None where a
      subscript raises */
  function CredentialsOf(response: Dict): (r: Option<Credentials>)
    ensures r.Some? <==>
      && "Credentials" in response && response["Credentials"].Obj?
      && var c := response["Credentials"].fields;
         "AccessKeyId" in c && "SecretAccessKey" in c && "SessionToken" in c
  {
    if "Credentials" !in response then None
    else
      match response["Credentials"]
      case Obj(c) =>
        if "AccessKeyId" in c && "SecretAccessKey" in c && "SessionToken" in c
        then Some(Credentials(c["AccessKeyId"], c["SecretAccessKey"], c["SessionToken"]))
        else None
      case _ => None
  }

  /** `get_ec2_client(account_id, region)`. `callerAccount` is
      `get_caller_identity()['Account']`, None where that call raises;
      `clientOk` says whether `boto3.client('ec2', region_name=region, ...)`
      accepts the region, and raises otherwise. None as the result means an
      exception leaves the function. */
  function GetEc2Client(
    accountId: Value, region: Value, callerAccount: Option<string>,
    assumeRole: RoleRequest -> Option<Dict>, clientOk: Value -> bool, show: Value -> string): (r: Option<Ec2Client>)
    // no identity, no client
    ensures callerAccount.None? ==> r.None?
    // the own account: a local client, whatever assume_role would answer,
    // unless building the client raises
    ensures callerAccount.Some? && accountId == Str(callerAccount.value) ==>
      r == if clientOk(region) then Some(Ec2Client(region, None)) else None
    // any other account: exactly the credentials of the one role request;
    // a failed or malformed assume_role response, or a client that cannot
    // be built, propagates
    ensures callerAccount.Some? && accountId != Str(callerAccount.value) ==>
      var response := assumeRole(RequestFor(show, accountId, region));
      && (r.Some? <==> response.Some? && CredentialsOf(response.value).Some? && clientOk(region))
      && (r.Some? ==> r.value == Ec2Client(region, CredentialsOf(response.value)))
  {
    match callerAccount
    case None => None
    case Some(current) =>
      if accountId == Str(current) then
        if clientOk(region) then Some(Ec2Client(region, None)) else None
      else
        match assumeRole(RequestFor(show, accountId, region))
        case None => None
        case Some(response) =>
          match CredentialsOf(response)
          case None => None
          case Some(c) => if clientOk(region) then Some(Ec2Client(region, Some(c))) else None
  }

  /** The own-account path assumes no role: the answer of `assume_role`
      makes no difference to it. */
  lemma OwnAccountAssumesNoRole(
    accountId: Value, region: Value, caller: string,
    roleA: RoleRequest -> Option<Dict>, roleB: RoleRequest -> Option<Dict>,
    clientOk: Value -> bool, show: Value -> string)
    requires accountId == Str(caller)
    ensures GetEc2Client(accountId, region, Some(caller), roleA, clientOk, show)
         == GetEc2Client(accountId, region, Some(caller), roleB, clientOk, show)
    ensures GetEc2Client(accountId, region, Some(caller), roleA, clientOk, show).Some? ==>
      GetEc2Client(accountId, region, Some(caller), roleA, clientOk, show).value.credentials.None?
  {
  }

  /** A client for another account always carries assumed credentials, for
      the region asked for, obtained with the account's own role ARN. */
  lemma OtherAccountAssumesItsRole(
    accountId: Value, region: Value, caller: string,
    assumeRole: RoleRequest -> Option<Dict>, clientOk: Value -> bool, show: Value -> string)
    requires accountId != Str(caller)
    requires GetEc2Client(accountId, region, Some(caller), assumeRole, clientOk, show).Some?
    ensures var c := GetEc2Client(accountId, region, Some(caller), assumeRole, clientOk, show).value;
      && c.region == region && c.credentials.Some?
      && ArnAccount(RequestFor(show, accountId, region).roleArn) == Some(Text(show, accountId))
  {
    RoleArnNamesAccount(Text(show, accountId));
  }
}
