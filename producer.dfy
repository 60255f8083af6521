/** The producer Lambda: scans the account registry, keeps the active
    accounts, expands each into (account, region) pairs and publishes one
    work event per pair, counting publish successes and failures. */
module Producer {
  import opened PyValues

  // ---------------------------------------------------------------------
  // Registry scan (`scan_account_metadata`)

  /** The table's answer to one `scan` call: the call raised, or a page with
      its optional `Items` and its optional `LastEvaluatedKey`. */
  datatype ScanResponse =
    | ScanError
    | Page(items: Option<seq<Dict>>, lastEvaluatedKey: Option<Value>)

  /** An answer after which no further `scan` call is made */
  predicate Final(r: ScanResponse)
  {
    r.ScanError? || r.lastEvaluatedKey.None?
  }

  /** The table's successive answers end: DynamoDB's scan reaches a last page. */
  predicate ScanEnds(rs: seq<ScanResponse>)
  {
    exists i :: 0 <= i < |rs| && Final(rs[i])
  }

  /** `response.get('Items', [])`; an answer that raised has none */
  function PageItems(r: ScanResponse): seq<Dict>
  {
    match r
    case ScanError => []
    case Page(None, _) => []
    case Page(Some(items), _) => items
  }

  /** Index of the answer that ends the scan: the first error or the first
      page without a continuation key. */
  function LastCall(rs: seq<ScanResponse>): (k: nat)
    requires ScanEnds(rs)
    ensures k < |rs| && Final(rs[k])
    ensures forall j :: 0 <= j < k ==> !Final(rs[j])
    decreases |rs|
  {
    if Final(rs[0]) then 0
    else
      assert ScanEnds(rs[1..]) by {
        var i :| 0 <= i < |rs| && Final(rs[i]);
        assert rs[1..][i - 1] == rs[i];
      }
      var k := LastCall(rs[1..]);
      assert forall j :: 1 <= j < k + 1 ==> rs[j] == rs[1..][j - 1];
      k + 1
  }

  /** The `ExclusiveStartKey` a page passes to the next `scan` call */
  function NextStart(r: ScanResponse): Option<Value>
  {
    if r.Page? then r.lastEvaluatedKey else None
  }

  /** The `ExclusiveStartKey` arguments of the first `n` calls: none for the
      first, then the key of the page before. */
  function Starts(rs: seq<ScanResponse>, n: nat): seq<Option<Value>>
    requires 1 <= n <= |rs| + 1
  {
    if n == 1 then [None] else Starts(rs, n - 1) + [NextStart(rs[n - 2])]
  }

  /** Each call after the first passes the key of the page before it */
  lemma {:induction false} StartsSpec(rs: seq<ScanResponse>, n: nat)
    requires 1 <= n <= |rs| + 1
    ensures |Starts(rs, n)| == n && Starts(rs, n)[0].None?
    ensures forall k :: 0 < k < n ==> Starts(rs, n)[k] == NextStart(rs[k - 1])
  {
    if n > 1 {
      StartsSpec(rs, n - 1);
    }
  }

  /** The items of the pages `rs`, in page order */
  function Concat(rs: seq<ScanResponse>): seq<Dict>
  {
    if rs == [] then [] else Concat(rs[..|rs| - 1]) + PageItems(rs[|rs| - 1])
  }

  /** What `scan_account_metadata` returns: the items of every page read,
      in page order; None when a `scan` call raised (it is re-raised). */
  function ScanResult(rs: seq<ScanResponse>): Option<seq<Dict>>
    requires ScanEnds(rs)
  {
    var k := LastCall(rs);
    if rs[k].ScanError? then None else Some(Concat(rs[..k + 1]))
  }

  /** An item of one of the first `k` pages is among their items */
  lemma {:induction false} ConcatHas(rs: seq<ScanResponse>, k: nat, j: nat, x: Dict)
    requires j < k <= |rs| && x in PageItems(rs[j])
    ensures x in Concat(rs[..k])
  {
    ConcatSnoc(rs, k);
    if j < k - 1 {
      ConcatHas(rs, k - 1, j, x);
    }
  }

  /** An item among the first `k` pages' items is on one of them */
  lemma {:induction false} ConcatFrom(rs: seq<ScanResponse>, k: nat, x: Dict) returns (j: nat)
    requires k <= |rs| && x in Concat(rs[..k])
    ensures j < k && x in PageItems(rs[j])
  {
    ConcatSnoc(rs, k);
    if x in PageItems(rs[k - 1]) {
      j := k - 1;
    } else {
      j := ConcatFrom(rs, k - 1, x);
    }
  }

  /** An item is among the first `k` pages exactly when one of them holds it */
  lemma ConcatMembers(rs: seq<ScanResponse>, k: nat, x: Dict)
    requires k <= |rs|
    ensures x in Concat(rs[..k]) <==> exists j :: 0 <= j < k && x in PageItems(rs[j])
  {
    if x in Concat(rs[..k]) {
      var j := ConcatFrom(rs, k, x);
    }
    if exists j :: 0 <= j < k && x in PageItems(rs[j]) {
      var j :| 0 <= j < k && x in PageItems(rs[j]);
      ConcatHas(rs, k, j, x);
    }
  }

  /** Reading page `k - 1` appends its items */
  lemma ConcatSnoc(rs: seq<ScanResponse>, k: nat)
    requires 0 < k <= |rs|
    ensures Concat(rs[..k]) == Concat(rs[..k - 1]) + PageItems(rs[k - 1])
  {
    assert rs[..k][..k - 1] == rs[..k - 1];
  }

  /** An account is in the scan result exactly when it is on one of the
      pages read: those up to the first answer without a continuation key. */
  lemma ScanReturnsPagesRead(rs: seq<ScanResponse>, x: Dict)
    requires ScanEnds(rs) && ScanResult(rs).Some?
    ensures x in ScanResult(rs).value <==> exists j :: 0 <= j <= LastCall(rs) && x in PageItems(rs[j])
  {
    var k := LastCall(rs);
    var read := Concat(rs[..k + 1]);
    assert ScanResult(rs).value == read;
    ConcatMembers(rs, k + 1, x);
    if x in read {
      var j :| 0 <= j < k + 1 && x in PageItems(rs[j]);
      assert 0 <= j <= k;
    } else {
      forall j | 0 <= j <= k ensures x !in PageItems(rs[j]) {
        assert 0 <= j < k + 1;
      }
    }
  }

  /** `scan_account_metadata`: one `scan`, then one more per
      `LastEvaluatedKey`, extending the item list page by page. `rs[k]` is
      the table's answer to the call made with `ExclusiveStartKey`
      `starts[k]` (None: no argument). */
  method ScanAccountMetadata(rs: seq<ScanResponse>) returns (accounts: Option<seq<Dict>>, calls: nat, starts: seq<Option<Value>>)
    requires ScanEnds(rs)
    ensures calls == LastCall(rs) + 1
    ensures accounts == ScanResult(rs)
    ensures |starts| == calls && starts[0].None?
    ensures forall k :: 0 < k < calls ==> starts[k] == NextStart(rs[k - 1]) && starts[k].Some?
  {
    ghost var last := LastCall(rs);
    calls := 1;
    starts := [None];
    var response := rs[0];
    if response.ScanError? {
      assert last == 0;
      StartsSpec(rs, calls);
      return None, calls, starts;
    }
    var items := PageItems(response);
    assert rs[..1][..0] == [];
    while response.lastEvaluatedKey.Some?
      invariant 1 <= calls <= last + 1
      invariant response == rs[calls - 1] && response.Page?
      invariant items == Concat(rs[..calls])
      invariant starts == Starts(rs, calls)
      decreases last + 1 - calls
    {
      assert calls - 1 < last;
      starts := starts + [NextStart(response)];
      response := rs[calls];
      calls := calls + 1;
      if response.ScanError? {
        assert calls - 1 == last;
        StartsSpec(rs, calls);
        return None, calls, starts;
      }
      assert rs[..calls][..calls - 1] == rs[..calls - 1];
      items := items + PageItems(response);
    }
    assert calls - 1 == last;
    StartsSpec(rs, calls);
    return Some(items), calls, starts;
  }

  // ---------------------------------------------------------------------
  // Work expansion

  /** `acc.get('status', '')` */
  function Status(acc: Dict): Value
  {
    Get(acc, "status", Str(""))
  }

  /** `acc.get('status', '').lower() == 'active'` for a string status */
  predicate IsActive(acc: Dict)
  {
    Status(acc).Str? && Lower(Status(acc).s) == "active"
  }

  /** `filter_active_accounts`; None when some status is not a string, for
      which `.lower()` raises. */
  function FilterActive(accounts: seq<Dict>): (r: Option<seq<Dict>>)
    ensures r.Some? ==> |r.value| <= |accounts|
    decreases |accounts|
  {
    if accounts == [] then Some([])
    else if !Status(accounts[0]).Str? then None
    else
      match FilterActive(accounts[1..])
      case None => None
      case Some(rest) => Some(if IsActive(accounts[0]) then [accounts[0]] + rest else rest)
  }

  /** The filter raises exactly when some status is not a string, and
      otherwise keeps exactly the active accounts. */
  lemma {:induction false} FilterActiveSpec(accounts: seq<Dict>)
    ensures FilterActive(accounts).Some? <==> forall i :: 0 <= i < |accounts| ==> Status(accounts[i]).Str?
    ensures FilterActive(accounts).Some? ==> forall a :: a in FilterActive(accounts).value <==> a in accounts && IsActive(a)
  {
    if accounts != [] {
      var x, t := accounts[0], accounts[1..];
      FilterActiveSpec(t);
      assert accounts == [x] + t;
      assert forall i :: 1 <= i < |accounts| ==> accounts[i] == t[i - 1];
      if !(forall i :: 0 <= i < |t| ==> Status(t[i]).Str?) {
        var i :| 0 <= i < |t| && !Status(t[i]).Str?;
        assert accounts[i + 1] == t[i];
      }
    }
  }

  /** One step of the filter: the first account, then the rest */
  lemma FilterActiveCons(x: Dict, rest: seq<Dict>)
    ensures FilterActive([x] + rest) ==
      if !Status(x).Str? || FilterActive(rest).None? then None
      else if IsActive(x) then Some([x] + FilterActive(rest).value)
      else FilterActive(rest)
  {
    assert ([x] + rest)[1..] == rest;
  }

  /** Filtering distributes over concatenation: the kept accounts stay in
      input order. */
  lemma {:induction false} FilterActiveAppend(a: seq<Dict>, b: seq<Dict>)
    ensures FilterActive(a + b) ==
      if FilterActive(a).Some? && FilterActive(b).Some?
      then Some(FilterActive(a).value + FilterActive(b).value)
      else None
  {
    if a == [] {
      assert a + b == b;
      if FilterActive(b).Some? {
        assert [] + FilterActive(b).value == FilterActive(b).value;
      }
    } else {
      var x, t := a[0], a[1..];
      assert a == [x] + t;
      assert a + b == [x] + (t + b);
      FilterActiveCons(x, t);
      FilterActiveCons(x, t + b);
      FilterActiveAppend(t, b);
      if Status(x).Str? && FilterActive(t).Some? && FilterActive(b).Some? {
        assert [x] + (FilterActive(t).value + FilterActive(b).value) == ([x] + FilterActive(t).value) + FilterActive(b).value;
      }
    }
  }

  /** One unit of work: an account item with one entry of its `regions` */
  datatype Pair = Pair(account: Dict, region: Value)

  /** `account.get('regions', [])`. A DynamoDB string set arrives as the list
      `list(set)` produced, in that order. */
  function Regions(account: Dict): Value
  {
    Get(account, "regions", List([]))
  }

  function RegionsOf(pairs: seq<Pair>): seq<Value>
  {
    seq(|pairs|, i requires 0 <= i < |pairs| => pairs[i].region)
  }

  /** `expand_account_regions`: one pair per element of `regions`, in order
      and with duplicates; None when `regions` cannot be iterated. */
  function ExpandRegions(account: Dict): (r: Option<seq<Pair>>)
    ensures r.Some? <==> Iter(Regions(account)).Some?
    ensures r.Some? ==> RegionsOf(r.value) == Iter(Regions(account)).value
    ensures r.Some? ==> forall p :: p in r.value ==> p.account == account
    ensures "regions" !in account ==> r == Some([])
  {
    match Iter(Regions(account))
    case None => None
    case Some(regions) => Some(seq(|regions|, i requires 0 <= i < |regions| => Pair(account, regions[i])))
  }

  // ---------------------------------------------------------------------
  // Event payload and subject

  /** The dict `create_event_payload` builds, one field per key */
  datatype EventPayload = EventPayload(
    accountId: Value,
    accountName: Value,
    businessUnit: Value,
    region: Value,
    timestamp: Value)

  /** The payload as the JSON object `publish_to_sns` serialises */
  function AsDict(e: EventPayload): Dict
  {
    map[
      "account_id" := e.accountId,
      "account_name" := e.accountName,
      "business_unit" := e.businessUnit,
      "region" := e.region,
      "timestamp" := e.timestamp]
  }

  /** `create_event_payload`; `now` is `datetime.utcnow().isoformat()` at the
      call. None when the account has no `account_id` (KeyError). */
  function CreatePayload(account: Dict, region: Value, now: string): (r: Option<EventPayload>)
    ensures r.Some? <==> "account_id" in account
    ensures r.Some? ==> r.value.accountId == account["account_id"] && r.value.region == region
    ensures r.Some? ==>
      r.value.accountName == if "account_name" in account then account["account_name"] else Str("Unknown")
    ensures r.Some? ==>
      r.value.businessUnit == if "business_unit" in account then account["business_unit"] else Null
    ensures r.Some? ==> r.value.timestamp == Str(now + "Z")
  {
    if "account_id" !in account then None
    else Some(EventPayload(
      account["account_id"],
      Get(account, "account_name", Str("Unknown")),
      Get(account, "business_unit", Null),
      region,
      Str(now + "Z")))
  }

  const SubjectPrefix := "Network Data Collection - "
  const SubjectSeparator := " - "

  /** The `Subject` that `publish_to_sns` sends with the payload */
  function Subject(show: Value -> string, payload: EventPayload): string
  {
    SubjectPrefix + Text(show, payload.accountId) + SubjectSeparator + Text(show, payload.region)
  }

  /** The subject names its pair: for account ids of one length (AWS account
      ids have twelve digits), equal subjects have equal account and region. */
  lemma SubjectIdentifiesPair(show: Value -> string, p1: EventPayload, p2: EventPayload)
    requires |Text(show, p1.accountId)| == |Text(show, p2.accountId)|
    requires Subject(show, p1) == Subject(show, p2)
    ensures Text(show, p1.accountId) == Text(show, p2.accountId)
    ensures Text(show, p1.region) == Text(show, p2.region)
  {
    var a1, a2 := Text(show, p1.accountId), Text(show, p2.accountId);
    var r1, r2 := Text(show, p1.region), Text(show, p2.region);
    var s := Subject(show, p1);
    var n := |SubjectPrefix|;
    assert s == SubjectPrefix + a1 + SubjectSeparator + r1;
    assert s == SubjectPrefix + a2 + SubjectSeparator + r2;
    assert a1 == s[n..n + |a1|];
    assert a2 == s[n..n + |a2|];
    assert r1 == s[n + |a1| + 3..];
    assert r2 == s[n + |a2| + 3..];
  }

  // ---------------------------------------------------------------------
  // Dispatch loop (`lambda_handler`)

  /** The handler's collaborators. `publish(j, e)` says whether the j-th
      publish call of the run, which hands SNS the payload `e` as its JSON
      text under the subject `Subject(show, e)`, succeeds; `clock(j)` is the
      time at which the j-th payload is built; `show` renders non-string
      values in f-strings. */
  datatype Runtime = Runtime(publish: (nat, EventPayload) -> bool, clock: nat -> string, show: Value -> string)

  /** The loop's state: the payloads handed to SNS, `success_count`,
      `failure_count`, and whether an exception has left the loop. */
  datatype Run = Run(sent: seq<EventPayload>, successCount: nat, failureCount: nat, aborted: bool)

  const Start := Run([], 0, 0, false)

  /** One pass of the inner loop body. The publish call's index is
      `total_events`. Without `account_id`, `create_event_payload` raises
      KeyError and the `except` branch raises it again while formatting
      `account_data['account_id']`, so the exception leaves the loop. */
  function Step(run: Run, p: Pair, rt: Runtime): Run
  {
    if run.aborted then run
    else if "account_id" !in p.account then run.(aborted := true)
    else
      var j := run.successCount + run.failureCount;
      var m := PayloadFor(p, j, rt);
      if rt.publish(j, m) then Run(run.sent + [m], run.successCount + 1, run.failureCount, false)
      else Run(run.sent + [m], run.successCount, run.failureCount + 1, false)
  }

  /** The payload the j-th publish call carries for pair `p`, built at `clock(j)` */
  function PayloadFor(p: Pair, j: nat, rt: Runtime): EventPayload
    requires "account_id" in p.account
  {
    CreatePayload(p.account, p.region, rt.clock(j)).value
  }

  /** The inner loop over the pairs of one account */
  function StepAll(run: Run, ps: seq<Pair>, rt: Runtime): Run
  {
    if ps == [] then run else Step(StepAll(run, ps[..|ps| - 1], rt), ps[|ps| - 1], rt)
  }

  /** The outer loop over the active accounts; `expand_account_regions`
      raising leaves the loop. */
  function Dispatch(accounts: seq<Dict>, rt: Runtime): Run
  {
    if accounts == [] then Start
    else
      var run := Dispatch(accounts[..|accounts| - 1], rt);
      if run.aborted then run
      else
        match ExpandRegions(accounts[|accounts| - 1])
        case None => run.(aborted := true)
        case Some(ps) => StepAll(run, ps, rt)
  }

  /** The summary body of a completed run */
  datatype Summary = Summary(
    totalAccounts: nat,
    activeAccounts: nat,
    totalEventsPublished: nat,
    failedEvents: nat,
    timestamp: string)

  /** `statusCode` 200 with the summary, or 500 with an error message and no counts */
  datatype Response = Completed(body: Summary) | Errored

  function StatusCode(r: Response): int
  {
    if r.Completed? then 200 else 500
  }

  /** What one invocation returns, and the messages it handed to SNS */
  datatype Invocation = Invocation(response: Response, sent: seq<EventPayload>)

  /** `lambda_handler`; `now` is the time put in the summary. */
  function Handle(rs: seq<ScanResponse>, rt: Runtime, now: string): Invocation
    requires ScanEnds(rs)
  {
    match ScanResult(rs)
    case None => Invocation(Errored, [])
    case Some(accounts) =>
      match FilterActive(accounts)
      case None => Invocation(Errored, [])
      case Some(active) =>
        var run := Dispatch(active, rt);
        if run.aborted then Invocation(Errored, run.sent)
        else Invocation(Completed(Summary(|accounts|, |active|, run.successCount, run.failureCount, now)), run.sent)
  }

  // ---------------------------------------------------------------------
  // What the dispatch loop guarantees

  /** Every pair of the given accounts, in loop order; None when some
      account's `regions` cannot be iterated. */
  function AllPairs(accounts: seq<Dict>): Option<seq<Pair>>
  {
    if accounts == [] then Some([])
    else
      match (AllPairs(accounts[..|accounts| - 1]), ExpandRegions(accounts[|accounts| - 1]))
      case (Some(ps), Some(qs)) => Some(ps + qs)
      case _ => None
  }

  /** The number of entries in the accounts' `regions`, summed */
  function RegionCount(accounts: seq<Dict>): nat
  {
    if accounts == [] then 0
    else
      RegionCount(accounts[..|accounts| - 1]) +
      match Iter(Regions(accounts[|accounts| - 1]))
      case Some(regions) => |regions|
      case None => 0
  }

  /** Every pair has an account with an `account_id` */
  predicate Identified(ps: seq<Pair>)
  {
    forall j :: 0 <= j < |ps| ==> "account_id" in ps[j].account
  }

  /** How many of the publish calls `sent[0]`, `sent[1]`, ... succeed */
  function Accepted(sent: seq<EventPayload>, rt: Runtime): nat
  {
    if sent == [] then 0
    else Accepted(sent[..|sent| - 1], rt) + if rt.publish(|sent| - 1, sent[|sent| - 1]) then 1 else 0
  }

  /** The counters agree with the messages sent: `total_events` is the number
      of publish calls and `success_count` the number that succeeded. */
  predicate Consistent(run: Run, rt: Runtime)
  {
    |run.sent| == run.successCount + run.failureCount && run.successCount == Accepted(run.sent, rt)
  }

  /** The payloads the publish calls `n`, `n + 1`, ... carry for the pairs `ps` */
  function Payloads(ps: seq<Pair>, n: nat, rt: Runtime): (r: seq<EventPayload>)
    requires Identified(ps)
    ensures |r| == |ps|
  {
    seq(|ps|, j requires 0 <= j < |ps| => PayloadFor(ps[j], n + j, rt))
  }

  lemma IdentifiedAppend(ps: seq<Pair>, qs: seq<Pair>)
    ensures Identified(ps + qs) <==> Identified(ps) && Identified(qs)
  {
    if Identified(ps + qs) {
      forall j | 0 <= j < |ps| ensures "account_id" in ps[j].account {
        assert (ps + qs)[j] == ps[j];
      }
      forall j | 0 <= j < |qs| ensures "account_id" in qs[j].account {
        assert (ps + qs)[|ps| + j] == qs[j];
      }
    }
    if Identified(ps) && Identified(qs) {
      forall j | 0 <= j < |ps + qs| ensures "account_id" in (ps + qs)[j].account {
        if j >= |ps| {
          assert (ps + qs)[j] == qs[j - |ps|];
        }
      }
    }
  }

  lemma PayloadsSingle(p: Pair, n: nat, rt: Runtime)
    requires "account_id" in p.account
    ensures Identified([p]) && Payloads([p], n, rt) == [PayloadFor(p, n, rt)]
  {
  }

  /** The payloads of `ps + qs` are those of `ps` followed by those of `qs` */
  lemma PayloadsAppend(ps: seq<Pair>, qs: seq<Pair>, n: nat, rt: Runtime)
    requires Identified(ps) && Identified(qs)
    ensures Identified(ps + qs)
    ensures Payloads(ps + qs, n, rt) == Payloads(ps, n, rt) + Payloads(qs, n + |ps|, rt)
  {
    IdentifiedAppend(ps, qs);
    var l, r := Payloads(ps + qs, n, rt), Payloads(ps, n, rt) + Payloads(qs, n + |ps|, rt);
    forall j | 0 <= j < |l| ensures l[j] == r[j] {
      if j >= |ps| {
        assert (ps + qs)[j] == qs[j - |ps|];
      }
    }
  }

  /** One pass of the loop body publishes exactly one payload, or raises */
  lemma StepSpec(run: Run, p: Pair, rt: Runtime)
    requires !run.aborted && Consistent(run, rt)
    ensures Consistent(Step(run, p, rt), rt)
    ensures Step(run, p, rt).aborted <==> "account_id" !in p.account
    ensures !Step(run, p, rt).aborted ==> Step(run, p, rt).sent == run.sent + [PayloadFor(p, |run.sent|, rt)]
  {
    if "account_id" in p.account {
      var n := |run.sent|;
      var after := Step(run, p, rt);
      assert after.sent[..n] == run.sent;
    }
  }

  /** The inner loop publishes the payloads of all the pairs in order, unless
      some pair has no `account_id`; the counters stay consistent. */
  lemma {:induction false} StepAllSpec(run: Run, ps: seq<Pair>, rt: Runtime)
    requires !run.aborted && Consistent(run, rt)
    ensures Consistent(StepAll(run, ps, rt), rt)
    ensures StepAll(run, ps, rt).aborted <==> !Identified(ps)
    ensures !StepAll(run, ps, rt).aborted ==> StepAll(run, ps, rt).sent == run.sent + Payloads(ps, |run.sent|, rt)
  {
    if ps != [] {
      var init, last := ps[..|ps| - 1], ps[|ps| - 1];
      assert ps == init + [last];
      IdentifiedAppend(init, [last]);
      StepAllSpec(run, init, rt);
      var before := StepAll(run, init, rt);
      assert StepAll(run, ps, rt) == Step(before, last, rt);
      if !before.aborted {
        StepSpec(before, last, rt);
        if "account_id" in last.account {
          PayloadsSingle(last, |before.sent|, rt);
          PayloadsAppend(init, [last], |run.sent|, rt);
        }
      }
    }
  }

  /** The outer loop's pass over one more account, after the earlier
      accounts published the payloads of the pairs `ps` */
  lemma DispatchNextAccount(before: Run, ps: seq<Pair>, qs: seq<Pair>, rt: Runtime)
    requires !before.aborted && Consistent(before, rt)
    requires Identified(ps) && before.sent == Payloads(ps, 0, rt)
    ensures Consistent(StepAll(before, qs, rt), rt)
    ensures StepAll(before, qs, rt).aborted <==> !Identified(ps + qs)
    ensures !StepAll(before, qs, rt).aborted ==> StepAll(before, qs, rt).sent == Payloads(ps + qs, 0, rt)
  {
    StepAllSpec(before, qs, rt);
    IdentifiedAppend(ps, qs);
    if Identified(qs) {
      PayloadsAppend(ps, qs, 0, rt);
      var rest := Payloads(qs, |ps|, rt);
      assert |before.sent| == |ps| && 0 + |ps| == |ps|;
      assert Payloads(ps + qs, 0, rt) == before.sent + rest;
    }
  }

  /** The outer loop publishes the payloads of every pair of every account,
      in order, unless some `regions` cannot be iterated or some pair has no
      `account_id`; the counters stay consistent. */
  lemma {:induction false} DispatchSpec(accounts: seq<Dict>, rt: Runtime)
    ensures Consistent(Dispatch(accounts, rt), rt)
    ensures !Dispatch(accounts, rt).aborted <==> AllPairs(accounts).Some? && Identified(AllPairs(accounts).value)
    ensures !Dispatch(accounts, rt).aborted ==> Dispatch(accounts, rt).sent == Payloads(AllPairs(accounts).value, 0, rt)
  {
    if accounts != [] {
      var init, last := accounts[..|accounts| - 1], accounts[|accounts| - 1];
      DispatchSpec(init, rt);
      var before := Dispatch(init, rt);
      if !before.aborted {
        var ps := AllPairs(init).value;
        match ExpandRegions(last)
        case None =>
        case Some(qs) =>
          assert Dispatch(accounts, rt) == StepAll(before, qs, rt);
          assert AllPairs(accounts) == Some(ps + qs);
          DispatchNextAccount(before, ps, qs, rt);
      } else if AllPairs(accounts).Some? {
        var ps := AllPairs(init).value;
        var qs := ExpandRegions(last).value;
        assert AllPairs(accounts).value == ps + qs;
        IdentifiedAppend(ps, qs);
      }
    }
  }

  lemma {:induction false} AllPairsCount(accounts: seq<Dict>)
    ensures AllPairs(accounts).Some? ==> |AllPairs(accounts).value| == RegionCount(accounts)
  {
    if accounts != [] {
      AllPairsCount(accounts[..|accounts| - 1]);
      var last := accounts[|accounts| - 1];
      match ExpandRegions(last)
      case None =>
      case Some(qs) => assert |RegionsOf(qs)| == |qs|;
    }
  }

  /** What a completed run reports, and when a run ends in the 500 response:
      the summary counts the scanned and the active accounts; every pair is
      published exactly once, in order, so the successes and failures add up
      to the number of regions of the active accounts, and the successes are
      the publish calls that succeeded. The run fails exactly when the scan
      raises, a status is not a string, some `regions` cannot be iterated, or
      an active account with regions has no `account_id`. */
  lemma HandlerSummary(rs: seq<ScanResponse>, rt: Runtime, now: string)
    requires ScanEnds(rs)
    ensures Handle(rs, rt, now).response.Completed? <==>
      && ScanResult(rs).Some?
      && FilterActive(ScanResult(rs).value).Some?
      && AllPairs(FilterActive(ScanResult(rs).value).value).Some?
      && Identified(AllPairs(FilterActive(ScanResult(rs).value).value).value)
    ensures Handle(rs, rt, now).response.Completed? ==>
      var accounts := ScanResult(rs).value;
      var active := FilterActive(accounts).value;
      var pairs := AllPairs(active).value;
      var inv := Handle(rs, rt, now);
      && inv.response.body.totalAccounts == |accounts|
      && inv.response.body.activeAccounts == |active|
      && inv.response.body.totalEventsPublished + inv.response.body.failedEvents == |inv.sent| == RegionCount(active)
      && inv.response.body.totalEventsPublished == Accepted(inv.sent, rt)
      && inv.sent == Payloads(pairs, 0, rt)
  {
    match ScanResult(rs)
    case None =>
    case Some(accounts) =>
      match FilterActive(accounts)
      case None =>
      case Some(active) =>
        DispatchSpec(active, rt);
        AllPairsCount(active);
  }

  lemma {:induction false} StepAllKeepsAbort(run: Run, ps: seq<Pair>, k: nat, rt: Runtime)
    requires k <= |ps| && StepAll(run, ps[..k], rt).aborted
    ensures StepAll(run, ps, rt) == StepAll(run, ps[..k], rt)
    decreases |ps| - k
  {
    if k < |ps| {
      assert ps[..k + 1][..k] == ps[..k];
      StepAllKeepsAbort(run, ps, k + 1, rt);
    } else {
      assert ps[..k] == ps;
    }
  }

  lemma {:induction false} DispatchKeepsAbort(accounts: seq<Dict>, i: nat, rt: Runtime)
    requires i <= |accounts| && Dispatch(accounts[..i], rt).aborted
    ensures Dispatch(accounts, rt) == Dispatch(accounts[..i], rt)
    decreases |accounts| - i
  {
    if i < |accounts| {
      assert accounts[..i + 1][..i] == accounts[..i];
      DispatchKeepsAbort(accounts, i + 1, rt);
    } else {
      assert accounts[..i] == accounts;
    }
  }

  /** The per-pair `try`/`except` of `lambda_handler`: build the payload,
      publish it, count the outcome. `total_events` is the publish call's index. */
  method PublishPair(current: Run, p: Pair, rt: Runtime) returns (next: Run)
    requires !current.aborted
    ensures next == Step(current, p, rt)
  {
    var totalEvents := current.successCount + current.failureCount;
    var payload := CreatePayload(p.account, p.region, rt.clock(totalEvents));
    if payload.None? {
      // KeyError, raised again by the `except` branch's own message
      return current.(aborted := true);
    }
    var sent := current.sent + [payload.value];
    if rt.publish(totalEvents, payload.value) {
      next := Run(sent, current.successCount + 1, current.failureCount, false);
    } else {
      next := Run(sent, current.successCount, current.failureCount + 1, false);
    }
  }

  /** The inner loop of `lambda_handler` over the pairs of one account,
      continuing from the counters `run` holds. */
  method PublishPairs(run: Run, ps: seq<Pair>, rt: Runtime) returns (next: Run)
    requires !run.aborted
    ensures next == StepAll(run, ps, rt)
  {
    next := run;
    var k := 0;
    assert ps[..0] == [];
    while k < |ps|
      invariant 0 <= k <= |ps|
      invariant StepAll(run, ps[..k], rt) == next && !next.aborted
    {
      assert ps[..k + 1][..k] == ps[..k];
      next := PublishPair(next, ps[k], rt);
      if next.aborted {
        StepAllKeepsAbort(run, ps, k + 1, rt);
        return;
      }
      k := k + 1;
    }
    assert ps[..k] == ps;
  }

  /** The outer loop of `lambda_handler` over the active accounts */
  method DispatchLoop(active: seq<Dict>, rt: Runtime) returns (run: Run)
    ensures run == Dispatch(active, rt)
  {
    run := Start;
    var i := 0;
    while i < |active|
      invariant 0 <= i <= |active|
      invariant Dispatch(active[..i], rt) == run && !run.aborted
    {
      assert active[..i + 1][..i] == active[..i];
      var pairs := ExpandRegions(active[i]);
      if pairs.None? {
        DispatchKeepsAbort(active, i + 1, rt);
        return run.(aborted := true);
      }
      run := PublishPairs(run, pairs.value, rt);
      if run.aborted {
        DispatchKeepsAbort(active, i + 1, rt);
        return run;
      }
      i := i + 1;
    }
    assert active[..i] == active;
  }

  /** `lambda_handler`: scan, filter, dispatch, then the summary; an
      exception outside the per-pair `try` gives the 500 response. */
  method LambdaHandler(rs: seq<ScanResponse>, rt: Runtime, now: string) returns (response: Response, sent: seq<EventPayload>)
    requires ScanEnds(rs)
    ensures Invocation(response, sent) == Handle(rs, rt, now)
  {
    var scanned, _, _ := ScanAccountMetadata(rs);
    if scanned.None? {
      return Errored, [];
    }
    var accounts := scanned.value;
    var filtered := FilterActive(accounts);
    if filtered.None? {
      return Errored, [];
    }
    var active := filtered.value;
    var run := DispatchLoop(active, rt);
    sent := run.sent;
    if run.aborted {
      return Errored, sent;
    }
    response := Completed(Summary(|accounts|, |active|, run.successCount, run.failureCount, now));
  }
}
