# Network inventory Lambdas, modelled in Dafny

The system collects the network inventory of many AWS accounts in two steps.

- **Producer Lambda.**
  - Scans the account registry table, reading it page by page.
  - Keeps the accounts whose `status` is `active` in any letter case.
  - Expands each kept account into one (account, region) pair per entry of its `regions`.
  - Publishes one event per pair to an SNS topic. A failed publish is counted, and the loop goes on.
  - Answers with a summary of the counts. Any other exception gives a 500 response.
- **Consumer Lambda.**
  - Receives the events as SQS records. It unwraps the SNS notification from the record's body, then the payload from the notification's `Message`.
  - Obtains an EC2 client. For the Lambda's own account this is a local client. For any other account it assumes the account's read-only role.
  - Runs three collectors that turn the VPC, subnet and security-group descriptions into flat records.
  - Stores each non-empty group as one JSON Lines object in S3. Every record is merged with a shared metadata envelope.
  - A failure on one record is counted, and the batch goes on.

The cloud services are oracles:

- **Scan.** The table's successive answers to `scan`, as a sequence.
- **Publish.** Whether the j-th publish call succeeds.
- **Consumer cloud calls.** For record i, `world(i)` gives:
  - the caller identity;
  - `assume_role`;
  - whether an EC2 client can be built for the region;
  - the `describe_*` calls;
  - the two clock readings;
  - whether an S3 put succeeds.
- **JSON.** Encoding and decoding are functions passed in.

Each handler keeps its own form:

- Loops that update counters or extend lists are methods with loop invariants. Each method is proved equal to a specification function.
- Comprehensions and expressions are functions.

Modules:

- `PyValues` (`python_values.dfy`): Python values, dicts, `get`, `len`, iteration and f-string text.
- `Producer` (`producer.dfy`): the producer handler.
- `Broker`, `Collectors`, `Lines`, `Storage`, `Consumer`: the consumer, one module per concern.
- `Pipeline`: connects the two. A published payload decodes, on the consumer side, to the work item of its pair, provided `json.loads` reads back exactly the dict that the producer's `json.dumps` wrote. That holds when every field of the payload is a native JSON value; see "## Left out" for `default=str`.

Where the code differs from the design description, the model follows the code:

- Duplicate entries of `regions` are kept. They are not collapsed.
- On a key collision between the envelope and a resource record, the resource's field wins: `{**base_metadata, **vpc}`. No collector emits an envelope key, so the case never arises (`Storage.EnvelopeSurvives`).
- The object key's stamp is `strftime('%Y%m%d-%H%M%S')`, with one-second resolution. Distinct stamps give distinct keys (`Storage.StampDeterminesKey`). Two invocations for one account and region within the same second therefore write the same key, and the later one overwrites the earlier one.
- An active account with regions but no `account_id` makes the producer answer 500. `create_event_payload` raises KeyError. The `except` branch then raises again, because its message subscripts `account_data['account_id']`, and that exception leaves the loop.

## Model

| member | source | states |
|---|---|---|
| `Producer.LastCall` | lambda/producer/lambda_function.py:89-90 | the scan stops at the first answer that raised or has no `LastEvaluatedKey`; every earlier answer carried one |
| `Producer.ScanResult` | lambda/producer/lambda_function.py:78-96 | None when a scan call raised, else the items of the pages read, in page order |
| `Producer.ConcatMembers` | lambda/producer/lambda_function.py:86-91 | an item is among the items of the first pages read exactly when one of those pages holds it |
| `Producer.ScanReturnsPagesRead` | lambda/producer/lambda_function.py:85-93 | an account is in a successful scan's result exactly when it is on one of the pages read, those up to the first answer without a continuation key |
| `Producer.ScanAccountMetadata` | lambda/producer/lambda_function.py:78-96 | the paging loop makes one call per page up to the final one, returns the items in page order, and re-raises a scan error (None); the first call passes no `ExclusiveStartKey` and each later call passes the `LastEvaluatedKey` of the page before it |
| `Producer.StartsSpec` | lambda/producer/lambda_function.py:85-90 | the start keys of the first n calls: none for the first, then each earlier page's `LastEvaluatedKey` |
| `Producer.IsActive` | lambda/producer/lambda_function.py:102 | the comparison `acc.get('status', '').lower() == 'active'` for a string status; a missing status is the empty string and is not active |
| `Producer.FilterActive` | lambda/producer/lambda_function.py:98-102 | the kept accounts are never more than the input |
| `Producer.FilterActiveSpec` | lambda/producer/lambda_function.py:98-102 | keeps exactly the accounts whose lower-cased status is `active`; a missing status is excluded; raises exactly when some status is not a string |
| `Producer.FilterActiveAppend` | lambda/producer/lambda_function.py:102 | filtering distributes over concatenation, so kept accounts stay in input order |
| `Producer.ExpandRegions` | lambda/producer/lambda_function.py:104-114 | one pair per element of `regions`, in order and with duplicates, all with the same account; a missing `regions` gives no pairs; a non-iterable one raises |
| `Producer.CreatePayload` | lambda/producer/lambda_function.py:116-126 | copies `account_id` and `region`, defaults `account_name` to `Unknown` and `business_unit` to None, stamps `now + "Z"`; raises exactly when `account_id` is missing |
| `Producer.Subject` | lambda/producer/lambda_function.py:136 | the f-string `Network Data Collection - <account_id> - <region>` |
| `Producer.SubjectIdentifiesPair` | lambda/producer/lambda_function.py:136 | the subject `Network Data Collection - <account_id> - <region>` names its pair: for account ids of one length, equal subjects have equal account and region |
| `Producer.Payloads` | lambda/producer/lambda_function.py:38-41 | the payloads of a run of pairs, one per pair |
| `Producer.PayloadsAppend` | lambda/producer/lambda_function.py:35-41 | the payloads of two runs of pairs are those of the first followed by those of the second |
| `Producer.Step` | lambda/producer/lambda_function.py:39-48 | one pass of the per-pair `try`: publish the payload and count it, or raise on a missing `account_id` |
| `Producer.StepAll` | lambda/producer/lambda_function.py:38-48 | the inner loop over one account's pairs |
| `Producer.Dispatch` | lambda/producer/lambda_function.py:35-48 | the outer loop over the active accounts |
| `Producer.StepSpec` | lambda/producer/lambda_function.py:39-48 | one pass of the per-pair `try` publishes exactly one payload and counts it as a success or a failure, or raises when `account_id` is missing |
| `Producer.StepAllSpec` | lambda/producer/lambda_function.py:38-48 | the inner loop publishes every pair's payload in order with consistent counters, and raises exactly when some pair lacks `account_id` |
| `Producer.DispatchSpec` | lambda/producer/lambda_function.py:35-48 | the outer loop publishes the payloads of all pairs of all active accounts in order with consistent counters; it raises exactly when some `regions` cannot be iterated or some pair lacks `account_id` |
| `Producer.AllPairsCount` | lambda/producer/lambda_function.py:35-38 | the number of pairs is the sum over the active accounts of the lengths of their `regions` |
| `Producer.Handle` | lambda/producer/lambda_function.py:15-76 | the handler: scan, filter, dispatch, then the summary or the 500 response |
| `Producer.HandlerSummary` | lambda/producer/lambda_function.py:21-76 | status 200 exactly when the scan, the filter and the expansion succeed and every pair has an account id; then `total_accounts`, `active_accounts`, `total_events_published` (the accepted publishes) and `failed_events` add up as the code promises |
| `Producer.StepAllKeepsAbort` | lambda/producer/lambda_function.py:38-48 | once an exception leaves the inner loop, the later pairs change nothing |
| `Producer.DispatchKeepsAbort` | lambda/producer/lambda_function.py:35-48 | once an exception leaves the outer loop, the later accounts change nothing |
| `Producer.PublishPair` | lambda/producer/lambda_function.py:39-48 | the per-pair `try` is one step of the loop's specification |
| `Producer.PublishPairs` | lambda/producer/lambda_function.py:38-48 | the inner loop computes the specification of the pairs of one account |
| `Producer.DispatchLoop` | lambda/producer/lambda_function.py:35-48 | the outer loop computes the specification of the active accounts |
| `Producer.LambdaHandler` | lambda/producer/lambda_function.py:15-76 | the handler's response and the payloads it published are those of the specification `Handle` |
| `Broker.RoleArn` | lambda/consumer/lambda_function.py:91 | the f-string `arn:aws:iam::<account_id>:role/NetworkDataCollectionReadOnly` |
| `Broker.SessionName` | lambda/consumer/lambda_function.py:96 | the f-string `NetworkDataCollection-<account_id>-<region>` |
| `Broker.RequestFor` | lambda/consumer/lambda_function.py:93-97 | the `assume_role` request: the role ARN and session name of the account and region |
| `Broker.ArnAccount` | lambda/consumer/lambda_function.py:91 | parses a read-only role ARN back to its account |
| `Broker.RoleArnNamesAccount` | lambda/consumer/lambda_function.py:91 | `arn:aws:iam::<account_id>:role/NetworkDataCollectionReadOnly` parses back to exactly its account |
| `Broker.RoleArnInjective` | lambda/consumer/lambda_function.py:91 | distinct accounts assume distinct roles |
| `Broker.SessionNameIdentifiesPair` | lambda/consumer/lambda_function.py:96 | `NetworkDataCollection-<account_id>-<region>` determines the account and region, for account ids of one length |
| `Broker.CredentialsOf` | lambda/consumer/lambda_function.py:99-106 | credentials exist exactly when the response holds `Credentials` with all three keys |
| `Broker.GetEc2Client` | lambda/consumer/lambda_function.py:82-110 | no caller identity, no client; the own account gets a local client without credentials; any other account gets the credentials answered for exactly its role request; a failed or malformed answer, or a region the client cannot be built for, propagates |
| `Broker.OwnAccountAssumesNoRole` | lambda/consumer/lambda_function.py:86-89 | on the own account the answer of `assume_role` makes no difference |
| `Broker.OtherAccountAssumesItsRole` | lambda/consumer/lambda_function.py:91-107 | a client for another account carries assumed credentials for the region asked for, from the ARN naming that account |
| `Collectors.RuleCount` | lambda/consumer/lambda_function.py:159-160 | a rule count is the length of the permission list, 0 when absent; `len` failing raises |
| `Collectors.Normalise` | lambda/consumer/lambda_function.py:116-163 | a record has exactly its group's schema, copies the identifying fields and takes the defaults `is_default` False, `tags` [], `vpc_id` `N/A`, rule counts 0; it fails exactly when the element is not a dict, misses a required field or a rule list has no length |
| `Collectors.NormaliseFields` | lambda/consumer/lambda_function.py:116-163 | every field of a record: required fields copied, optional fields copied when present and defaulted otherwise, rule counts equal to the lengths of `IpPermissions` and `IpPermissionsEgress` |
| `Collectors.NormaliseAll` | lambda/consumer/lambda_function.py:116-125 | the comprehension succeeds exactly when every element normalises, giving one record per element in order |
| `Collectors.Described` | lambda/consumer/lambda_function.py:115-125 | the list under the response's `Vpcs`, `Subnets` or `SecurityGroups`; None when the call raised, the key is missing or the value cannot be iterated |
| `Collectors.Collect` | lambda/consumer/lambda_function.py:112-167 | all or nothing: one normalised record per described resource in input order, or `[]` when the call fails or any element fails |
| `Consumer.WorkItemOf` | lambda/consumer/lambda_function.py:58-61 | `account_id`, `region` and `account_name` are required and copied; `business_unit` is None when absent |
| `Consumer.Unwrap` | lambda/consumer/lambda_function.py:26-27 | a record yields a payload only when it is a dict with a string body, and the payload is the decoding of the decoded body's `Message` |
| `Consumer.UnwrapDecodes` | lambda/consumer/lambda_function.py:26-27 | conversely, a body that decodes to a dict whose `Message` decodes to a dict yields exactly that dict |
| `Consumer.DecodeWorkItem` | lambda/consumer/lambda_function.py:26-31 | the work item of a record: the unwrapped payload with its required fields, None where a step raises |
| `Consumer.CollectNetworkData` | lambda/consumer/lambda_function.py:54-80 | succeeds exactly when a client is obtained; carries the work item's fields and the collection time with `Z`; each group is its own collector's result on that client, with the collector's schema |
| `Consumer.Attempt` | lambda/consumer/lambda_function.py:26-34 | the files a record asks to store; None when decoding or obtaining a client raises |
| `Consumer.Store` | lambda/consumer/lambda_function.py:35-43 | storing the plan: the files written up to the first rejected put, and success exactly when all are written |
| `Consumer.Process` | lambda/consumer/lambda_function.py:24-43 | the per-record `try`: attempt, then store |
| `Consumer.ProcessOutcome` | lambda/consumer/lambda_function.py:24-44 | a record counts as processed exactly when it decodes, gets a client and every planned file is accepted; every file it wrote was accepted |
| `Consumer.StoreOutcome` | lambda/consumer/lambda_function.py:35-43 | storing succeeds exactly when there is a plan and every put of it is accepted, and only accepted files are written |
| `Consumer.CountOkIndices` | lambda/consumer/lambda_function.py:20-44 | the processed count is the number of records that succeed each on its own, never more than the batch |
| `Consumer.ProcessRecord` | lambda/consumer/lambda_function.py:24-44 | the per-record `try` computes the record's specified outcome |
| `Consumer.LambdaHandler` | lambda/consumer/lambda_function.py:14-52 | status 200; every record is attempted; `processed + failed` is the number of records; the files written are each record's in turn |
| `Storage.Envelope` | lambda/consumer/lambda_function.py:179-185 | the envelope has exactly the five metadata keys |
| `Storage.EnvelopeFields` | lambda/consumer/lambda_function.py:179-185 | each envelope key holds the matching field of `network_data` |
| `Storage.SchemaAvoidsEnvelope` | lambda/consumer/lambda_function.py:116-163 | no collector field is named like an envelope field |
| `Storage.Enrich` | lambda/consumer/lambda_function.py:189-192 | one record per resource in order, with the union of the keys; resource fields override the envelope, other envelope fields are kept |
| `Storage.EnvelopeSurvives` | lambda/consumer/lambda_function.py:191 | for collector records every envelope field reaches the stored record unchanged |
| `Storage.KindName` | lambda/consumer/lambda_function.py:194-228 | the `resource_type` of each block, `vpcs`, `subnets` and `security_groups`, the first segment of the key |
| `Storage.StorageKey` | lambda/consumer/lambda_function.py:239 | the f-string `<prefix><resource_type>/account=<id>/region=<region>/data-<stamp>.json` |
| `Storage.KindsGetDistinctKeys` | lambda/consumer/lambda_function.py:239 | the three groups of one message never share a key |
| `Storage.KeyEndsWithStamp` | lambda/consumer/lambda_function.py:239 | every key ends with `/data-<timestamp>.json` |
| `Storage.StampDeterminesKey` | lambda/consumer/lambda_function.py:239 | for one account, region and resource type, equal keys have equal stamps: runs at different stamps never share a key |
| `Storage.FlatFile` | lambda/consumer/lambda_function.py:234-255 | the object `store_flat_file` puts: its key and the newline-joined JSON texts of its records |
| `Storage.JsonTexts` | lambda/consumer/lambda_function.py:242 | one JSON text per record, in record order |
| `Storage.GroupPut` | lambda/consumer/lambda_function.py:188-200 | the `store_flat_file` call of a block: the group's records merged with the envelope, under the block's `resource_type`, the message's account and region, and the call's stamp |
| `Storage.GroupFileLines` | lambda/consumer/lambda_function.py:242 | a group's body splits back into the JSON texts of its enriched records, in order, with n - 1 newlines for n records |
| `Storage.GroupPlan` | lambda/consumer/lambda_function.py:188-200 | one group block: no file for an empty group, else the group's file |
| `Storage.PlannedKinds` | lambda/consumer/lambda_function.py:187-230 | the kinds of the non-empty groups, in block order |
| `Storage.Plan` | lambda/consumer/lambda_function.py:187-230 | the files of the three blocks in order |
| `Storage.PlannedKindsSpec` | lambda/consumer/lambda_function.py:188-230 | the groups written are exactly the non-empty ones, in the order vpcs, subnets, security_groups |
| `Storage.PlanFollowsKinds` | lambda/consumer/lambda_function.py:187-230 | one file per non-empty group, in that order, under pairwise distinct keys |
| `Storage.PlanSharesStamp` | lambda/consumer/lambda_function.py:176 | all files of one call carry its one timestamp |
| `Storage.Written` | lambda/consumer/lambda_function.py:244-255 | the files written are a prefix of the plan, all accepted, stopping exactly at the first rejected put |
| `Storage.WrittenAppend` | lambda/consumer/lambda_function.py:187-230 | a later group is written only when every earlier one was |
| `Storage.WrittenThree` | lambda/consumer/lambda_function.py:187-230 | the three group blocks run in turn; a block writes only when every earlier file was accepted |
| `Storage.EnrichGroup` | lambda/consumer/lambda_function.py:189-192 | the append loop builds exactly the enriched records |
| `Storage.StoreGroup` | lambda/consumer/lambda_function.py:188-200 | one group block writes nothing for an empty group, else the group's file if the put succeeds |
| `Storage.StoreToS3` | lambda/consumer/lambda_function.py:169-232 | writes the plan up to the first failed put; succeeds exactly when the whole plan is written |
| `Lines.JoinLines` | lambda/consumer/lambda_function.py:242 | `'\n'.join`: separators between the lines, none after the last |
| `Lines.SplitJoin` | lambda/consumer/lambda_function.py:242 | splitting `'\n'.join(lines)` gives back the lines, when none contains a newline |
| `Lines.JoinNewlines` | lambda/consumer/lambda_function.py:242 | n lines give n - 1 newlines, and the body ends with the last line |
| `Pipeline.PublishedPayloadDecodes` | lambda/consumer/lambda_function.py:26-27 | when `json.loads` reads back exactly the payload's dict, the consumer's two-level unwrap undoes the producer's publish: the work item holds the payload's account id, region, account name and business unit |
| `Pipeline.PublishedPairsDecode` | lambda/producer/lambda_function.py:116-141 | when `json.loads` reads back exactly the payload's dict, every payload of a completed producer run decodes to its pair's account id and region, with the producer's defaults |

## Left out

- AWS calls: the DynamoDB scan, SNS publish, STS identity and assume-role, EC2 describe and S3 put. Each is an oracle that answers or fails, chosen by the caller of the model.
- JSON text. `json.loads` and `json.dumps` (with `default=str`) are functions passed in. Only the newline join of the JSON texts and the object key are modelled.
- Clocks. `datetime.utcnow()`, `isoformat` and `strftime` readings are given as strings.
- The SNS subject is not kept in the list of published payloads. It is a function of the payload (`Producer.Subject`), and the publish oracle is told which payload it carries.
- Other deployment concerns:
  - environment variables and module-level client construction;
  - logging with `print` and `traceback`;
  - the message text of the 500 response;
  - the Lambda runtime, redelivery and concurrency.
- Producer.ScanAccountMetadata: a scan that never reaches a last page is not modelled. The table's answers are a finite sequence that ends. The table is not a function of the `ExclusiveStartKey` it is passed: the method reports the key each call passes (`starts`), and the k-th answer is taken to be the table's answer to the k-th call.
- Iterating a dict, such as a `regions` or `Records` value that is a dict, is not modelled. Iteration over a dict is treated as raising. A set of regions is the list that `list(set)` produced, in an unspecified order.
- `str.lower()` is modelled on ASCII letters only. This is exact for the comparison with `active`.
- F-string rendering of non-string values goes through an abstract `show` function. This covers account ids, regions and role strings that are not strings.
- Consumer.LambdaHandler: it takes the list `event['Records']`. An event without `Records`, or with a non-list value there, is not modelled.
- A record body given as bytes is treated as not decodable.
- `json.dumps(payload, default=str)` in the producer turns a value that is not native JSON into its string: a DynamoDB number (`Decimal`) `account_id` or a set `business_unit`, for instance. The consumer then reads a string where the payload held another value. `Pipeline.PublishedPayloadDecodes` and `Pipeline.PublishedPairsDecode` assume that `json.loads` gives back exactly the payload's dict, so they do not cover such payloads.
