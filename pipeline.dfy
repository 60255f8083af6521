/** The two handlers together: the payload the producer publishes reaches
    the consumer inside the SNS notification that SQS delivers as a
    record's body, and the consumer reads back the account and region it
    names. */
module Pipeline {
  import opened PyValues
  import Producer
  import Consumer

  /** The SQS record whose body is the JSON text of the SNS notification */
  function Delivered(bodyText: string): Value
  {
    Obj(map["body" := Str(bodyText)])
  }

  /** Decoding undoes publishing: when `json.loads` reads back the JSON texts
      the producer and SNS wrote, the consumer's work item holds exactly the
      payload's account id, region, account name and business unit. */
  lemma PublishedPayloadDecodes(
    loads: string -> Option<Value>, payload: Producer.EventPayload,
    notification: map<string, Value>, bodyText: string, messageText: string)
    requires loads(bodyText) == Some(Obj(notification))
    requires "Message" in notification && notification["Message"] == Str(messageText)
    requires loads(messageText) == Some(Obj(Producer.AsDict(payload)))
    ensures Consumer.DecodeWorkItem(loads, Delivered(bodyText))
      == Some(Consumer.WorkItem(payload.accountId, payload.region, payload.accountName, payload.businessUnit))
  {
    var record := Delivered(bodyText);
    assert Consumer.Unwrap(loads, record) == Some(Producer.AsDict(payload));
  }

  /** Every payload a completed producer run publishes decodes to the work
      item of the pair it was built for, with the defaults the producer
      filled in: `Unknown` for a missing account name, None for a missing
      business unit. */
  lemma PublishedPairsDecode(
    rs: seq<Producer.ScanResponse>, rt: Producer.Runtime, now: string, j: nat,
    loads: string -> Option<Value>, notification: map<string, Value>, bodyText: string, messageText: string)
    requires Producer.ScanEnds(rs)
    requires Producer.Handle(rs, rt, now).response.Completed?
    requires j < |Producer.Handle(rs, rt, now).sent|
    requires loads(bodyText) == Some(Obj(notification))
    requires "Message" in notification && notification["Message"] == Str(messageText)
    requires loads(messageText) == Some(Obj(Producer.AsDict(Producer.Handle(rs, rt, now).sent[j])))
    ensures Producer.ScanResult(rs).Some?
    ensures Producer.FilterActive(Producer.ScanResult(rs).value).Some?
    ensures Producer.AllPairs(Producer.FilterActive(Producer.ScanResult(rs).value).value).Some?
    ensures
      var pairs := Producer.AllPairs(Producer.FilterActive(Producer.ScanResult(rs).value).value).value;
      && j < |pairs| && "account_id" in pairs[j].account
      && var account := pairs[j].account;
         Consumer.DecodeWorkItem(loads, Delivered(bodyText)) == Some(Consumer.WorkItem(
           account["account_id"], pairs[j].region,
           Get(account, "account_name", Str("Unknown")), Get(account, "business_unit", Null)))
  {
    Producer.HandlerSummary(rs, rt, now);
    PublishedPayloadDecodes(loads, Producer.Handle(rs, rt, now).sent[j], notification, bodyText, messageText);
  }
}
