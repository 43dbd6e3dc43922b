/**
 * `ServiceTitanTrigger.node.ts`: the webhook normaliser that turns one
 * received request into one flat record, and the registration state kept in
 * the workflow's static data.
 *
 * The received request (body and lower-cased headers), the configured event,
 * the node options and the current time (already formatted as ISO text) are
 * parameters.
 */
module Trigger {
  import opened Results
  import opened Json
  import Constants

  /** The values of the node's `event` option list, in the order shown. */
  const EVENT_OPTIONS: seq<string> := [
    "appointmentCompleted", "appointmentScheduled", "customerCreated", "estimateApproved", "invoiceCreated",
    "jobCompleted", "jobCreated", "leadCreated", "membershipCreated", "paymentReceived"
  ]

  /** The trigger node offers exactly the events of the shared `TRIGGER_EVENTS` table, in the same order. */
  lemma EventOptionsMatchTable()
    ensures Constants.Values(Constants.TRIGGER_EVENTS) == EVENT_OPTIONS
  {
  }

  // ---------------------------------------------------------------------------
  // Event-specific fields

  /**
   * How one output field is filled from `body.data`: a plain copy of
   * `data.<source>`, or an id read as `data.id || data.<fallback>`.
   */
  datatype FieldRule = Copy(target: string, source: string) | IdOr(target: string, fallback: string)

  function RuleValue(data: Value, rule: FieldRule): Value {
    match rule
    case Copy(_, source) => Member(data, source)
    case IdOr(_, fallback) => Or(Member(data, "id"), Member(data, fallback))
  }

  /** The assignments of the `switch (event)` case for a configured event; an unhandled event assigns nothing. */
  function ExtractionRules(event: string): seq<FieldRule> {
    if event == "jobCreated" || event == "jobCompleted" then
      [IdOr("jobId", "jobId"), Copy("jobNumber", "jobNumber"), Copy("customerId", "customerId"),
       Copy("locationId", "locationId"), Copy("status", "status")]
    else if event == "appointmentScheduled" || event == "appointmentCompleted" then
      [IdOr("appointmentId", "appointmentId"), Copy("jobId", "jobId"), Copy("technicianId", "technicianId"),
       Copy("scheduledStart", "start"), Copy("scheduledEnd", "end")]
    else if event == "customerCreated" then
      [IdOr("customerId", "customerId"), Copy("customerName", "name"), Copy("email", "email"), Copy("phone", "phone")]
    else if event == "invoiceCreated" then
      [IdOr("invoiceId", "invoiceId"), Copy("invoiceNumber", "number"), Copy("jobId", "jobId"),
       Copy("total", "total"), Copy("balance", "balance")]
    else if event == "paymentReceived" then
      [IdOr("paymentId", "paymentId"), Copy("invoiceId", "invoiceId"), Copy("amount", "amount"), Copy("paymentType", "type")]
    else if event == "leadCreated" then
      [IdOr("leadId", "leadId"), Copy("customerName", "customerName"), Copy("source", "source"), Copy("campaignId", "campaignId")]
    else if event == "membershipCreated" then
      [IdOr("membershipId", "membershipId"), Copy("membershipType", "membershipTypeId"),
       Copy("customerId", "customerId"), Copy("locationId", "locationId")]
    else if event == "estimateApproved" then
      [IdOr("estimateId", "estimateId"), Copy("jobId", "jobId"), Copy("total", "total"), Copy("approvedAt", "approvedAt")]
    else []
  }

  function Targets(rules: seq<FieldRule>): (ts: seq<string>)
    ensures |ts| == |rules| && forall i :: 0 <= i < |rules| ==> ts[i] == rules[i].target
  {
    seq(|rules|, i requires 0 <= i < |rules| => rules[i].target)
  }

  /** The assignments run one after the other on the record. */
  function ApplyRules(record: seq<Field>, data: Value, rules: seq<FieldRule>): seq<Field>
    decreases |rules|
  {
    if rules == [] then record
    else ApplyRules(Put(record, rules[0].target, RuleValue(data, rules[0])), data, rules[1..])
  }

  /** A key no rule assigns keeps its value. */
  lemma {:induction false} ApplyRulesElsewhere(record: seq<Field>, data: Value, rules: seq<FieldRule>, key: string)
    requires key !in Targets(rules)
    ensures Lookup(ApplyRules(record, data, rules), key) == Lookup(record, key)
    decreases |rules|
  {
    if rules != [] {
      assert Targets(rules[1..]) == Targets(rules)[1..];
      ApplyRulesElsewhere(Put(record, rules[0].target, RuleValue(data, rules[0])), data, rules[1..], key);
      LookupPut(record, rules[0].target, RuleValue(data, rules[0]), key);
    }
  }

  /** Every assigned key holds the value of the last rule that assigns it; here each key is assigned once. */
  lemma {:induction false} ApplyRulesAssigns(record: seq<Field>, data: Value, rules: seq<FieldRule>, i: int)
    requires 0 <= i < |rules|
    requires forall j, k :: 0 <= j < k < |rules| ==> rules[j].target != rules[k].target
    ensures Lookup(ApplyRules(record, data, rules), rules[i].target) == RuleValue(data, rules[i])
    decreases |rules|
  {
    var next := Put(record, rules[0].target, RuleValue(data, rules[0]));
    if i == 0 {
      assert rules[0].target !in Targets(rules[1..]);
      ApplyRulesElsewhere(next, data, rules[1..], rules[0].target);
      LookupPut(record, rules[0].target, RuleValue(data, rules[0]), rules[0].target);
    } else {
      ApplyRulesAssigns(next, data, rules[1..], i - 1);
    }
  }

  lemma {:induction false} ApplyRulesKeys(record: seq<Field>, data: Value, rules: seq<FieldRule>)
    ensures KeySet(ApplyRules(record, data, rules)) == KeySet(record) + set i | 0 <= i < |rules| :: rules[i].target
    decreases |rules|
  {
    if rules != [] {
      var next := Put(record, rules[0].target, RuleValue(data, rules[0]));
      KeySetPut(record, rules[0].target, RuleValue(data, rules[0]));
      ApplyRulesKeys(next, data, rules[1..]);
      var rest := set i | 0 <= i < |rules[1..]| :: rules[1..][i].target;
      var all := set i | 0 <= i < |rules| :: rules[i].target;
      assert all == {rules[0].target} + rest by {
        forall t | t in all ensures t in {rules[0].target} + rest {
          var i :| 0 <= i < |rules| && rules[i].target == t;
          if i > 0 { assert rules[1..][i - 1].target == t; }
        }
      }
    }
  }

  lemma {:induction false} ApplyRulesAbsent(record: seq<Field>, data: Value, rules: seq<FieldRule>, key: string)
    requires key !in KeySet(record) && key !in Targets(rules)
    ensures key !in KeySet(ApplyRules(record, data, rules))
    decreases |rules|
  {
    if rules != [] {
      assert Targets(rules[1..]) == Targets(rules)[1..];
      KeySetPut(record, rules[0].target, RuleValue(data, rules[0]));
      ApplyRulesAbsent(Put(record, rules[0].target, RuleValue(data, rules[0])), data, rules[1..], key);
    }
  }

  /** No two rules of `rules` assign the same key. */
  predicate TargetsDistinct(rules: seq<FieldRule>) {
    forall j, k :: 0 <= j < k < |rules| ==> rules[j].target != rules[k].target
  }

  lemma JobAndAppointmentTargetsDistinct(event: string)
    requires event in ["jobCreated", "jobCompleted", "appointmentScheduled", "appointmentCompleted"]
    ensures TargetsDistinct(ExtractionRules(event))
  {
  }

  lemma CustomerInvoicePaymentTargetsDistinct(event: string)
    requires event in ["customerCreated", "invoiceCreated", "paymentReceived"]
    ensures TargetsDistinct(ExtractionRules(event))
  {
  }

  lemma LeadMembershipEstimateTargetsDistinct(event: string)
    requires event in ["leadCreated", "membershipCreated", "estimateApproved"]
    ensures TargetsDistinct(ExtractionRules(event))
  {
  }

  /** The fields each handled event extracts, with no field assigned twice. */
  lemma ExtractionRulesDistinct(event: string)
    ensures forall j, k :: 0 <= j < k < |ExtractionRules(event)| ==> ExtractionRules(event)[j].target != ExtractionRules(event)[k].target
  {
    if event in ["jobCreated", "jobCompleted", "appointmentScheduled", "appointmentCompleted"] {
      JobAndAppointmentTargetsDistinct(event);
    } else if event in ["customerCreated", "invoiceCreated", "paymentReceived"] {
      CustomerInvoicePaymentTargetsDistinct(event);
    } else if event in ["leadCreated", "membershipCreated", "estimateApproved"] {
      LeadMembershipEstimateTargetsDistinct(event);
    } else {
      assert ExtractionRules(event) == [];
    }
  }

  /** The case list handles exactly the events the node offers. */
  lemma ExtractionRulesCoverEvents(event: string)
    ensures ExtractionRules(event) != [] <==> event in EVENT_OPTIONS
  {
  }

  /** The keys the normaliser itself writes. */
  predicate IsBaseKey(key: string) {
    key == "event" || key == "timestamp" || key == "webhookId" || key == "data" || key == "rawPayload" || key == "headers"
  }

  /** No rule of `rules` assigns a key the normaliser writes. */
  predicate SparesBase(rules: seq<FieldRule>) {
    forall i :: 0 <= i < |rules| ==> !IsBaseKey(rules[i].target)
  }

  lemma JobAndAppointmentRulesSpareBase(event: string)
    requires event in ["jobCreated", "jobCompleted", "appointmentScheduled", "appointmentCompleted"]
    ensures SparesBase(ExtractionRules(event))
  {
  }

  lemma CustomerInvoicePaymentRulesSpareBase(event: string)
    requires event in ["customerCreated", "invoiceCreated", "paymentReceived"]
    ensures SparesBase(ExtractionRules(event))
  {
  }

  lemma LeadMembershipEstimateRulesSpareBase(event: string)
    requires event in ["leadCreated", "membershipCreated", "estimateApproved"]
    ensures SparesBase(ExtractionRules(event))
  {
  }

  /** No extraction overwrites the normalised fields or the raw-data fields. */
  lemma ExtractionKeepsBaseFields(event: string)
    ensures forall key :: key in ["event", "timestamp", "webhookId", "data", "rawPayload", "headers"] ==> key !in Targets(ExtractionRules(event))
  {
    if event in ["jobCreated", "jobCompleted", "appointmentScheduled", "appointmentCompleted"] {
      JobAndAppointmentRulesSpareBase(event);
    } else if event in ["customerCreated", "invoiceCreated", "paymentReceived"] {
      CustomerInvoicePaymentRulesSpareBase(event);
    } else if event in ["leadCreated", "membershipCreated", "estimateApproved"] {
      LeadMembershipEstimateRulesSpareBase(event);
    } else {
      assert ExtractionRules(event) == [];
    }
    var ts := Targets(ExtractionRules(event));
    forall key | key in ["event", "timestamp", "webhookId", "data", "rawPayload", "headers"]
      ensures key !in ts
    {
      assert IsBaseKey(key);
    }
  }

  // ---------------------------------------------------------------------------
  // The normaliser (webhook)

  const EVENT_HEADER: string := "x-servicetitan-event"
  const WEBHOOK_ID_HEADER: string := "x-servicetitan-webhook-id"

  /** The four fields every record starts with. */
  function BaseRecord(received: Value, event: string, timestamp: string, headers: seq<Field>, body: Value, bodyData: Value): seq<Field> {
    [ Field("event", Or(received, Str(event))),
      Field("timestamp", Str(timestamp)),
      Field("webhookId", Or(Lookup(headers, WEBHOOK_ID_HEADER), Null)),
      Field("data", Or(bodyData, body)) ]
  }

  /**
   * `webhook`: the one record emitted for a received request. Reading
   * `eventType` or `data` from a missing body throws, which is the `Err` case.
   */
  function Webhook(body: Value, headers: seq<Field>, event: string, options: seq<Field>, timestamp: string): (r: Result<seq<Field>>)
    ensures r.Err? <==> body == Undefined || body == Null
  {
    var headerEvent := Lookup(headers, EVENT_HEADER);
    var received :- if Truthy(headerEvent) then Ok(headerEvent) else Get(body, "eventType");
    var bodyData :- Get(body, "data");
    var base := BaseRecord(received, event, timestamp, headers, body, bodyData);
    var withRaw := if Truthy(Lookup(options, "includeRawData")) then Put(Put(base, "rawPayload", body), "headers", Obj(headers)) else base;
    Ok(if Truthy(bodyData) then ApplyRules(withRaw, bodyData, ExtractionRules(event)) else withRaw)
  }

  /** The record before extraction, for a body that is present. */
  function Normalised(body: Value, headers: seq<Field>, event: string, options: seq<Field>, timestamp: string): seq<Field>
    requires body != Undefined && body != Null
  {
    var headerEvent := Lookup(headers, EVENT_HEADER);
    var received := if Truthy(headerEvent) then headerEvent else Member(body, "eventType");
    var base := BaseRecord(received, event, timestamp, headers, body, Member(body, "data"));
    if Truthy(Lookup(options, "includeRawData")) then Put(Put(base, "rawPayload", body), "headers", Obj(headers)) else base
  }

  lemma WebhookIsExtraction(body: Value, headers: seq<Field>, event: string, options: seq<Field>, timestamp: string)
    requires body != Undefined && body != Null
    ensures Webhook(body, headers, event, options, timestamp) == Ok(
      if Truthy(Member(body, "data"))
      then ApplyRules(Normalised(body, headers, event, options, timestamp), Member(body, "data"), ExtractionRules(event))
      else Normalised(body, headers, event, options, timestamp))
  {
  }

  lemma BaseRecordFields(received: Value, event: string, timestamp: string, headers: seq<Field>, body: Value, bodyData: Value)
    ensures var base := BaseRecord(received, event, timestamp, headers, body, bodyData);
      && Lookup(base, "event") == Or(received, Str(event))
      && Lookup(base, "timestamp") == Str(timestamp)
      && Lookup(base, "webhookId") == Or(Lookup(headers, WEBHOOK_ID_HEADER), Null)
      && Lookup(base, "data") == Or(bodyData, body)
      && KeySet(base) == {"event", "timestamp", "webhookId", "data"}
  {
    var base := BaseRecord(received, event, timestamp, headers, body, bodyData);
    LookupFirst(base, "timestamp", 1);
    LookupFirst(base, "webhookId", 2);
    LookupFirst(base, "data", 3);
    assert base[3..][1..] == [];
    assert KeySet(base[3..]) == {"data"};
    assert base[2..][1..] == base[3..];
    assert KeySet(base[2..]) == {"webhookId", "data"};
    assert base[1..][1..] == base[2..];
    assert KeySet(base[1..]) == {"timestamp", "webhookId", "data"};
  }

  /** Adding the raw payload and headers adds those two keys and changes no other. */
  lemma WithRawFields(base: seq<Field>, body: Value, headers: seq<Field>, key: string)
    ensures var raw := Put(Put(base, "rawPayload", body), "headers", Obj(headers));
      && KeySet(raw) == KeySet(base) + {"rawPayload", "headers"}
      && Lookup(raw, "rawPayload") == body
      && Lookup(raw, "headers") == Obj(headers)
      && (key != "rawPayload" && key != "headers" ==> Lookup(raw, key) == Lookup(base, key))
  {
    var half := Put(base, "rawPayload", body);
    KeySetPut(base, "rawPayload", body);
    KeySetPut(half, "headers", Obj(headers));
    LookupPut(half, "headers", Obj(headers), key);
    LookupPut(base, "rawPayload", body, key);
    LookupPut(half, "headers", Obj(headers), "rawPayload");
    LookupPut(base, "rawPayload", body, "rawPayload");
    LookupPut(half, "headers", Obj(headers), "headers");
  }

  /**
   * The normalised record: `event` prefers the header, then `body.eventType`,
   * then the configured event; `webhookId` falls back to `null`; `data` to
   * the whole body; the raw fields are there exactly when asked for.
   */
  lemma NormalisedFields(body: Value, headers: seq<Field>, event: string, options: seq<Field>, timestamp: string)
    requires body != Undefined && body != Null
    ensures var n := Normalised(body, headers, event, options, timestamp);
      && Lookup(n, "event") == Or(Or(Lookup(headers, EVENT_HEADER), Member(body, "eventType")), Str(event))
      && Lookup(n, "timestamp") == Str(timestamp)
      && Lookup(n, "webhookId") == Or(Lookup(headers, WEBHOOK_ID_HEADER), Null)
      && Lookup(n, "data") == Or(Member(body, "data"), body)
      && KeySet(n) == {"event", "timestamp", "webhookId", "data"}
           + (if Truthy(Lookup(options, "includeRawData")) then {"rawPayload", "headers"} else {})
      && (Truthy(Lookup(options, "includeRawData")) ==> Lookup(n, "rawPayload") == body && Lookup(n, "headers") == Obj(headers))
  {
    var headerEvent := Lookup(headers, EVENT_HEADER);
    var received := if Truthy(headerEvent) then headerEvent else Member(body, "eventType");
    var base := BaseRecord(received, event, timestamp, headers, body, Member(body, "data"));
    BaseRecordFields(received, event, timestamp, headers, body, Member(body, "data"));
    if Truthy(Lookup(options, "includeRawData")) {
      WithRawFields(base, body, headers, "event");
      WithRawFields(base, body, headers, "timestamp");
      WithRawFields(base, body, headers, "webhookId");
      WithRawFields(base, body, headers, "data");
    }
  }

  /**
   * The emitted record: `event`, `timestamp`, `webhookId` and `data` as
   * normalised, the raw payload and headers exactly when asked for, and the
   * fields of the configured event's case exactly when `body.data` is truthy.
   */
  lemma WebhookRecord(body: Value, headers: seq<Field>, event: string, options: seq<Field>, timestamp: string, key: string)
    requires body != Undefined && body != Null
    ensures var rec := Webhook(body, headers, event, options, timestamp).value;
      var n := Normalised(body, headers, event, options, timestamp);
      var rules := if Truthy(Member(body, "data")) then ExtractionRules(event) else [];
      && KeySet(rec) == KeySet(n) + (set i | 0 <= i < |rules| :: rules[i].target)
      && (key !in Targets(rules) ==> Lookup(rec, key) == Lookup(n, key))
      && (forall i :: 0 <= i < |rules| ==> Lookup(rec, rules[i].target) == RuleValue(Member(body, "data"), rules[i]))
  {
    WebhookIsExtraction(body, headers, event, options, timestamp);
    var n := Normalised(body, headers, event, options, timestamp);
    var data := Member(body, "data");
    var rules := if Truthy(data) then ExtractionRules(event) else [];
    ApplyRulesKeys(n, data, rules);
    if key !in Targets(rules) {
      ApplyRulesElsewhere(n, data, rules, key);
    }
    ExtractionRulesDistinct(event);
    forall i | 0 <= i < |rules|
      ensures Lookup(ApplyRules(n, data, rules), rules[i].target) == RuleValue(data, rules[i])
    {
      ApplyRulesAssigns(n, data, rules, i);
    }
  }

  /** The `customerCreated` case reads the customer id first and assigns neither `event` nor `jobId`. */
  lemma CustomerCreatedRules()
    ensures var rules := ExtractionRules("customerCreated");
      && |rules| == 4 && rules[0] == IdOr("customerId", "customerId")
      && "event" !in Targets(rules) && "jobId" !in Targets(rules)
      && forall j, k :: 0 <= j < k < |rules| ==> rules[j].target != rules[k].target
  {
    var rules := ExtractionRules("customerCreated");
    assert rules == [IdOr("customerId", "customerId"), Copy("customerName", "name"), Copy("email", "email"), Copy("phone", "phone")];
    assert Targets(rules) == ["customerId", "customerName", "email", "phone"];
  }

  /**
   * The extracted fields follow the configured event, not the received one:
   * a `jobCompleted` delivery to a node configured for `customerCreated`
   * reports `event: "jobCompleted"` but extracts `customerId` from the data
   * and no `jobId`.
   */
  lemma ExtractionFollowsConfiguredEvent(body: Value, timestamp: string)
    requires body.Obj? && Member(body, "eventType") == Str("jobCompleted") && Truthy(Member(body, "data"))
    ensures var rec := Webhook(body, [], "customerCreated", [], timestamp).value;
      var data := Member(body, "data");
      && Lookup(rec, "event") == Str("jobCompleted")
      && Lookup(rec, "customerId") == Or(Member(data, "id"), Member(data, "customerId"))
      && "jobId" !in KeySet(rec)
  {
    var data := Member(body, "data");
    var rules := ExtractionRules("customerCreated");
    CustomerCreatedRules();
    var n := Normalised(body, [], "customerCreated", [], timestamp);
    WebhookIsExtraction(body, [], "customerCreated", [], timestamp);
    NormalisedFields(body, [], "customerCreated", [], timestamp);
    ApplyRulesElsewhere(n, data, rules, "event");
    ApplyRulesAssigns(n, data, rules, 0);
    ApplyRulesAbsent(n, data, rules, "jobId");
  }

  // ---------------------------------------------------------------------------
  // Registration state (webhookMethods.default)

  /** `checkExists`: strict equality of the stored URL with the current one (an absent key reads as `undefined`). */
  predicate Registered(staticData: seq<Field>, webhookUrl: Value) {
    Lookup(staticData, "webhookUrl") == webhookUrl
  }

  /** `create`: the URL and the event are stored. */
  function Registering(staticData: seq<Field>, webhookUrl: Value, event: string): seq<Field> {
    Put(Put(staticData, "webhookUrl", webhookUrl), "event", Str(event))
  }

  /** `delete`: both keys are removed. */
  function Unregistering(staticData: seq<Field>): seq<Field> {
    Delete(Delete(staticData, "webhookUrl"), "event")
  }

  /** After `create`, `checkExists` holds for the same URL and the configured event is stored. */
  lemma CreateThenExists(staticData: seq<Field>, webhookUrl: Value, event: string)
    ensures Registered(Registering(staticData, webhookUrl, event), webhookUrl)
    ensures Lookup(Registering(staticData, webhookUrl, event), "event") == Str(event)
  {
    LookupPut(Put(staticData, "webhookUrl", webhookUrl), "event", Str(event), "webhookUrl");
    LookupPut(staticData, "webhookUrl", webhookUrl, "webhookUrl");
    LookupPut(Put(staticData, "webhookUrl", webhookUrl), "event", Str(event), "event");
  }

  /** `create` and `delete` touch no other key of the static data. */
  lemma RegistrationKeepsOtherKeys(staticData: seq<Field>, webhookUrl: Value, event: string, key: string)
    requires key != "webhookUrl" && key != "event"
    ensures Lookup(Registering(staticData, webhookUrl, event), key) == Lookup(staticData, key)
    ensures Lookup(Unregistering(staticData), key) == Lookup(staticData, key)
  {
    LookupPut(Put(staticData, "webhookUrl", webhookUrl), "event", Str(event), key);
    LookupPut(staticData, "webhookUrl", webhookUrl, key);
    LookupDelete(Delete(staticData, "webhookUrl"), "event", key);
    LookupDelete(staticData, "webhookUrl", key);
  }

  /**
   * After `delete`, both keys are gone and `checkExists` fails for every
   * URL, except when the current URL is itself `undefined`.
   */
  lemma DeleteThenAbsent(staticData: seq<Field>, webhookUrl: Value)
    ensures "webhookUrl" !in KeySet(Unregistering(staticData)) && "event" !in KeySet(Unregistering(staticData))
    ensures Registered(Unregistering(staticData), webhookUrl) <==> webhookUrl == Undefined
  {
    LookupDelete(Delete(staticData, "webhookUrl"), "event", "webhookUrl");
    LookupDelete(staticData, "webhookUrl", "webhookUrl");
    KeySetDelete(Delete(staticData, "webhookUrl"), "event");
    KeySetDelete(staticData, "webhookUrl");
  }

  /** The node's workflow static data, which persists between activations. */
  class Registration {
    var staticData: seq<Field>

    constructor (staticData: seq<Field>)
      ensures this.staticData == staticData
    {
      this.staticData := staticData;
    }

    method CheckExists(webhookUrl: Value) returns (exists_: bool)
      ensures exists_ <==> Registered(staticData, webhookUrl)
    {
      exists_ := Lookup(staticData, "webhookUrl") == webhookUrl;
    }

    method Create(webhookUrl: Value, event: string) returns (ok: bool)
      modifies this
      ensures staticData == Registering(old(staticData), webhookUrl, event) && ok
    {
      staticData := Put(staticData, "webhookUrl", webhookUrl);
      staticData := Put(staticData, "event", Str(event));
      ok := true;
    }

    method Delete() returns (ok: bool)
      modifies this
      ensures staticData == Unregistering(old(staticData)) && ok
    {
      staticData := Json.Delete(staticData, "webhookUrl");
      staticData := Json.Delete(staticData, "event");
      ok := true;
    }
  }
}
