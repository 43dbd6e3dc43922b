/**
 * The action node's `execute`: a loop over the input items that reads each
 * item's `resource` and `operation`, dispatches through two levels of string
 * switches to a handler, and either collects the handler's output or, with
 * continue-on-fail, one error item in its place.
 *
 * The handlers themselves (the action modules) are an oracle: given the
 * selected handler and the item index they succeed with some output items or
 * fail with a message.
 */
module Node {
  import opened Results
  import opened Json
  import opened Constants
  import opened Helpers

  /** The handler a dispatcher selects: `<resource>Actions.<operation>`. */
  datatype Handler = Handler(resource: string, operation: string)

  /** One `case` of the resource switch with the case list of the dispatcher it calls. */
  datatype Dispatcher = Dispatcher(resource: string, cases: seq<string>)

  // ---------------------------------------------------------------------------
  // The switches, in their source order

  const CUSTOMER_CASES: seq<string> := [
    "listCustomers", "getCustomer", "createCustomer", "updateCustomer", "getCustomerContacts",
    "addCustomerContact", "getCustomerLocations", "getCustomerNotes", "addCustomerNote", "getCustomerEquipment"]
  const LOCATION_CASES: seq<string> := [
    "listLocations", "getLocation", "createLocation", "updateLocation", "getLocationEquipment", "getLocationHistory"]
  const JOB_CASES: seq<string> := [
    "listJobs", "getJob", "createJob", "updateJob", "cancelJob", "completeJob", "getJobAppointments",
    "getJobInvoices", "getJobHistory", "getJobNotes", "addJobNote"]
  const APPOINTMENT_CASES: seq<string> := [
    "listAppointments", "getAppointment", "createAppointment", "updateAppointment", "rescheduleAppointment",
    "cancelAppointment", "assignTechnician", "unassignTechnician", "completeAppointment"]
  const BOOKING_CASES: seq<string> := [
    "listBookings", "getBooking", "createBooking", "updateBooking", "convertToJob", "dismissBooking"]
  const LEAD_CASES: seq<string> := [
    "listLeads", "getLead", "createLead", "updateLead", "convertLead", "dismissLead", "addFollowUp"]
  const INVOICE_CASES: seq<string> := [
    "listInvoices", "getInvoice", "createInvoice", "updateInvoice", "getInvoiceItems", "addInvoiceItem",
    "removeInvoiceItem", "emailInvoice", "getInvoicePayments"]
  const PAYMENT_CASES: seq<string> := [
    "listPayments", "getPayment", "createPayment", "refundPayment", "voidPayment"]
  const ESTIMATE_CASES: seq<string> := [
    "listEstimates", "getEstimate", "createEstimate", "updateEstimate", "approveEstimate", "declineEstimate",
    "convertToInvoice", "emailEstimate"]
  const TECHNICIAN_CASES: seq<string> := [
    "listTechnicians", "getTechnician", "createTechnician", "updateTechnician", "getTechnicianSchedule",
    "getTechnicianCapacity", "getTechnicianPerformance"]
  const DISPATCH_CASES: seq<string> := [
    "getDispatchBoard", "getZones", "getCapacity", "optimizeRoutes"]
  const INVENTORY_CASES: seq<string> := [
    "listInventory", "getInventoryItem", "updateInventoryQuantity", "listPurchaseOrders", "createPurchaseOrder",
    "listVendors", "getWarehouseQuantities"]
  const PRICEBOOK_CASES: seq<string> := [
    "listServices", "getService", "listMaterials", "getMaterial", "listEquipment", "getEquipment"]
  const MEMBERSHIP_CASES: seq<string> := [
    "listMemberships", "getMembership", "createMembership", "updateMembership", "cancelMembership",
    "getMembershipLocations"]
  const CAMPAIGN_CASES: seq<string> := [
    "listCampaigns", "getCampaign", "getCampaignMetrics"]
  const REPORT_CASES: seq<string> := [
    "getRevenueReport", "getTechnicianReport", "getCallReport", "getConversionReport", "getCustomReport"]
  const USER_CASES: seq<string> := [
    "listUsers", "getUser", "getUserRoles", "getUserPermissions"]

  /** The resource switch of `execute`. */
  const DISPATCHERS: seq<Dispatcher> := [
    Dispatcher("customer", CUSTOMER_CASES),
    Dispatcher("location", LOCATION_CASES),
    Dispatcher("job", JOB_CASES),
    Dispatcher("appointment", APPOINTMENT_CASES),
    Dispatcher("booking", BOOKING_CASES),
    Dispatcher("lead", LEAD_CASES),
    Dispatcher("invoice", INVOICE_CASES),
    Dispatcher("payment", PAYMENT_CASES),
    Dispatcher("estimate", ESTIMATE_CASES),
    Dispatcher("technician", TECHNICIAN_CASES),
    Dispatcher("dispatch", DISPATCH_CASES),
    Dispatcher("inventory", INVENTORY_CASES),
    Dispatcher("pricebook", PRICEBOOK_CASES),
    Dispatcher("membership", MEMBERSHIP_CASES),
    Dispatcher("campaign", CAMPAIGN_CASES),
    Dispatcher("report", REPORT_CASES),
    Dispatcher("user", USER_CASES)
  ]

  /** The operations table each resource's options come from. */
  function TableOf(resource: string): seq<PropertyOption> {
    match resource
    case "customer" => CUSTOMER_OPERATIONS
    case "location" => LOCATION_OPERATIONS
    case "job" => JOB_OPERATIONS
    case "appointment" => APPOINTMENT_OPERATIONS
    case "booking" => BOOKING_OPERATIONS
    case "lead" => LEAD_OPERATIONS
    case "invoice" => INVOICE_OPERATIONS
    case "payment" => PAYMENT_OPERATIONS
    case "estimate" => ESTIMATE_OPERATIONS
    case "technician" => TECHNICIAN_OPERATIONS
    case "dispatch" => DISPATCH_OPERATIONS
    case "inventory" => INVENTORY_OPERATIONS
    case "pricebook" => PRICEBOOK_OPERATIONS
    case "membership" => MEMBERSHIP_OPERATIONS
    case "campaign" => CAMPAIGN_OPERATIONS
    case "report" => REPORT_OPERATIONS
    case "user" => USER_OPERATIONS
    case _ => []
  }

  // ---------------------------------------------------------------------------
  // Dispatch

  /** The first switch case for `resource`, if any. */
  function FindDispatcher(ds: seq<Dispatcher>, resource: string): (r: Option<Dispatcher>)
    ensures r.Some? <==> exists i :: 0 <= i < |ds| && ds[i].resource == resource
    ensures r.Some? ==> r.value in ds && r.value.resource == resource
  {
    if ds == [] then None
    else if ds[0].resource == resource then Some(ds[0])
    else FindDispatcher(ds[1..], resource)
  }

  /**
   * The resource switch followed by the resource's operation switch: the
   * selected handler, or the error the `default` branch throws.
   */
  function Dispatch(resource: string, operation: string): (r: Result<Handler>)
    ensures r.Ok? ==> r.value == Handler(resource, operation)
  {
    DispatchIn(DISPATCHERS, resource, operation)
  }

  function DispatchIn(switch: seq<Dispatcher>, resource: string, operation: string): (r: Result<Handler>)
    ensures r.Ok? ==> r.value == Handler(resource, operation)
  {
    match FindDispatcher(switch, resource)
    case None => Err("Unknown resource: " + resource)
    case Some(d) =>
      if operation in d.cases then Ok(Handler(resource, operation))
      else Err("Unknown " + resource + " operation: " + operation)
  }

  /** The resource values of the switch. */
  function SwitchedResources(): (rs: seq<string>)
    ensures |rs| == |DISPATCHERS|
    ensures forall i :: 0 <= i < |DISPATCHERS| ==> rs[i] == DISPATCHERS[i].resource
  {
    seq(|DISPATCHERS|, i requires 0 <= i < |DISPATCHERS| => DISPATCHERS[i].resource)
  }

  /** A switch lists every value of an options table, and has as many cases as the table has entries. */
  predicate Covers(cases: seq<string>, table: seq<PropertyOption>) {
    |cases| == |table| && forall i :: 0 <= i < |table| ==> table[i].value in cases
  }

  /** A switch's cases and an options table hold the same values, each exactly once. */
  predicate CasesMatch(cases: seq<string>, table: seq<PropertyOption>) {
    Covers(cases, table) && DistinctValues(table) && Distinct(cases)
    && forall j :: 0 <= j < |cases| ==> cases[j] in Values(table)
  }

  predicate Distinct<T(==)>(s: seq<T>) {
    forall i, j :: 0 <= i < j < |s| ==> s[i] != s[j]
  }

  function Elements<T(==)>(s: seq<T>): set<T> {
    set x | x in s
  }

  /** A sequence has at most as many distinct elements as entries, and exactly as many iff no entry repeats. */
  lemma {:induction false} ElementsCount<T>(s: seq<T>)
    ensures |Elements(s)| <= |s|
    ensures |Elements(s)| == |s| <==> Distinct(s)
  {
    if s != [] {
      ElementsCount(s[1..]);
      assert Elements(s) == {s[0]} + Elements(s[1..]);
      if s[0] in s[1..] {
        var k :| 0 <= k < |s[1..]| && s[1..][k] == s[0];
        assert s[0] == s[k + 1];
      } else {
        assert Distinct(s) <==> Distinct(s[1..]);
      }
    }
  }

  /**
   * Pigeonhole: a duplicate-free sequence all of whose entries occur in another
   * sequence of the same length has exactly that sequence's entries, and that
   * sequence repeats nothing either.
   */
  lemma PigeonholeCover<T>(a: seq<T>, b: seq<T>)
    requires Distinct(a) && |a| == |b|
    requires forall i :: 0 <= i < |a| ==> a[i] in b
    ensures Distinct(b) && forall j :: 0 <= j < |b| ==> b[j] in a
  {
    ElementsCount(a);
    ElementsCount(b);
    assert Elements(a) <= Elements(b);
    assert |Elements(b) - Elements(a)| == |Elements(b)| - |Elements(a)| == 0;
    assert Elements(a) == Elements(b);
    forall j | 0 <= j < |b| ensures b[j] in a {
      assert b[j] in Elements(b);
    }
  }

  /** Covering a duplicate-free table with as many cases leaves no extra case and no repeated one. */
  lemma CoversMatches(cases: seq<string>, table: seq<PropertyOption>)
    requires Covers(cases, table) && DistinctValues(table)
    ensures CasesMatch(cases, table)
  {
    var vs := Values(table);
    assert Distinct(vs);
    PigeonholeCover(vs, cases);
  }

  // ---------------------------------------------------------------------------
  // The switches agree with the tables

  lemma ResourceSwitchCovers()
    ensures Covers(SwitchedResources(), RESOURCES)
  {
    assert SwitchedResources() == [
      "customer", "location", "job", "appointment", "booking", "lead", "invoice", "payment", "estimate",
      "technician", "dispatch", "inventory", "pricebook", "membership", "campaign", "report", "user"];
  }

  lemma CrmCasesCover()
    ensures Covers(CUSTOMER_CASES, CUSTOMER_OPERATIONS)
    ensures Covers(LOCATION_CASES, LOCATION_OPERATIONS)
    ensures Covers(JOB_CASES, JOB_OPERATIONS)
    ensures Covers(APPOINTMENT_CASES, APPOINTMENT_OPERATIONS)
  {
  }

  lemma SalesCasesCover()
    ensures Covers(BOOKING_CASES, BOOKING_OPERATIONS)
    ensures Covers(LEAD_CASES, LEAD_OPERATIONS)
    ensures Covers(INVOICE_CASES, INVOICE_OPERATIONS)
    ensures Covers(PAYMENT_CASES, PAYMENT_OPERATIONS)
  {
  }

  lemma FieldCasesCover()
    ensures Covers(ESTIMATE_CASES, ESTIMATE_OPERATIONS)
    ensures Covers(TECHNICIAN_CASES, TECHNICIAN_OPERATIONS)
    ensures Covers(DISPATCH_CASES, DISPATCH_OPERATIONS)
    ensures Covers(INVENTORY_CASES, INVENTORY_OPERATIONS)
  {
  }

  lemma OtherCasesCover()
    ensures Covers(PRICEBOOK_CASES, PRICEBOOK_OPERATIONS)
    ensures Covers(MEMBERSHIP_CASES, MEMBERSHIP_OPERATIONS)
    ensures Covers(CAMPAIGN_CASES, CAMPAIGN_OPERATIONS)
    ensures Covers(REPORT_CASES, REPORT_OPERATIONS)
    ensures Covers(USER_CASES, USER_OPERATIONS)
  {
  }

  /** The resource switch has exactly the values of RESOURCES, each once. */
  lemma ResourceSwitchMatches()
    ensures CasesMatch(SwitchedResources(), RESOURCES)
  {
    ResourceSwitchCovers();
    ResourcesDistinct();
    CoversMatches(SwitchedResources(), RESOURCES);
  }

  /** Every operation switch has exactly the values of its resource's table, each once. */
  lemma DispatchersMatchTables()
    ensures forall i :: 0 <= i < |DISPATCHERS| ==> CasesMatch(DISPATCHERS[i].cases, TableOf(DISPATCHERS[i].resource))
  {
    CrmCasesCover();
    SalesCasesCover();
    FieldCasesCover();
    OtherCasesCover();
    CrmTablesDistinct();
    SalesTablesDistinct();
    FieldTablesDistinct();
    OtherTablesDistinct();
    forall i | 0 <= i < |DISPATCHERS|
      ensures CasesMatch(DISPATCHERS[i].cases, TableOf(DISPATCHERS[i].resource))
    {
      CoversMatches(DISPATCHERS[i].cases, TableOf(DISPATCHERS[i].resource));
    }
  }

  /**
   * A resource/operation pair is dispatched to a handler exactly when the
   * resource is one of RESOURCES and the operation one of its table's values;
   * otherwise the error names the unknown resource or the unknown operation.
   */
  lemma DispatchAgreesWithTables(resource: string, operation: string)
    ensures Dispatch(resource, operation).Ok? <==>
      resource in Values(RESOURCES) && operation in Values(TableOf(resource))
    ensures resource !in Values(RESOURCES) ==> Dispatch(resource, operation) == Err("Unknown resource: " + resource)
    ensures resource in Values(RESOURCES) && operation !in Values(TableOf(resource)) ==>
      Dispatch(resource, operation) == Err("Unknown " + resource + " operation: " + operation)
  {
    ResourceSwitchMatches();
    DispatchersMatchTables();
    var found := FindDispatcher(DISPATCHERS, resource);
    if found.Some? {
      var i :| 0 <= i < |DISPATCHERS| && DISPATCHERS[i] == found.value;
      assert SwitchedResources()[i] == resource;
      if operation in Values(TableOf(resource)) {
        var k :| 0 <= k < |TableOf(resource)| && Values(TableOf(resource))[k] == operation;
        assert TableOf(resource)[k].value in found.value.cases;
      }
    } else {
      forall k | 0 <= k < |RESOURCES| ensures RESOURCES[k].value != resource {
        var i :| 0 <= i < |DISPATCHERS| && SwitchedResources()[i] == RESOURCES[k].value;
        assert DISPATCHERS[i].resource == RESOURCES[k].value;
      }
    }
  }

  // ---------------------------------------------------------------------------
  // The batch loop

  /** The item pushed for a failing input item under continue-on-fail. */
  function ErrorItem(message: string, index: nat): (e: ExecutionItem)
    ensures e.json.Obj? && Lookup(e.json.fields, "error") == Str(message) && e.pairedItem == Some(index)
  {
    ExecutionItem(Obj([Field("error", Str(message))]), Some(index))
  }

  /** What processing input item `i` yields: the dispatch error or the handler's outcome. */
  function ItemOutcome(switch: seq<Dispatcher>, resource: string, operation: string, i: nat,
                       run: (Handler, nat) -> Result<seq<ExecutionItem>>): (r: Result<seq<ExecutionItem>>)
  {
    match DispatchIn(switch, resource, operation)
    case Err(m) => Err(m)
    case Ok(h) => run(h, i)
  }

  /** What item `i` adds to the output under continue-on-fail. */
  function Contribution(outcome: Result<seq<ExecutionItem>>, i: nat): seq<ExecutionItem> {
    match outcome
    case Ok(items) => items
    case Err(m) => [ErrorItem(m, i)]
  }

  /** The batch result after the first `n` items, given each item's outcome. */
  function Batch(outcomes: seq<Result<seq<ExecutionItem>>>, n: nat, continueOnFail: bool): Result<seq<ExecutionItem>>
    requires n <= |outcomes|
  {
    if n == 0 then Ok([])
    else match Batch(outcomes, n - 1, continueOnFail)
      case Err(m) => Err(m)
      case Ok(acc) =>
        if outcomes[n - 1].Ok? || continueOnFail then Ok(acc + Contribution(outcomes[n - 1], n - 1))
        else Err(outcomes[n - 1].message)
  }

  /** Concatenation of a sequence of item lists, in order. */
  function Flatten(parts: seq<seq<ExecutionItem>>): (r: seq<ExecutionItem>)
    ensures parts != [] ==> r == Flatten(parts[..|parts| - 1]) + parts[|parts| - 1]
  {
    if parts == [] then [] else Flatten(parts[..|parts| - 1]) + parts[|parts| - 1]
  }

  /** With continue-on-fail the batch never fails: it is every item's contribution, in index order. */
  lemma {:induction false} BatchContinueOnFail(outcomes: seq<Result<seq<ExecutionItem>>>, n: nat)
    requires n <= |outcomes|
    ensures Batch(outcomes, n, true) ==
      Ok(Flatten(seq(n, i requires 0 <= i < n => Contribution(outcomes[i], i))))
  {
    if n > 0 {
      BatchContinueOnFail(outcomes, n - 1);
      var parts := seq(n, i requires 0 <= i < n => Contribution(outcomes[i], i));
      var earlier := seq(n - 1, i requires 0 <= i < n - 1 => Contribution(outcomes[i], i));
      assert parts[..n - 1] == earlier;
      assert Flatten(parts) == Flatten(earlier) + Contribution(outcomes[n - 1], n - 1);
    }
  }

  /** When every item succeeds the output is the concatenation of their outputs, whatever the policy. */
  lemma {:induction false} BatchAllSucceed(outcomes: seq<Result<seq<ExecutionItem>>>, n: nat, continueOnFail: bool)
    requires n <= |outcomes|
    requires forall i :: 0 <= i < n ==> outcomes[i].Ok?
    ensures Batch(outcomes, n, continueOnFail) ==
      Ok(Flatten(seq(n, i requires 0 <= i < n => outcomes[i].value)))
  {
    if n > 0 {
      BatchAllSucceed(outcomes, n - 1, continueOnFail);
      var parts := seq(n, i requires 0 <= i < n => outcomes[i].value);
      var earlier := seq(n - 1, i requires 0 <= i < n - 1 => outcomes[i].value);
      assert parts[..n - 1] == earlier;
      assert Flatten(parts) == Flatten(earlier) + outcomes[n - 1].value;
    }
  }

  /** Without continue-on-fail the first failing item's error is the batch's error. */
  lemma {:induction false} BatchStopsAtFirstError(outcomes: seq<Result<seq<ExecutionItem>>>, n: nat, k: nat)
    requires k < n <= |outcomes|
    requires outcomes[k].Err? && forall j :: 0 <= j < k ==> outcomes[j].Ok?
    ensures Batch(outcomes, n, false) == Err(outcomes[k].message)
  {
    if n - 1 == k {
      BatchAllSucceed(outcomes, k, false);
    } else {
      BatchStopsAtFirstError(outcomes, n - 1, k);
    }
  }

  /** Without continue-on-fail the batch succeeds iff every item does. */
  lemma {:induction false} BatchFailsIffSomeItemFails(outcomes: seq<Result<seq<ExecutionItem>>>, n: nat)
    requires n <= |outcomes|
    ensures Batch(outcomes, n, false).Ok? <==> forall i :: 0 <= i < n ==> outcomes[i].Ok?
  {
    if n > 0 {
      BatchFailsIffSomeItemFails(outcomes, n - 1);
    }
  }

  /** Once the batch has failed, later items change nothing. */
  lemma {:induction false} BatchErrorSticks(outcomes: seq<Result<seq<ExecutionItem>>>, m: nat, n: nat, continueOnFail: bool)
    requires m <= n <= |outcomes|
    requires Batch(outcomes, m, continueOnFail).Err?
    ensures Batch(outcomes, n, continueOnFail) == Batch(outcomes, m, continueOnFail)
  {
    if m < n { BatchErrorSticks(outcomes, m, n - 1, continueOnFail); }
  }

  /** Without continue-on-fail, the first failure seen by a running batch is its outcome, after successes only. */
  lemma BatchEndsAt(outcomes: seq<Result<seq<ExecutionItem>>>, i: nat, n: nat)
    requires i < n <= |outcomes| && Batch(outcomes, i, false).Ok? && outcomes[i].Err?
    ensures Batch(outcomes, n, false) == Err(outcomes[i].message)
    ensures forall j :: 0 <= j < i ==> outcomes[j].Ok?
  {
    BatchErrorSticks(outcomes, i + 1, n, false);
    BatchFailsIffSomeItemFails(outcomes, i);
  }

  /** One more item: its contribution is appended, or its failure ends the batch. */
  lemma BatchStep(outcomes: seq<Result<seq<ExecutionItem>>>, i: nat, continueOnFail: bool, acc: seq<ExecutionItem>)
    requires i < |outcomes| && Batch(outcomes, i, continueOnFail) == Ok(acc)
    ensures outcomes[i].Ok? ==> Batch(outcomes, i + 1, continueOnFail) == Ok(acc + outcomes[i].value)
    ensures outcomes[i].Err? && continueOnFail ==>
      Batch(outcomes, i + 1, continueOnFail) == Ok(acc + [ErrorItem(outcomes[i].message, i)])
    ensures outcomes[i].Err? && !continueOnFail ==> Batch(outcomes, i + 1, continueOnFail) == Err(outcomes[i].message)
  {
  }

  /** The `try` block for one item: dispatch, then run the selected handler. */
  method ProcessItem(switch: seq<Dispatcher>, resource: string, operation: string, i: nat,
                     run: (Handler, nat) -> Result<seq<ExecutionItem>>)
    returns (r: Result<seq<ExecutionItem>>)
    ensures r == ItemOutcome(switch, resource, operation, i, run)
  {
    var dispatched := DispatchIn(switch, resource, operation);
    if dispatched.Err? {
      return Err(dispatched.message);
    }
    r := run(dispatched.value, i);
  }

  /** Each input item's outcome, in index order. */
  function Outcomes(switch: seq<Dispatcher>, count: nat, resourceOf: nat -> string, operationOf: nat -> string,
                    run: (Handler, nat) -> Result<seq<ExecutionItem>>): (os: seq<Result<seq<ExecutionItem>>>)
    ensures |os| == count
    ensures forall i :: 0 <= i < count ==> os[i] == ItemOutcome(switch, resourceOf(i), operationOf(i), i, run)
  {
    seq(count, i requires 0 <= i < count => ItemOutcome(switch, resourceOf(i), operationOf(i), i, run))
  }

  /**
   * `execute` over `count` input items, with `switch` the resource switch
   * (DISPATCHERS for this node): items are processed in index order and
   * `attempted` counts those whose dispatch and handler ran, so after a
   * failure without continue-on-fail no later item is touched.
   */
  method Execute(switch: seq<Dispatcher>, count: nat, resourceOf: nat -> string, operationOf: nat -> string,
                 run: (Handler, nat) -> Result<seq<ExecutionItem>>, continueOnFail: bool)
    returns (r: Result<seq<ExecutionItem>>, attempted: nat)
    ensures r == Batch(Outcomes(switch, count, resourceOf, operationOf, run), count, continueOnFail)
    ensures attempted <= count
    ensures r.Ok? ==> attempted == count
    ensures r.Err? ==> 0 < attempted && !continueOnFail && r == Outcomes(switch, count, resourceOf, operationOf, run)[attempted - 1]
    ensures r.Err? ==> forall j :: 0 <= j < attempted - 1 ==> Outcomes(switch, count, resourceOf, operationOf, run)[j].Ok?
  {
    ghost var outcomes := Outcomes(switch, count, resourceOf, operationOf, run);
    r, attempted := ProcessItems(switch, count, resourceOf, operationOf, run, continueOnFail, outcomes);
  }

  /** The loop of `execute`, against the outcomes its items are known to have. */
  method ProcessItems(switch: seq<Dispatcher>, count: nat, resourceOf: nat -> string, operationOf: nat -> string,
                      run: (Handler, nat) -> Result<seq<ExecutionItem>>, continueOnFail: bool,
                      ghost outcomes: seq<Result<seq<ExecutionItem>>>)
    returns (r: Result<seq<ExecutionItem>>, attempted: nat)
    requires |outcomes| == count
    requires forall i {:trigger resourceOf(i)} :: 0 <= i < count ==> outcomes[i] == ItemOutcome(switch, resourceOf(i), operationOf(i), i, run)
    ensures r == Batch(outcomes, count, continueOnFail)
    ensures attempted <= count
    ensures r.Ok? ==> attempted == count
    ensures r.Err? ==> 0 < attempted && !continueOnFail && r == outcomes[attempted - 1]
    ensures r.Err? ==> forall j :: 0 <= j < attempted - 1 ==> outcomes[j].Ok?
  {
    var returnData: seq<ExecutionItem> := [];
    var i := 0;
    while i < count
      invariant i <= count
      invariant Batch(outcomes, i, continueOnFail) == Ok(returnData)
    {
      var outcome := ProcessItem(switch, resourceOf(i), operationOf(i), i, run);
      assert outcome == outcomes[i];
      BatchStep(outcomes, i, continueOnFail, returnData);
      if outcome.Ok? {
        returnData := returnData + outcome.value;
      } else if continueOnFail {
        returnData := returnData + [ErrorItem(outcome.message, i)];
      } else {
        BatchEndsAt(outcomes, i, count);
        return Err(outcome.message), i + 1;
      }
      i := i + 1;
    }
    return Ok(returnData), count;
  }
}
