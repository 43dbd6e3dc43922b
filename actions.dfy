/**
 * The customer and location actions: how each builds its request from the
 * node parameters, which requests it sends through the client, and what
 * records it emits.
 *
 * Node parameters arrive as arguments (a parameter read never fails here);
 * the client's API server answers requests in order, as in the transport
 * model.
 */
module Actions {
  import opened Results
  import opened Text
  import opened Json
  import opened Constants
  import opened Helpers
  import opened Transport

  // ---------------------------------------------------------------------------
  // Requests and outputs shared by the actions

  /** Between `before` and `now` at most one request went out, and it was the one for `options`. */
  predicate SentAtMostOne(now: seq<HttpRequest>, before: seq<HttpRequest>, creds: Credentials, options: RequestOptions) {
    before <= now && |now| <= |before| + 1
    && (|now| > |before| ==> Carries(now[|before|], creds, options))
  }

  /** A successful request went out and got the server's next reply. */
  predicate Answered(outcome: Result<Value>, script: seq<HttpReply>, now: seq<HttpRequest>, before: seq<HttpRequest>) {
    outcome.Ok? ==> |now| == |before| + 1 && outcome == Answer(ReplyAt(script, |before|))
  }

  /**
   * `serviceTitanApiRequest` as the actions call it: one recorded call, so
   * that (by `RecordedOnce`) its outcome is the token failure or the
   * server's reply to the request sent.
   */
  method Call(client: Client, creds: Credentials, options: RequestOptions) returns (r: Result<Value>)
    modifies client
    ensures client.Performed(old(client.TokenStateOf()), old(client.sent), creds, [options], [r])
    ensures SentAtMostOne(client.sent, old(client.sent), creds, options)
    ensures Answered(r, client.apiServer, client.sent, old(client.sent))
  {
    r := client.ApiRequest(creds, options);
  }

  /** `response.data || []`: reading `data` from `undefined` or `null` throws. */
  function ResponseData(response: Value): (r: Result<Value>)
    ensures r.Err? <==> response == Undefined || response == Null
    ensures r.Ok? && Truthy(Member(response, "data")) ==> r.value == Member(response, "data")
    ensures r.Ok? && !Truthy(Member(response, "data")) ==> r.value == Arr([])
  {
    match Get(response, "data")
    case Err(m) => Err(m)
    case Ok(data) => Ok(Or(data, Arr([])))
  }

  /** The records `data.map(...)` visits. */
  function Records(response: Value): Result<seq<Value>> {
    match ResponseData(response)
    case Err(m) => Err(m)
    case Ok(data) => MapItems(data)
  }

  /** `toExecutionData(data)` over a result. */
  function Emitted(data: Result<seq<Value>>): Result<seq<ExecutionItem>> {
    match data
    case Err(m) => Err(m)
    case Ok(records) => Ok(ToExecutionData(records))
  }

  /** What a list-style action emits for its request's outcome. */
  function ListOutput(outcome: Result<Value>): Result<seq<ExecutionItem>> {
    match outcome
    case Err(m) => Err(m)
    case Ok(response) => Emitted(Records(response))
  }

  /** What a single-record action emits: `toExecutionData([response])`. */
  function SingleOutput(outcome: Result<Value>): Result<seq<ExecutionItem>> {
    match outcome
    case Err(m) => Err(m)
    case Ok(response) => Ok(ToExecutionData([response]))
  }

  /**
   * A response's `data` array becomes the emitted records in order; a
   * response without `data` (or with a falsy one) emits nothing.
   */
  lemma ListOutputRecords(fields: seq<Field>)
    ensures Lookup(fields, "data").Arr? ==>
      ListOutput(Ok(Obj(fields))) == Ok(ToExecutionData(Lookup(fields, "data").items))
    ensures !Truthy(Lookup(fields, "data")) ==> ListOutput(Ok(Obj(fields))) == Ok([])
  {
    assert ToExecutionData([]) == [];
  }

  /** `${API_PATHS.x}/${id}` */
  function ItemEndpoint(p: ApiPath, id: string): string {
    PathText(p) + "/" + id
  }

  // ---------------------------------------------------------------------------
  // listCustomers / listLocations

  /** The query of a single-page list request: the filter query with `pageSize = limit` and `page = 1` assigned. */
  function SinglePageQuery(filters: seq<Field>, limit: int): seq<Field> {
    Put(Put(QueryInto([], filters), "pageSize", Num(limit)), "page", Num(1))
  }

  /** `pageSize` and `page` override same-named filters; every other key is the filter query's. */
  lemma SinglePageQueryFields(filters: seq<Field>, limit: int, key: string)
    requires DistinctKeys(filters)
    ensures Lookup(SinglePageQuery(filters, limit), key) ==
      if key == "page" then Num(1)
      else if key == "pageSize" then Num(limit)
      else if IsBlank(Lookup(filters, key)) then Undefined
      else QueryValue(key, Lookup(filters, key))
    ensures KeySet(SinglePageQuery(filters, limit)) <= KeySet(filters) + {"pageSize", "page"}
  {
    var base := QueryInto([], filters);
    BuildQueryStringLookup(filters, key);
    LookupPut(Put(base, "pageSize", Num(limit)), "page", Num(1), key);
    LookupPut(base, "pageSize", Num(limit), key);
    KeySetPut(base, "pageSize", Num(limit));
    KeySetPut(Put(base, "pageSize", Num(limit)), "page", Num(1));
  }

  /** The request options of a list action that fetches every page. */
  function ListAllOptions(p: ApiPath, filters: seq<Field>): RequestOptions {
    RequestOptions("GET", PathText(p), None, Some(QueryInto([], filters)))
  }

  /** The request options of a list action that fetches one page of `limit` records. */
  function SinglePageOptions(p: ApiPath, filters: seq<Field>, limit: int): RequestOptions {
    RequestOptions("GET", PathText(p), None, Some(SinglePageQuery(filters, limit)))
  }

  /**
   * The list branch: with `returnAll`, pages 1, 2, ... of the filter query
   * under the unlimited paging loop; otherwise one request for one page.
   */
  ghost predicate ListBehaviour(p: ApiPath, returnAll: bool, filters: seq<Field>, limit: int,
                                r: Result<seq<ExecutionItem>>, pages: seq<Result<Value>>, requested: seq<RequestOptions>) {
    (returnAll ==>
      |pages| == |requested| > 0
      && requested == PageRequests(ListAllOptions(p, filters), |requested|)
      && Continuing(pages[..|pages| - 1], "data", 0)
      && Run([], pages, "data", 0).Done?
      && r == Emitted(Run([], pages, "data", 0).result))
    && (!returnAll ==>
      requested == [SinglePageOptions(p, filters, limit)] && |pages| == 1 && r == ListOutput(pages[0]))
  }

  /** The `returnAll` branch of a list action: every page of the filter query. */
  method ListAllPages(client: Client, creds: Credentials, p: ApiPath, filters: seq<Field>)
    returns (r: Result<seq<ExecutionItem>>, ghost pages: seq<Result<Value>>, ghost requested: seq<RequestOptions>)
    modifies client
    ensures |pages| == |requested| > 0
    ensures requested == PageRequests(ListAllOptions(p, filters), |requested|)
    ensures Continuing(pages[..|pages| - 1], "data", 0)
    ensures Run([], pages, "data", 0).Done? && r == Emitted(Run([], pages, "data", 0).result)
    ensures client.Performed(old(client.TokenStateOf()), old(client.sent), creds, requested, pages)
    ensures AnsweredInOrder(old(client.sent), client.sent, client.apiServer, CarriesFor(creds), requested, pages)
  {
    var qs := BuildQueryString(filters);
    var data;
    data, pages, requested := client.ApiRequestAllItems(creds, RequestOptions("GET", PathText(p), None, Some(qs)), "data", 0);
    r := Emitted(data);
  }

  /** The single-page branch of a list action: page 1 with `limit` records. */
  method ListOnePage(client: Client, creds: Credentials, p: ApiPath, filters: seq<Field>, limit: int)
    returns (r: Result<seq<ExecutionItem>>, ghost pages: seq<Result<Value>>, ghost requested: seq<RequestOptions>)
    modifies client
    ensures requested == [SinglePageOptions(p, filters, limit)] && |pages| == 1 && r == ListOutput(pages[0])
    ensures client.Performed(old(client.TokenStateOf()), old(client.sent), creds, requested, pages)
    ensures AnsweredInOrder(old(client.sent), client.sent, client.apiServer, CarriesFor(creds), requested, pages)
    ensures SentAtMostOne(client.sent, old(client.sent), creds, requested[0])
  {
    var qs := BuildQueryString(filters);
    qs := Put(qs, "pageSize", Num(limit));
    qs := Put(qs, "page", Num(1));
    var options := RequestOptions("GET", PathText(p), None, Some(qs));
    ghost var st0, sent0 := client.TokenStateOf(), client.sent;
    var response := Call(client, creds, options);
    pages, requested := [response], [options];
    r := ListOutput(response);
    ExchangeSends(creds, client.ServersOf());
    AnsweredWhileSucceeding(CallWith(creds, client.ServersOf()), client.apiServer, CarriesFor(creds), st0, sent0,
      requested, pages, client.TokenStateOf(), client.sent);
  }

  /** The shared body of `listCustomers` and `listLocations`. */
  method ListRecords(client: Client, creds: Credentials, p: ApiPath, returnAll: bool, filters: seq<Field>, limit: int)
    returns (r: Result<seq<ExecutionItem>>, ghost pages: seq<Result<Value>>, ghost requested: seq<RequestOptions>)
    modifies client
    ensures ListBehaviour(p, returnAll, filters, limit, r, pages, requested)
    ensures client.Performed(old(client.TokenStateOf()), old(client.sent), creds, requested, pages)
    ensures AnsweredInOrder(old(client.sent), client.sent, client.apiServer, CarriesFor(creds), requested, pages)
    ensures !returnAll ==> SentAtMostOne(client.sent, old(client.sent), creds, requested[0])
  {
    if returnAll {
      r, pages, requested := ListAllPages(client, creds, p, filters);
    } else {
      r, pages, requested := ListOnePage(client, creds, p, filters, limit);
    }
  }

  /** `listCustomers` */
  method ListCustomers(client: Client, creds: Credentials, returnAll: bool, filters: seq<Field>, limit: int)
    returns (r: Result<seq<ExecutionItem>>, ghost pages: seq<Result<Value>>, ghost requested: seq<RequestOptions>)
    modifies client
    ensures ListBehaviour(CUSTOMERS_PATH, returnAll, filters, limit, r, pages, requested)
    ensures client.Performed(old(client.TokenStateOf()), old(client.sent), creds, requested, pages)
    ensures AnsweredInOrder(old(client.sent), client.sent, client.apiServer, CarriesFor(creds), requested, pages)
    ensures !returnAll ==> SentAtMostOne(client.sent, old(client.sent), creds, requested[0])
  {
    r, pages, requested := ListRecords(client, creds, CUSTOMERS_PATH, returnAll, filters, limit);
  }

  /** `listLocations` */
  method ListLocations(client: Client, creds: Credentials, returnAll: bool, filters: seq<Field>, limit: int)
    returns (r: Result<seq<ExecutionItem>>, ghost pages: seq<Result<Value>>, ghost requested: seq<RequestOptions>)
    modifies client
    ensures ListBehaviour(LOCATIONS_PATH, returnAll, filters, limit, r, pages, requested)
    ensures client.Performed(old(client.TokenStateOf()), old(client.sent), creds, requested, pages)
    ensures AnsweredInOrder(old(client.sent), client.sent, client.apiServer, CarriesFor(creds), requested, pages)
    ensures !returnAll ==> SentAtMostOne(client.sent, old(client.sent), creds, requested[0])
  {
    r, pages, requested := ListRecords(client, creds, LOCATIONS_PATH, returnAll, filters, limit);
  }

  // ---------------------------------------------------------------------------
  // createCustomer / updateCustomer

  /**
   * The `createCustomer` body: `name`, then the cleaned additional fields
   * spread over it, then a truthy `address` and `contacts` copied again,
   * uncleaned, from the additional fields.
   */
  function CustomerBody(name: string, additionalFields: seq<Field>): seq<Field> {
    var body := Spread([Field("name", Str(name))], CleanFields(additionalFields));
    var address := Lookup(additionalFields, "address");
    var withAddress := if Truthy(address) then Put(body, "address", address) else body;
    var contacts := Lookup(additionalFields, "contacts");
    if Truthy(contacts) then Put(withAddress, "contacts", contacts) else withAddress
  }

  /** `{...base, ...cleanObject(extra)}` read at `key`: the cleaned value if it survives, else the base's. */
  lemma LookupSpreadCleaned(base: seq<Field>, extra: seq<Field>, key: string)
    requires DistinctKeys(extra)
    ensures Lookup(Spread(base, CleanFields(extra)), key) ==
      if Cleaned(Lookup(extra, key)) != Undefined then Cleaned(Lookup(extra, key)) else Lookup(base, key)
  {
    CleanFieldsIsClean(extra);
    CleanObjectLookup(extra, key);
    CleanValuesLookup(CleanFields(extra), key);
    LookupSpread(base, CleanFields(extra), key);
  }

  /**
   * Field by field: a truthy `address`/`contacts` is the raw additional
   * field; otherwise a surviving cleaned additional field wins over `name`;
   * otherwise `name` is the parameter and any other key is absent.
   */
  lemma CustomerBodyFields(name: string, additionalFields: seq<Field>, key: string)
    requires DistinctKeys(additionalFields)
    ensures Lookup(CustomerBody(name, additionalFields), key) ==
      if (key == "address" || key == "contacts") && Truthy(Lookup(additionalFields, key)) then Lookup(additionalFields, key)
      else if Cleaned(Lookup(additionalFields, key)) != Undefined then Cleaned(Lookup(additionalFields, key))
      else if key == "name" then Str(name)
      else Undefined
  {
    var body := Spread([Field("name", Str(name))], CleanFields(additionalFields));
    LookupSpreadCleaned([Field("name", Str(name))], additionalFields, key);
    var address := Lookup(additionalFields, "address");
    var withAddress := if Truthy(address) then Put(body, "address", address) else body;
    LookupPut(body, "address", address, key);
    LookupPut(withAddress, "contacts", Lookup(additionalFields, "contacts"), key);
  }

  /** `createCustomer`: the body is built, patched in place, and POSTed to the customers endpoint. */
  method CreateCustomer(client: Client, creds: Credentials, name: string, additionalFields: seq<Field>)
    returns (r: Result<seq<ExecutionItem>>, ghost outcome: Result<Value>)
    modifies client
    ensures client.Performed(old(client.TokenStateOf()), old(client.sent), creds,
      [RequestOptions("POST", PathText(CUSTOMERS_PATH), Some(CustomerBody(name, additionalFields)), None)], [outcome])
    ensures SentAtMostOne(client.sent, old(client.sent), creds,
      RequestOptions("POST", PathText(CUSTOMERS_PATH), Some(CustomerBody(name, additionalFields)), None))
    ensures Answered(outcome, client.apiServer, client.sent, old(client.sent))
    ensures r == SingleOutput(outcome)
  {
    var cleaned := CleanObject(additionalFields);
    var body := Spread([Field("name", Str(name))], cleaned);
    if Truthy(Lookup(additionalFields, "address")) {
      body := Put(body, "address", Lookup(additionalFields, "address"));
    }
    if Truthy(Lookup(additionalFields, "contacts")) {
      body := Put(body, "contacts", Lookup(additionalFields, "contacts"));
    }
    var response := Call(client, creds, RequestOptions("POST", PathText(CUSTOMERS_PATH), Some(body), None));
    outcome := response;
    r := SingleOutput(response);
  }

  /** `updateCustomer` / `updateLocation`: PATCH the record's endpoint with the cleaned update fields. */
  method UpdateRecord(client: Client, creds: Credentials, p: ApiPath, id: string, updateFields: seq<Field>)
    returns (r: Result<seq<ExecutionItem>>, ghost outcome: Result<Value>)
    modifies client
    ensures client.Performed(old(client.TokenStateOf()), old(client.sent), creds,
      [RequestOptions("PATCH", ItemEndpoint(p, id), Some(CleanFields(updateFields)), None)], [outcome])
    ensures SentAtMostOne(client.sent, old(client.sent), creds,
      RequestOptions("PATCH", ItemEndpoint(p, id), Some(CleanFields(updateFields)), None))
    ensures Answered(outcome, client.apiServer, client.sent, old(client.sent))
    ensures r == SingleOutput(outcome)
  {
    var body := CleanObject(updateFields);
    var response := Call(client, creds, RequestOptions("PATCH", ItemEndpoint(p, id), Some(body), None));
    outcome := response;
    r := SingleOutput(response);
  }

  /**
   * An update sends exactly the surviving cleaned fields: no blank value, no
   * empty nested object, no key the update fields lack; and an update whose
   * fields all clean away sends no body at all.
   */
  lemma UpdateBodyIsClean(updateFields: seq<Field>, key: string)
    requires DistinctKeys(updateFields)
    ensures IsCleanObject(CleanFields(updateFields))
    ensures Lookup(CleanFields(updateFields), key) == Cleaned(Lookup(updateFields, key))
    ensures KeySet(CleanFields(updateFields)) <= KeySet(updateFields)
    ensures CleanFields(updateFields) == [] ==> NonEmpty(Some(CleanFields(updateFields))) == None
  {
    CleanFieldsIsClean(updateFields);
    CleanObjectLookup(updateFields, key);
  }

  // ---------------------------------------------------------------------------
  // getCustomerEquipment

  /** The locations request: the locations endpoint filtered by `customerId`. */
  function CustomerLocationsOptions(customerId: string): RequestOptions {
    RequestOptions("GET", PathText(LOCATIONS_PATH), None, Some([Field("customerId", Str(customerId))]))
  }

  /** The equipment request for one location under the locations path `p`. */
  function EquipmentOptions(p: ApiPath, locationId: Value): RequestOptions {
    RequestOptions("GET", ItemEndpoint(p, ToText(locationId)) + "/equipment", None, None)
  }

  /** The locations `for (const location of locations)` walks. */
  function LocationList(outcome: Result<Value>): Result<seq<Value>> {
    match outcome
    case Err(m) => Err(m)
    case Ok(response) =>
      match ResponseData(response)
      case Err(m) => Err(m)
      case Ok(data) => IterateItems(data)
  }

  /** `equipment.map((e) => ({...e, locationId}))` */
  function TagLocation(equipment: seq<Value>, locationId: Value): (tagged: seq<Value>)
    ensures |tagged| == |equipment|
  {
    seq(|equipment|, i requires 0 <= i < |equipment| =>
      Obj(Put(Spread([], SpreadFields(equipment[i])), "locationId", locationId)))
  }

  /** Each tagged record keeps its own fields, except that `locationId` is the location's id. */
  lemma TagLocationFields(equipment: seq<Value>, locationId: Value, i: nat, key: string)
    requires i < |equipment| && equipment[i].Obj? && DistinctKeys(equipment[i].fields)
    ensures TagLocation(equipment, locationId)[i].Obj?
    ensures Lookup(TagLocation(equipment, locationId)[i].fields, key) ==
      if key == "locationId" then locationId else Lookup(equipment[i].fields, key)
  {
    var fs := equipment[i].fields;
    LookupSpread([], fs, key);
    LookupPut(Spread([], fs), "locationId", locationId, key);
    if key !in KeySet(fs) { LookupAbsent(fs, key); }
  }

  /** The equipment of one location, tagged with its id, once its id and its reply are usable. */
  function LocationRecords(location: Value, reply: Result<Value>): Result<seq<Value>> {
    match Get(location, "id")
    case Err(m) => Err(m)
    case Ok(locationId) =>
      match reply
      case Err(m) => Err(m)
      case Ok(response) =>
        match Records(response)
        case Err(m) => Err(m)
        case Ok(equipment) => Ok(TagLocation(equipment, locationId))
  }

  /** The records after the first `n` locations, given the reply each location's request got. */
  function Gather(locations: seq<Value>, replies: seq<Result<Value>>, n: nat): Result<seq<Value>>
    requires n <= |locations| && n <= |replies|
  {
    if n == 0 then Ok([])
    else match Gather(locations, replies, n - 1)
      case Err(m) => Err(m)
      case Ok(acc) =>
        match LocationRecords(locations[n - 1], replies[n - 1])
        case Err(m) => Err(m)
        case Ok(tagged) => Ok(acc + tagged)
  }

  /** Gathering the first `n` locations only looks at the first `n` replies. */
  lemma {:induction false} GatherExtend(locations: seq<Value>, replies: seq<Result<Value>>, reply: Result<Value>, n: nat)
    requires n <= |replies| < |locations|
    ensures Gather(locations, replies + [reply], n) == Gather(locations, replies, n)
  {
    if n > 0 {
      GatherExtend(locations, replies, reply, n - 1);
      assert (replies + [reply])[n - 1] == replies[n - 1];
    }
  }

  /** One more location: its records are appended, or its failure becomes the outcome. */
  lemma GatherStep(locations: seq<Value>, replies: seq<Result<Value>>, reply: Result<Value>, acc: seq<Value>)
    requires |replies| < |locations| && Gather(locations, replies, |replies|) == Ok(acc)
    ensures Gather(locations, replies + [reply], |replies|) == Ok(acc)
    ensures var part := LocationRecords(locations[|replies|], reply);
      Gather(locations, replies + [reply], |replies| + 1) == if part.Ok? then Ok(acc + part.value) else Err(part.message)
  {
    GatherExtend(locations, replies, reply, |replies|);
  }

  /** Gathering only succeeds when every location's request did. */
  lemma {:induction false} GatherOkReplies(locations: seq<Value>, replies: seq<Result<Value>>, n: nat)
    requires n <= |locations| && n <= |replies| && Gather(locations, replies, n).Ok?
    ensures forall k :: 0 <= k < n ==> replies[k].Ok?
  {
    if n > 0 {
      GatherOkReplies(locations, replies, n - 1);
    }
  }

  function Concat(parts: seq<seq<Value>>): seq<Value> {
    if parts == [] then [] else Concat(parts[..|parts| - 1]) + parts[|parts| - 1]
  }

  /** Location `k`'s tagged records, or none when they are not available. */
  function PartOf(location: Value, reply: Result<Value>): seq<Value> {
    match LocationRecords(location, reply)
    case Ok(tagged) => tagged
    case Err(_) => []
  }

  function Parts(locations: seq<Value>, replies: seq<Result<Value>>, n: nat): seq<seq<Value>>
    requires n <= |locations| && n <= |replies|
  {
    seq(n, k requires 0 <= k < n => PartOf(locations[k], replies[k]))
  }

  /**
   * Gathering fails exactly when some location's records do; otherwise it is
   * each location's tagged equipment concatenated in location order.
   */
  lemma {:induction false} GatherConcatenates(locations: seq<Value>, replies: seq<Result<Value>>, n: nat)
    requires n <= |locations| && n <= |replies|
    ensures Gather(locations, replies, n).Ok? <==> forall k :: 0 <= k < n ==> LocationRecords(locations[k], replies[k]).Ok?
    ensures Gather(locations, replies, n).Ok? ==> Gather(locations, replies, n).value == Concat(Parts(locations, replies, n))
  {
    GatherSucceedsIff(locations, replies, n);
    if Gather(locations, replies, n).Ok? {
      GatherValue(locations, replies, n);
    }
  }

  lemma {:induction false} GatherSucceedsIff(locations: seq<Value>, replies: seq<Result<Value>>, n: nat)
    requires n <= |locations| && n <= |replies|
    ensures Gather(locations, replies, n).Ok? <==> forall k :: 0 <= k < n ==> LocationRecords(locations[k], replies[k]).Ok?
  {
    if n > 0 {
      GatherSucceedsIff(locations, replies, n - 1);
    }
  }

  lemma {:induction false} GatherValue(locations: seq<Value>, replies: seq<Result<Value>>, n: nat)
    requires n <= |locations| && n <= |replies| && Gather(locations, replies, n).Ok?
    ensures Gather(locations, replies, n).value == Concat(Parts(locations, replies, n))
  {
    if n > 0 {
      GatherValue(locations, replies, n - 1);
      var here := LocationRecords(locations[n - 1], replies[n - 1]);
      var parts, prior := Parts(locations, replies, n), Parts(locations, replies, n - 1);
      assert Gather(locations, replies, n).value == Gather(locations, replies, n - 1).value + here.value;
      assert Concat(parts) == Concat(prior) + here.value by {
        assert parts[..n - 1] == prior;
        assert parts[n - 1] == here.value;
      }
    }
  }

  /** A reply without `data` contributes no records. */
  lemma MissingEquipmentContributesNothing(location: Value, fields: seq<Field>)
    requires location.Obj? && !Truthy(Lookup(fields, "data"))
    ensures LocationRecords(location, Ok(Obj(fields))) == Ok([])
  {
  }

  /** Gathering stops at its first failure. */
  lemma {:induction false} GatherErrorSticks(locations: seq<Value>, replies: seq<Result<Value>>, m: nat, n: nat)
    requires m <= n <= |locations| && n <= |replies|
    requires Gather(locations, replies, m).Err?
    ensures Gather(locations, replies, n) == Gather(locations, replies, m)
  {
    if m < n { GatherErrorSticks(locations, replies, m, n - 1); }
  }

  /**
   * One pass of the equipment loop: the location's id, its equipment
   * request, and its tagged records. An undefined or null location sends
   * nothing; otherwise the pass is one more recorded call.
   */
  method LocationEquipment(client: Client, creds: Credentials, p: ApiPath, location: Value, ghost st0: TokenState,
                           ghost sent0: seq<HttpRequest>, ghost requested: seq<RequestOptions>, ghost outcomes: seq<Result<Value>>)
    returns (r: Result<seq<Value>>, ghost reply: Result<Value>)
    requires client.Performed(st0, sent0, creds, requested, outcomes)
    modifies client
    ensures r == LocationRecords(location, reply)
    ensures r.Ok? ==> reply.Ok?
    ensures Get(location, "id").Err? ==> reply.Err? && client.Performed(st0, sent0, creds, requested, outcomes)
    ensures Get(location, "id").Ok? ==>
      client.Performed(st0, sent0, creds, requested + [EquipmentOptions(p, Get(location, "id").value)], outcomes + [reply])
  {
    var locationId := Get(location, "id");
    if locationId.Err? {
      return Err(locationId.message), Err(locationId.message);
    }
    var response := client.ApiRequestNext(creds, EquipmentOptions(p, locationId.value), st0, sent0, requested, outcomes);
    reply := response;
    if response.Err? {
      return Err(response.message), reply;
    }
    var equipment := Records(response.value);
    if equipment.Err? {
      return Err(equipment.message), reply;
    }
    r := Ok(TagLocation(equipment.value, locationId.value));
  }

  /**
   * The calls the equipment loop made for its `replies`: one per location,
   * in order, for the location's equipment endpoint, with that location's
   * reply as outcome; only a last undefined or null location made none.
   */
  ghost predicate EquipmentCalls(p: ApiPath, locations: seq<Value>, replies: seq<Result<Value>>,
                                 requested: seq<RequestOptions>, outcomes: seq<Result<Value>>) {
    && |outcomes| == |requested| <= |replies| <= |locations|
    && (forall k :: 0 <= k < |requested| ==>
      && Get(locations[k], "id").Ok?
      && requested[k] == EquipmentOptions(p, Get(locations[k], "id").value)
      && outcomes[k] == replies[k])
    && (|requested| < |replies| ==> |replies| == |requested| + 1 && Get(locations[|requested|], "id").Err?)
  }

  /** An undefined or null location adds a reply and no call. */
  lemma EquipmentCallsSkip(p: ApiPath, locations: seq<Value>, replies: seq<Result<Value>>,
                           requested: seq<RequestOptions>, outcomes: seq<Result<Value>>, reply: Result<Value>)
    requires EquipmentCalls(p, locations, replies, requested, outcomes)
    requires |replies| == |requested| < |locations| && Get(locations[|replies|], "id").Err?
    ensures EquipmentCalls(p, locations, replies + [reply], requested, outcomes)
  {
    assert forall k :: 0 <= k < |requested| ==> (replies + [reply])[k] == replies[k];
  }

  /** A location with an id adds its equipment call, answered by its reply. */
  lemma EquipmentCallsNext(p: ApiPath, locations: seq<Value>, replies: seq<Result<Value>>,
                           requested: seq<RequestOptions>, outcomes: seq<Result<Value>>, reply: Result<Value>)
    requires EquipmentCalls(p, locations, replies, requested, outcomes)
    requires |replies| == |requested| < |locations| && Get(locations[|replies|], "id").Ok?
    ensures EquipmentCalls(p, locations, replies + [reply],
      requested + [EquipmentOptions(p, Get(locations[|replies|], "id").value)], outcomes + [reply])
  {
    var requested' := requested + [EquipmentOptions(p, Get(locations[|replies|], "id").value)];
    forall k | 0 <= k < |requested'|
      ensures && Get(locations[k], "id").Ok?
              && requested'[k] == EquipmentOptions(p, Get(locations[k], "id").value)
              && (outcomes + [reply])[k] == (replies + [reply])[k]
    {
      if k < |requested| {
        assert requested'[k] == requested[k];
        assert (outcomes + [reply])[k] == outcomes[k] && (replies + [reply])[k] == replies[k];
      }
    }
  }

  /** One pass of the equipment loop, with the calls made so far extended by this location's call. */
  method EquipmentStep(client: Client, creds: Credentials, p: ApiPath, locations: seq<Value>, i: nat, ghost st0: TokenState,
                       ghost sent0: seq<HttpRequest>, ghost before: seq<RequestOptions>, ghost beforeOutcomes: seq<Result<Value>>,
                       ghost replies: seq<Result<Value>>, ghost requested: seq<RequestOptions>, ghost outcomes: seq<Result<Value>>, acc: seq<Value>)
    returns (tagged: Result<seq<Value>>, ghost reply: Result<Value>, ghost requested': seq<RequestOptions>, ghost outcomes': seq<Result<Value>>)
    requires i < |locations| && |replies| == i == |requested| && Gather(locations, replies, i) == Ok(acc)
    requires EquipmentCalls(p, locations, replies, requested, outcomes)
    requires client.Performed(st0, sent0, creds, before + requested, beforeOutcomes + outcomes)
    modifies client
    ensures Gather(locations, replies + [reply], i) == Ok(acc)
    ensures Gather(locations, replies + [reply], i + 1) == if tagged.Ok? then Ok(acc + tagged.value) else Err(tagged.message)
    ensures EquipmentCalls(p, locations, replies + [reply], requested', outcomes')
    ensures client.Performed(st0, sent0, creds, before + requested', beforeOutcomes + outcomes')
    ensures outcomes' == outcomes || outcomes' == outcomes + [reply]
    ensures tagged.Ok? ==> reply.Ok? && |requested'| == i + 1 && outcomes' == outcomes + [reply]
  {
    tagged, reply := LocationEquipment(client, creds, p, locations[i], st0, sent0, before + requested, beforeOutcomes + outcomes);
    GatherStep(locations, replies, reply, acc);
    if Get(locations[i], "id").Err? {
      EquipmentCallsSkip(p, locations, replies, requested, outcomes, reply);
      requested', outcomes' := requested, outcomes;
    } else {
      ghost var options := EquipmentOptions(p, Get(locations[i], "id").value);
      EquipmentCallsNext(p, locations, replies, requested, outcomes, reply);
      AppendAssociates(before, requested, [options]);
      AppendAssociates(beforeOutcomes, outcomes, [reply]);
      requested', outcomes' := requested + [options], outcomes + [reply];
    }
  }

  /** The equipment loop over `locations`: one equipment request per location, in order, until one fails. */
  method EquipmentOfLocations(client: Client, creds: Credentials, p: ApiPath, locations: seq<Value>, ghost st0: TokenState,
                              ghost sent0: seq<HttpRequest>, ghost before: seq<RequestOptions>, ghost beforeOutcomes: seq<Result<Value>>)
    returns (r: Result<seq<Value>>, ghost replies: seq<Result<Value>>, ghost requested: seq<RequestOptions>, ghost outcomes: seq<Result<Value>>)
    requires client.Performed(st0, sent0, creds, before, beforeOutcomes)
    modifies client
    ensures |replies| <= |locations| && r == Gather(locations, replies, |replies|)
    ensures EquipmentCalls(p, locations, replies, requested, outcomes)
    ensures client.Performed(st0, sent0, creds, before + requested, beforeOutcomes + outcomes)
    ensures 0 < |replies| ==> Gather(locations, replies, |replies| - 1).Ok?
    ensures r.Ok? ==> |replies| == |locations| == |requested|
  {
    replies, requested, outcomes := [], [], [];
    var allEquipment: seq<Value> := [];
    assert before + [] == before && beforeOutcomes + [] == beforeOutcomes;
    for i := 0 to |locations|
      invariant |replies| == i == |requested|
      invariant Gather(locations, replies, i) == Ok(allEquipment)
      invariant EquipmentCalls(p, locations, replies, requested, outcomes)
      invariant 0 < i ==> Gather(locations, replies, i - 1).Ok?
      invariant client.Performed(st0, sent0, creds, before + requested, beforeOutcomes + outcomes)
    {
      var tagged;
      ghost var reply;
      tagged, reply, requested, outcomes :=
        EquipmentStep(client, creds, p, locations, i, st0, sent0, before, beforeOutcomes, replies, requested, outcomes, allEquipment);
      replies := replies + [reply];
      if tagged.Err? {
        return Err(tagged.message), replies, requested, outcomes;
      }
      allEquipment := allEquipment + tagged.value;
    }
    r := Ok(allEquipment);
  }

  /** The loop stops at the first failed request, so every call before the last one succeeded. */
  lemma EquipmentOutcomesOk(p: ApiPath, locations: seq<Value>, replies: seq<Result<Value>>, requested: seq<RequestOptions>,
                            outcomes: seq<Result<Value>>, first: Result<Value>)
    requires EquipmentCalls(p, locations, replies, requested, outcomes) && first.Ok?
    requires 0 < |replies| ==> Gather(locations, replies, |replies| - 1).Ok?
    ensures forall k :: 0 <= k < |[first] + outcomes| - 1 ==> ([first] + outcomes)[k].Ok?
  {
    var all := [first] + outcomes;
    if 0 < |replies| {
      GatherOkReplies(locations, replies, |replies| - 1);
    }
    forall k | 0 <= k < |all| - 1
      ensures all[k].Ok?
    {
      if k > 0 {
        assert all[k] == outcomes[k - 1] == replies[k - 1];
      }
    }
  }

  /**
   * `getCustomerEquipment`: one locations request, then one equipment
   * request per location in order, each location's equipment tagged with its
   * id and appended, stopping at the first location whose request or records
   * fail. Every call that succeeded was answered by the server's reply to its
   * own request.
   */
  method GetCustomerEquipment(client: Client, creds: Credentials, customerId: string)
    returns (r: Result<seq<ExecutionItem>>, ghost first: Result<Value>, ghost locations: seq<Value>, ghost replies: seq<Result<Value>>,
             ghost requested: seq<RequestOptions>, ghost outcomes: seq<Result<Value>>)
    modifies client
    ensures client.Performed(old(client.TokenStateOf()), old(client.sent), creds,
      [CustomerLocationsOptions(customerId)] + requested, [first] + outcomes)
    ensures AnsweredInOrder(old(client.sent), client.sent, client.apiServer, CarriesFor(creds),
      [CustomerLocationsOptions(customerId)] + requested, [first] + outcomes)
    ensures LocationList(first).Err? ==> r == Err(LocationList(first).message) && requested == []
    ensures LocationList(first).Ok? ==>
      && locations == LocationList(first).value
      && EquipmentCalls(LOCATIONS_PATH, locations, replies, requested, outcomes)
      && r == Emitted(Gather(locations, replies, |replies|))
      && (0 < |replies| ==> Gather(locations, replies, |replies| - 1).Ok?)
    ensures r.Ok? ==> |replies| == |locations| == |requested|
  {
    ghost var st0, sent0 := client.TokenStateOf(), client.sent;
    var locationsResponse := Call(client, creds, CustomerLocationsOptions(customerId));
    first := locationsResponse;
    var found := LocationList(locationsResponse);
    if found.Err? {
      r, locations, replies, requested, outcomes := Err(found.message), [], [], [], [];
      assert [CustomerLocationsOptions(customerId)] + [] == [CustomerLocationsOptions(customerId)] && [first] + [] == [first];
      ExchangeSends(creds, client.ServersOf());
      AnsweredWhileSucceeding(CallWith(creds, client.ServersOf()), client.apiServer, CarriesFor(creds), st0, sent0,
        [CustomerLocationsOptions(customerId)], [first], client.TokenStateOf(), client.sent);
      return;
    }
    locations := found.value;
    r, replies, requested, outcomes := EquipmentAfterLocations(client, creds, customerId, first, found.value, st0, sent0);
  }

  /** What `getCustomerEquipment` does once its locations request succeeded: the equipment loop, answered in order. */
  method EquipmentAfterLocations(client: Client, creds: Credentials, customerId: string, ghost first: Result<Value>, locations: seq<Value>,
                                 ghost st0: TokenState, ghost sent0: seq<HttpRequest>)
    returns (r: Result<seq<ExecutionItem>>, ghost replies: seq<Result<Value>>, ghost requested: seq<RequestOptions>, ghost outcomes: seq<Result<Value>>)
    requires first.Ok?
    requires client.Performed(st0, sent0, creds, [CustomerLocationsOptions(customerId)], [first])
    modifies client
    ensures client.Performed(st0, sent0, creds, [CustomerLocationsOptions(customerId)] + requested, [first] + outcomes)
    ensures AnsweredInOrder(sent0, client.sent, client.apiServer, CarriesFor(creds),
      [CustomerLocationsOptions(customerId)] + requested, [first] + outcomes)
    ensures EquipmentCalls(LOCATIONS_PATH, locations, replies, requested, outcomes)
    ensures r == Emitted(Gather(locations, replies, |replies|))
    ensures 0 < |replies| ==> Gather(locations, replies, |replies| - 1).Ok?
    ensures r.Ok? ==> |replies| == |locations| == |requested|
  {
    var allEquipment;
    allEquipment, replies, requested, outcomes :=
      EquipmentOfLocations(client, creds, LOCATIONS_PATH, locations, st0, sent0, [CustomerLocationsOptions(customerId)], [first]);
    r := Emitted(allEquipment);
    EquipmentOutcomesOk(LOCATIONS_PATH, locations, replies, requested, outcomes, first);
    ExchangeSends(creds, client.ServersOf());
    AnsweredWhileSucceeding(CallWith(creds, client.ServersOf()), client.apiServer, CarriesFor(creds), st0, sent0,
      [CustomerLocationsOptions(customerId)] + requested, [first] + outcomes, client.TokenStateOf(), client.sent);
  }

  // ---------------------------------------------------------------------------
  // createLocation / getLocationHistory

  /** The `address` object `createLocation` builds, with `country` defaulting to `'US'`. */
  function LocationAddress(street: string, city: string, state: string, zip: string, additionalFields: seq<Field>): Value {
    Obj([
      Field("street", Str(street)),
      Field("city", Str(city)),
      Field("state", Str(state)),
      Field("zip", Str(zip)),
      Field("country", Or(Lookup(additionalFields, "country"), Str("US")))])
  }

  /**
   * The `createLocation` body: `customerId` and `address`, the cleaned
   * additional fields spread over them, and then the root-level `country`
   * deleted. `customerId` is the already parsed id.
   */
  function LocationBody(customerId: Value, street: string, city: string, state: string, zip: string,
                        additionalFields: seq<Field>): seq<Field> {
    Delete(Spread([Field("customerId", customerId), Field("address", LocationAddress(street, city, state, zip, additionalFields))],
                  CleanFields(additionalFields)), "country")
  }

  /** The built address carries the four parameters and the additional `country`, or `'US'` when that is falsy. */
  lemma LocationAddressFields(street: string, city: string, state: string, zip: string, additionalFields: seq<Field>)
    ensures var a := LocationAddress(street, city, state, zip, additionalFields).fields;
      Lookup(a, "street") == Str(street) && Lookup(a, "city") == Str(city)
      && Lookup(a, "state") == Str(state) && Lookup(a, "zip") == Str(zip)
      && Lookup(a, "country") == if Truthy(Lookup(additionalFields, "country")) then Lookup(additionalFields, "country") else Str("US")
  {
    var a := LocationAddress(street, city, state, zip, additionalFields).fields;
    LookupFirst(a, "city", 1);
    LookupFirst(a, "state", 2);
    LookupFirst(a, "zip", 3);
    LookupFirst(a, "country", 4);
  }

  /**
   * Field by field: no root-level `country`; a surviving cleaned additional
   * field (even `address` or `customerId`) replaces the built value; any
   * other key is absent.
   */
  lemma LocationBodyFields(customerId: Value, street: string, city: string, state: string, zip: string,
                           additionalFields: seq<Field>, key: string)
    requires DistinctKeys(additionalFields)
    ensures Lookup(LocationBody(customerId, street, city, state, zip, additionalFields), key) ==
      if key == "country" then Undefined
      else if Cleaned(Lookup(additionalFields, key)) != Undefined then Cleaned(Lookup(additionalFields, key))
      else if key == "customerId" then customerId
      else if key == "address" then LocationAddress(street, city, state, zip, additionalFields)
      else Undefined
  {
    var base := [Field("customerId", customerId), Field("address", LocationAddress(street, city, state, zip, additionalFields))];
    LookupSpreadCleaned(base, additionalFields, key);
    LookupDelete(Spread(base, CleanFields(additionalFields)), "country", key);
    assert base[1..] == [base[1]] && [base[1]][1..] == [];
    assert Lookup([base[1]], key) == if key == "address" then base[1].value else Lookup([base[1]][1..], key);
  }

  /** The body's keys: `customerId`, `address` and the surviving additional fields, never `country`. */
  lemma LocationBodyKeys(customerId: Value, street: string, city: string, state: string, zip: string,
                         additionalFields: seq<Field>)
    ensures KeySet(LocationBody(customerId, street, city, state, zip, additionalFields)) ==
      ({"customerId", "address"} + KeySet(CleanFields(additionalFields))) - {"country"}
  {
    var base := [Field("customerId", customerId), Field("address", LocationAddress(street, city, state, zip, additionalFields))];
    KeySetSpread(base, CleanFields(additionalFields));
    KeySetDelete(Spread(base, CleanFields(additionalFields)), "country");
    assert base[1..] == [base[1]] && [base[1]][1..] == [];
    assert KeySet([base[1]]) == {"address"};
    assert KeySet(base) == {"customerId"} + KeySet(base[1..]);
  }

  /** `createLocation`: build the merged body, delete its root `country` in place, POST it. */
  method CreateLocation(client: Client, creds: Credentials, customerId: Value, street: string, city: string,
                        state: string, zip: string, additionalFields: seq<Field>)
    returns (r: Result<seq<ExecutionItem>>, ghost outcome: Result<Value>)
    modifies client
    ensures client.Performed(old(client.TokenStateOf()), old(client.sent), creds,
      [RequestOptions("POST", PathText(LOCATIONS_PATH), Some(LocationBody(customerId, street, city, state, zip, additionalFields)), None)], [outcome])
    ensures SentAtMostOne(client.sent, old(client.sent), creds,
      RequestOptions("POST", PathText(LOCATIONS_PATH), Some(LocationBody(customerId, street, city, state, zip, additionalFields)), None))
    ensures Answered(outcome, client.apiServer, client.sent, old(client.sent))
    ensures r == SingleOutput(outcome)
  {
    var cleaned := CleanObject(additionalFields);
    var body := Spread([Field("customerId", customerId), Field("address", LocationAddress(street, city, state, zip, additionalFields))],
                       cleaned);
    body := Delete(body, "country");
    var response := Call(client, creds, RequestOptions("POST", PathText(LOCATIONS_PATH), Some(body), None));
    outcome := response;
    r := SingleOutput(response);
  }

  /** The `getLocationHistory` query: `buildQueryString({...filters, locationId})`. */
  function HistoryQuery(filters: seq<Field>, locationId: string): seq<Field> {
    QueryInto([], Put(Spread([], filters), "locationId", Str(locationId)))
  }

  /**
   * `locationId` overrides a same-named filter (and, being a plain string, is
   * dropped only when empty); every other key is the filter query's.
   */
  lemma HistoryQueryFields(filters: seq<Field>, locationId: string, key: string)
    requires DistinctKeys(filters)
    ensures Lookup(HistoryQuery(filters, locationId), key) ==
      if key == "locationId" then (if locationId == "" then Undefined else Str(locationId))
      else if IsBlank(Lookup(filters, key)) then Undefined
      else QueryValue(key, Lookup(filters, key))
  {
    var merged := Put(Spread([], filters), "locationId", Str(locationId));
    DistinctSpread([], filters);
    DistinctPut(Spread([], filters), "locationId", Str(locationId));
    BuildQueryStringLookup(merged, key);
    LookupPut(Spread([], filters), "locationId", Str(locationId), key);
    LookupSpread([], filters, key);
    if key !in KeySet(filters) { LookupAbsent(filters, key); }
    assert !IsRangeKey("locationId");
  }

  /** `getLocationHistory`: the jobs endpoint queried by the location's history filter. */
  method GetLocationHistory(client: Client, creds: Credentials, locationId: string, filters: seq<Field>)
    returns (r: Result<seq<ExecutionItem>>, ghost outcome: Result<Value>)
    modifies client
    ensures client.Performed(old(client.TokenStateOf()), old(client.sent), creds,
      [RequestOptions("GET", PathText(JOBS_PATH), None, Some(HistoryQuery(filters, locationId)))], [outcome])
    ensures SentAtMostOne(client.sent, old(client.sent), creds,
      RequestOptions("GET", PathText(JOBS_PATH), None, Some(HistoryQuery(filters, locationId))))
    ensures Answered(outcome, client.apiServer, client.sent, old(client.sent))
    ensures r == ListOutput(outcome)
  {
    var qs := BuildQueryString(Put(Spread([], filters), "locationId", Str(locationId)));
    var response := Call(client, creds, RequestOptions("GET", PathText(JOBS_PATH), None, Some(qs)));
    outcome := response;
    r := ListOutput(response);
  }
}
