# ServiceTitan n8n node: a verified model of its core

This project models the core of the ServiceTitan integration for n8n in Dafny,
and proves properties of that model. The core covers:

- **The authenticated transport.** This is the process-wide OAuth2 token cache.
  A token is requested with the client-credentials grant (section 4.4 of
  RFC 6749), and its reply has the shape of section 5.1 of RFC 6749. The
  transport also assembles each request with a bearer header (section 2.1 of
  RFC 6750), and runs the paging loop that collects list results page by page.
- **The object and query helpers.** These clean objects, build query strings
  and format phone numbers and addresses. They also check required fields,
  look up status codes and test the shape of an e-mail address.
- **The trigger node.** It normalises each received webhook into one flat
  record. It also keeps its registration state in the workflow's static data.
- **The action node's `execute` loop.** It walks the input items in order and
  dispatches each through two levels of string switches. With continue-on-fail
  set, an error item takes the place of a failing item.
- **The constant tables.** These are the resource list, one operation list per
  resource, the trigger events and the endpoint paths.
- **The representative customer and location actions.** These are list
  (single page or all pages), create, update, location history, and the
  equipment aggregation across a customer's locations.

Files and modules:

| file | module | what it holds |
|---|---|---|
| `results.dfy` | `Results` | `Result` and `Option` |
| `text.dfy` | `Text` | string helpers: digits, decimal text, join |
| `json.dfy` | `Json` | JSON-like `Value`, objects as ordered key/value lists; JavaScript truthiness, `||`, property read, assignment, `delete`, object spread, laws about them |
| `constants.dfy` | `Constants` | `constants/constants.ts` |
| `helpers.dfy` | `Helpers` | `utils/helpers.ts` |
| `client.dfy` | `Transport` | `transport/client.ts`, with the `Client` class holding the token cache and the log of sent requests |
| `trigger.dfy` | `Trigger` | `ServiceTitanTrigger.node.ts`, with the `Registration` class over the static data |
| `node.dfy` | `Node` | `ServiceTitan.node.ts`: the `execute` loop and the 17 dispatchers |
| `actions.dfy` | `Actions` | the modelled customer and location actions |

The following are oracles fixed when a `Transport.Client` is built:

- The wall clock is a function of how many times it has been read.
- The token endpoint is a function of the request and its sequence number.
- The API server is a finite script of replies, one per request sent. A
  request past the end of the script fails.

Each action handler of the batch loop is also an oracle: a function from
resource, operation and item index to success or failure.

Source behaviours worth noting, which the model keeps:

- A webhook whose body is `undefined` or `null` throws. Without a truthy
  `x-servicetitan-event` header it throws at `body.eventType`; with one, `||`
  skips that read and it throws at `body.data` instead. The model returns an
  error in both cases, and `Trigger.Webhook` states exactly when.
- The event-specific fields are chosen by the configured `event` parameter.
  The output `event` field, however, prefers the received header or body
  event type. `Trigger.ExtractionFollowsConfiguredEvent` shows the two
  disagreeing.
- The second `if` of `formatPhoneNumber` can never be reached: after the first
  `if`, a 10-digit string has become 11 digits. `Helpers.FormatPhoneNumberShape`
  states the resulting behaviour.

## Model

| member | source | states |
|---|---|---|
| Constants.ResourcesDistinct | nodes/ServiceTitan/constants/constants.ts:18-36 | RESOURCES has 17 entries whose values are pairwise distinct |
| Constants.CrmTablesDistinct | nodes/ServiceTitan/constants/constants.ts:38-72 | customer, location and job operation values are each pairwise distinct; so are the appointment values (74-84) |
| Constants.SalesTablesDistinct | nodes/ServiceTitan/constants/constants.ts:86-123 | booking, lead, invoice and payment operation values are each pairwise distinct |
| Constants.FieldTablesDistinct | nodes/ServiceTitan/constants/constants.ts:125-161 | estimate, technician, dispatch and inventory operation values are each pairwise distinct |
| Constants.OtherTablesDistinct | nodes/ServiceTitan/constants/constants.ts:163-200 | pricebook, membership, campaign, report and user operation values are each pairwise distinct |
| Constants.TriggerEventsDistinct | nodes/ServiceTitan/constants/constants.ts:202-213 | TRIGGER_EVENTS has ten pairwise distinct values |
| Constants.ApiPathsWellShaped | nodes/ServiceTitan/constants/constants.ts:215-263 | every API_PATHS entry is `<service>/v2/tenant/{tenant}<resource>`, where the service has no `{` and no `/`, and the resource is empty or starts with `/` and has no `{` |
| Constants.PlaceholderOnce | nodes/ServiceTitan/constants/constants.ts:217-263 | in a well-shaped path, `{tenant}` occurs at exactly one position, directly after `v2/tenant/` |
| Transport.IndexOfText | nodes/ServiceTitan/transport/client.ts:95-97 | the result is -1 exactly when the pattern never occurs; otherwise it is the first position where it occurs |
| Transport.ResolvePathFirstOnly | nodes/ServiceTitan/transport/client.ts:95-97 | only the first `{tenant}` is replaced by the tenant id, and the rest of the path is kept verbatim; the source's `replace` gives the same for a tenant id without `$` |
| Transport.ResolvePathNoPlaceholder | nodes/ServiceTitan/transport/client.ts:95-97 | a path without `{tenant}` is returned unchanged |
| Transport.ResolvePathAgrees | nodes/ServiceTitan/transport/client.ts:95-97 | for a tenant id without `$`, the string-replace semantics (`$` patterns) coincide with literal replacement |
| Transport.ResolveApiPath | nodes/ServiceTitan/transport/client.ts:95-97 | resolving an API path gives `<service>/v2/tenant/<tenantId><resource>`; so does the source's `replace` for a tenant id without `$` |
| Transport.ResolvedApiPathHasNoPlaceholder | nodes/ServiceTitan/transport/client.ts:95-97 | resolving any API path with a tenant id that has no `{tenant}` leaves no `{tenant}` anywhere |
| Transport.ResolvePathAsWrittenKeepsPlaceholder | nodes/ServiceTitan/transport/client.ts:95-97 | with tenant id `$&`, the source's replace returns the path unchanged, so `{tenant}` is still in the URL |
| Transport.AmpersandRestoresMatch | nodes/ServiceTitan/transport/client.ts:95-97 | `$&` as the replacement re-inserts the matched text, so any path comes back unchanged |
| Transport.EncodeUnreserved | nodes/ServiceTitan/transport/client.ts:66 | `encodeURIComponent` leaves a string of unreserved characters unchanged |
| Transport.EncodedHasNoSeparators | nodes/ServiceTitan/transport/client.ts:66 | an encoded credential never contains `&` or `=`, so it cannot break the form body |
| Transport.TokenRequestFor | nodes/ServiceTitan/transport/client.ts:48-67 | the token request goes to `https://<authHost>/connect/token` and its body starts with the client-credentials grant and the client id |
| Transport.ParseTokenReply | nodes/ServiceTitan/transport/client.ts:69-74 | a reply without a truthy `access_token` fails with the fixed message; a failed request fails with its own message; a success carries a truthy token |
| Transport.AcquireTokenReuses | nodes/ServiceTitan/transport/client.ts:50-56 | a cached entry with more than 300000 ms of life left is returned, with no token request and no cache change |
| Transport.ExpiryBoundaryIsStale | nodes/ServiceTitan/transport/client.ts:54 | an entry expiring exactly at now + 300000 counts as stale |
| Transport.AcquireTokenRequests | nodes/ServiceTitan/transport/client.ts:50-67 | with no fresh entry, exactly one token request is made, the one built from the credentials |
| Transport.AcquireTokenStores | nodes/ServiceTitan/transport/client.ts:58-82 | after a successful fetch, only the entry under `clientId:tenantId` changes; it holds the returned token, expiring at now + expires_in*1000 |
| Transport.AcquireTokenFailure | nodes/ServiceTitan/transport/client.ts:69-74 | a reply without `access_token` fails and leaves the cache unchanged |
| Transport.FetchedTokenReuse | nodes/ServiceTitan/transport/client.ts:54-80 | a freshly fetched token is reused by the next call exactly when expires_in*1000 exceeds the leeway plus the elapsed time |
| Transport.Client.GetAccessToken | nodes/ServiceTitan/transport/client.ts:41-83 | the method's result and new cache, clock and token-request state are those of the cache-or-fetch specification; no API request is sent |
| Transport.BaseUrl | nodes/ServiceTitan/transport/client.ts:88-90 | the base URL is `https://` followed by the host |
| Transport.AssembleRequest | nodes/ServiceTitan/transport/client.ts:116-141 | the URL is base + `/` + resolved path; the three headers are always set; the body and query are attached exactly when present and non-empty |
| Transport.RequestUrlForApiPath | nodes/ServiceTitan/transport/client.ts:116-126 | the URL of an API path is `https://<apiHost>/<service>/v2/tenant/<tenantId><resource>`, where apiHost defaults to `api.servicetitan.io` when empty |
| Transport.AnswerWraps | nodes/ServiceTitan/transport/client.ts:143-150 | a reply yields its body; a transport failure yields an error that starts with the node's prefix and ends with the transport's own message |
| Transport.Client.ApiRequest | nodes/ServiceTitan/transport/client.ts:109-151 | the token state moves as one token acquisition; a token failure is the result and sends nothing; otherwise exactly the assembled request is sent, and the result is the server's reply to it |
| Transport.RecordedOnce | nodes/ServiceTitan/transport/client.ts:109-151 | a recorded call is one `serviceTitanApiRequest`: a token failure sends nothing and is the outcome; otherwise the request assembled with the token is sent and the server's reply to it is the outcome |
| Transport.ExchangeSends | nodes/ServiceTitan/transport/client.ts:109-151 | each call sends at most one request, and a successful call sends exactly one, carrying the caller's method, endpoint, body and query, answered by the server's reply to it |
| Transport.ExchangesInOrder | nodes/ServiceTitan/transport/client.ts:109-151 | in a run of calls where every call but the last succeeded, call `j` that succeeded sent request number `n + j`, carrying its own options, and got the server's reply to it |
| Transport.AnsweredWhileSucceeding | nodes/ServiceTitan/transport/client.ts:109-151 | the same, stated over a client's record of calls and its log of sent requests |
| Transport.Client.ApiRequestNext | nodes/ServiceTitan/transport/client.ts:109-151 | one more call extends the client's record of calls; a success used up exactly one reply of the server's script |
| Transport.Client.ApiRequestAllItems | nodes/ServiceTitan/transport/client.ts:156-195 | pages 1, 2, 3, ... are requested in turn with pageSize 100, one recorded call each, so the token state and the sent log are those calls' and nothing else; every successful page is the server's reply to its own request; every page but the last continues the loop, and the result is the paging specification run over those outcomes |
| Transport.Client.RequestPage | nodes/ServiceTitan/transport/client.ts:169-176 | one pass of the paging loop: the page's request is one more recorded call, the run takes exactly one step on its outcome, the pages stay answered in order, and a success used up one reply of the script |
| Transport.NextPage | nodes/ServiceTitan/transport/client.ts:169-192 | one more page advances the paging run by one step, and the pages so far stay answered in order |
| Transport.RunCollects | nodes/ServiceTitan/transport/client.ts:177-178 | while the loop continues, it has collected the in-order concatenation of every page's items (a missing array counts as empty) |
| Transport.RunResult | nodes/ServiceTitan/transport/client.ts:181-191 | with no limit, the result is all fetched items; with a limit, it is a prefix of them of at most `limit` items, and all of them when fewer than `limit` |
| Transport.RunExtend | nodes/ServiceTitan/transport/client.ts:169-192 | one more page either ends the loop or continues it, keeping every earlier prefix continuing |
| Transport.FirstMissingIsFirstReported | nodes/ServiceTitan/transport/client.ts:205-212 | the reported field is the first required field, in list order, whose value is undefined, null or `''` |
| Transport.ValidateRequiredParams | nodes/ServiceTitan/transport/client.ts:200-213 | succeeds exactly when no required field is missing; otherwise fails naming the first missing one |
| Transport.ParseServiceTitanError | nodes/ServiceTitan/transport/client.ts:228-240 | a non-Error gives "Unknown error occurred"; otherwise a truthy body message wins, then a truthy `errors` joined with `", "`, then the error's own message; it throws exactly when `errors` is truthy, not an array and the message is falsy |
| Transport.BodyMessageWins | nodes/ServiceTitan/transport/client.ts:231-233 | a non-empty body message is chosen over the errors list |
| Transport.ErrorsJoined | nodes/ServiceTitan/transport/client.ts:234-236 | for any body with a falsy message, an `errors` array joined with `", "` is chosen, whatever else the body holds |
| Transport.ErrorsNotArrayThrows | nodes/ServiceTitan/transport/client.ts:234-236 | for any body with a falsy message, a truthy `errors` that is not an array makes `join` throw |
| Transport.ErrorMessageLast | nodes/ServiceTitan/transport/client.ts:237 | with neither body message nor errors, the error's own message is chosen |
| Helpers.SimplifyOutputIdempotent | nodes/ServiceTitan/utils/helpers.ts:13-18 | simplifying an already simplified list changes nothing |
| Helpers.ToExecutionDataRoundTrip | nodes/ServiceTitan/utils/helpers.ts:23-27 | wrapping items as `{json}` keeps their number and order (the payloads come back exactly), with no paired item |
| Helpers.BuildQueryString | nodes/ServiceTitan/utils/helpers.ts:32-49 | the loop's accumulated query equals the left fold over the filters |
| Helpers.BuildQueryStringLookup | nodes/ServiceTitan/utils/helpers.ts:32-49 | key by key: blank values are dropped; arrays are joined with `,` unless the key ends in `From` or `To`; other values are copied; no new keys appear |
| Helpers.BuildQueryStringCopiesPlain | nodes/ServiceTitan/utils/helpers.ts:36-45 | filters that are all non-blank and need no joining come back unchanged, in order |
| Helpers.BuildQueryStringCopiesScalars | nodes/ServiceTitan/utils/helpers.ts:32-49 | the pinned examples: scalar filters are copied in order, and no filters give an empty query |
| Helpers.BuildQueryStringSkipsBlank | nodes/ServiceTitan/utils/helpers.ts:36-38 | the pinned example: undefined and null filters are dropped |
| Helpers.BuildQueryStringJoinsArrays | nodes/ServiceTitan/utils/helpers.ts:39-43 | the pinned examples: `[1,2,3]` becomes `"1,2,3"`, and a `...From` array is copied verbatim |
| Helpers.CleanObject | nodes/ServiceTitan/utils/helpers.ts:54-71 | the loop's cleaned object equals the recursive cleaning fold |
| Helpers.CleanFieldsIsClean | nodes/ServiceTitan/utils/helpers.ts:54-71 | the cleaned object has no undefined, null or `''` value and no empty nested object, at any depth |
| Helpers.CleanObjectIdempotent | nodes/ServiceTitan/utils/helpers.ts:58-66 | cleaning a cleaned object changes nothing |
| Helpers.CleanObjectLookup | nodes/ServiceTitan/utils/helpers.ts:54-71 | each key of the result holds the cleaned input value; the result's keys are a subset of the input's; so `false`, `0` and arrays are kept |
| Helpers.CleanObjectDropsUndefinedAndNull | nodes/ServiceTitan/utils/helpers.ts:58-60 | the pinned example: undefined and null values are removed |
| Helpers.CleanObjectDropsEmptyString | nodes/ServiceTitan/utils/helpers.ts:58-60 | the pinned example: an empty string is removed |
| Helpers.CleanObjectCleansNested | nodes/ServiceTitan/utils/helpers.ts:61-64 | the pinned example: a nested object is cleaned recursively |
| Helpers.FormatPhoneNumberShape | nodes/ServiceTitan/utils/helpers.ts:86-100 | the result is `+`, then `1` exactly when ten digits remain, then the input's digits in order |
| Helpers.FormatPhoneNumberIdempotent | nodes/ServiceTitan/utils/helpers.ts:86-100 | formatting a formatted number changes nothing |
| Helpers.FormatPhoneNumberOfDigits | nodes/ServiceTitan/utils/helpers.ts:86-100 | an all-digit input gets `+1` when it has ten digits, and `+` otherwise |
| Helpers.FormatAddressNormal | nodes/ServiceTitan/utils/helpers.ts:105-114 | truthy fields are kept, country is always truthy, and formatting is idempotent |
| Helpers.ExtractPaginationInfoNormal | nodes/ServiceTitan/utils/helpers.ts:144-151 | `hasMore` keeps the response's truthiness, the page is always truthy, and extraction is idempotent |
| Helpers.GetStatusCode | nodes/ServiceTitan/utils/helpers.ts:209-214 | a code is found exactly when both the resource and the status are in STATUS_MAP |
| Helpers.StatusCodesDistinct | nodes/ServiceTitan/utils/helpers.ts:177-204 | within a resource, codes lie in 1..5, and distinct statuses have distinct codes |
| Helpers.GetStatusCodeExamples | nodes/ServiceTitan/utils/helpers.ts:177-214 | pinned lookups: job/pending is 1, job/completed is 4, and unknown resources and statuses give nothing |
| Helpers.ValidateEmailMatchesPattern | nodes/ServiceTitan/utils/helpers.ts:219-222 | true exactly when: no whitespace, exactly one `@`, a non-empty part before it, and after it a `.` that is neither first nor last |
| Helpers.ValidateEmailAccepts | nodes/ServiceTitan/utils/helpers.ts:219-222 | the pinned accepted example |
| Helpers.ValidateEmailRejects | nodes/ServiceTitan/utils/helpers.ts:219-222 | the pinned rejected examples, including a domain that ends in a dot |
| Helpers.ValidateRequired | nodes/ServiceTitan/utils/helpers.ts:227-240 | the loop's missing list equals the in-order filter of the required fields |
| Helpers.MissingFieldsExactly | nodes/ServiceTitan/utils/helpers.ts:227-240 | a field is reported exactly when it is required and blank; the list is no longer than the required list |
| Helpers.ValidateRequiredExamples | nodes/ServiceTitan/utils/helpers.ts:227-240 | the pinned examples |
| Trigger.EventOptionsMatchTable | nodes/ServiceTitan/ServiceTitanTrigger.node.ts:58-106 | the trigger's event options are exactly the values of TRIGGER_EVENTS, in order |
| Trigger.Webhook | nodes/ServiceTitan/ServiceTitanTrigger.node.ts:178-273 | the webhook fails exactly when the body is undefined or null |
| Trigger.NormalisedFields | nodes/ServiceTitan/ServiceTitanTrigger.node.ts:187-201 | `event` prefers the header, then `body.eventType`, then the configured event; `webhookId` falls back to null; `data` to the whole body; raw payload and headers are added verbatim exactly when `includeRawData` is truthy |
| Trigger.WebhookRecord | nodes/ServiceTitan/ServiceTitanTrigger.node.ts:204-272 | the record is the normalised one plus the configured event's fields, exactly when `body.data` is truthy; each such field holds its rule's value; every other key is unchanged |
| Trigger.ExtractionRulesCoverEvents | nodes/ServiceTitan/ServiceTitanTrigger.node.ts:206-267 | an event has extraction rules exactly when it is one of the ten trigger events |
| Trigger.ExtractionKeepsBaseFields | nodes/ServiceTitan/ServiceTitanTrigger.node.ts:190-267 | no extraction case assigns `event`, `timestamp`, `webhookId`, `data`, `rawPayload` or `headers` |
| Trigger.ExtractionRulesDistinct | nodes/ServiceTitan/ServiceTitanTrigger.node.ts:207-266 | within each case, no field is assigned twice |
| Trigger.CustomerCreatedRules | nodes/ServiceTitan/ServiceTitanTrigger.node.ts:225-231 | the `customerCreated` case assigns four fields, reads the id first as `data.id \|\| data.customerId`, and assigns neither `event` nor `jobId` |
| Trigger.ExtractionFollowsConfiguredEvent | nodes/ServiceTitan/ServiceTitanTrigger.node.ts:187-206 | a `jobCompleted` delivery to a node configured for `customerCreated` reports `event: jobCompleted`, extracts `customerId`, and has no `jobId` |
| Trigger.CreateThenExists | nodes/ServiceTitan/ServiceTitanTrigger.node.ts:143-156 | after `create`, `checkExists` holds for the same URL, and the stored event is the configured one |
| Trigger.RegistrationKeepsOtherKeys | nodes/ServiceTitan/ServiceTitanTrigger.node.ts:155-171 | `create` and `delete` change no other static-data key |
| Trigger.DeleteThenAbsent | nodes/ServiceTitan/ServiceTitanTrigger.node.ts:143-171 | after `delete`, both keys are gone, and `checkExists` holds only when the current URL is itself undefined |
| Trigger.Registration.CheckExists | nodes/ServiceTitan/ServiceTitanTrigger.node.ts:131-148 | true exactly when the stored URL strictly equals the current one |
| Trigger.Registration.Create | nodes/ServiceTitan/ServiceTitanTrigger.node.ts:149-165 | stores the URL and the event in the static data and returns true |
| Trigger.Registration.Delete | nodes/ServiceTitan/ServiceTitanTrigger.node.ts:166-174 | removes both keys from the static data and returns true |
| Node.ResourceSwitchMatches | nodes/ServiceTitan/ServiceTitan.node.ts:1553-1604 | the resource switch's cases are exactly the RESOURCES values: each value is a case, and there are no extras |
| Node.DispatchersMatchTables | nodes/ServiceTitan/ServiceTitan.node.ts:1628-2039 | each dispatcher's cases are exactly the values of its resource's operation table |
| Node.DispatchAgreesWithTables | nodes/ServiceTitan/ServiceTitan.node.ts:1553-2037 | dispatch selects a handler exactly when the resource is in RESOURCES and the operation is in its table; otherwise it fails with "Unknown resource" or the dispatcher's unknown-operation error |
| Node.ErrorItem | nodes/ServiceTitan/ServiceTitan.node.ts:1612-1617 | a failing item becomes `{json: {error: message}, pairedItem: i}` |
| Node.BatchContinueOnFail | nodes/ServiceTitan/ServiceTitan.node.ts:1546-1618 | with continue-on-fail, the output is the in-order concatenation of each item's output or its single error item |
| Node.BatchAllSucceed | nodes/ServiceTitan/ServiceTitan.node.ts:1546-1609 | when every item succeeds, the output is the in-order concatenation of their outputs |
| Node.BatchStopsAtFirstError | nodes/ServiceTitan/ServiceTitan.node.ts:1619-1620 | without continue-on-fail, the first failing item's error is the outcome |
| Node.BatchFailsIffSomeItemFails | nodes/ServiceTitan/ServiceTitan.node.ts:1546-1620 | without continue-on-fail, the batch fails exactly when some item fails |
| Node.BatchEndsAt | nodes/ServiceTitan/ServiceTitan.node.ts:1546-1620 | without continue-on-fail, once the batch is still running and item `i` fails, the batch's outcome is item `i`'s error and every earlier item succeeded |
| Node.Execute | nodes/ServiceTitan/ServiceTitan.node.ts:1542-1625 | the loop's result is the batch specification over the items' outcomes; on an error it stopped at the first failing item: every item attempted before it succeeded |
| Actions.ResponseData | nodes/ServiceTitan/actions/customers/customer.actions.ts:217 | `response.data \|\| []` throws on an undefined or null response, and a falsy `data` gives the empty list |
| Actions.ListOutputRecords | nodes/ServiceTitan/actions/customers/customer.actions.ts:35-42 | a reply whose `data` is an array emits one item per record, and a reply without `data` emits nothing |
| Actions.SinglePageQueryFields | nodes/ServiceTitan/actions/customers/customer.actions.ts:20-33 | the single-page query is the filter query, with `pageSize = limit` and `page = 1` overriding same-named filters |
| Actions.Call | nodes/ServiceTitan/transport/client.ts:109-151 | the actions' request is one recorded `serviceTitanApiRequest`: at most one request, carrying the options, and a success is the server's reply to it |
| Actions.ListAllPages | nodes/ServiceTitan/actions/customers/customer.actions.ts:20-29 | the returnAll branch: the paging loop with no limit over the filter query, every successful page being the server's reply to its own request, and the emitted records are the collected items |
| Actions.ListOnePage | nodes/ServiceTitan/actions/customers/customer.actions.ts:31-42 | the single-page branch: exactly one recorded call with the single-page query; a success is the server's reply to it, and its `data` records are emitted |
| Actions.ListCustomers | nodes/ServiceTitan/actions/customers/customer.actions.ts:13-43 | with returnAll, the paged fetch runs with no limit over pages 1, 2, ...; otherwise exactly one request is sent, with the single-page query; in both branches the calls are the client's recorded calls and each success is the server's reply to its own request |
| Actions.ListLocations | nodes/ServiceTitan/actions/locations/location.actions.ts:13-43 | the same two branches as listCustomers, on the locations endpoint |
| Actions.CustomerBodyFields | nodes/ServiceTitan/actions/customers/customer.actions.ts:66-79 | the body is `name` with cleaned additional fields spread over it; truthy `address` and `contacts` are then re-copied uncleaned |
| Actions.CreateCustomer | nodes/ServiceTitan/actions/customers/customer.actions.ts:59-88 | one recorded call that POSTs that body to the customers endpoint: a token failure is the error, otherwise the request is sent and the server's reply to it is the emitted item |
| Actions.UpdateRecord | nodes/ServiceTitan/actions/customers/customer.actions.ts:90-106 | one recorded call that PATCHes `<endpoint>/<id>` with body `cleanObject(updateFields)`: a token failure is the error, otherwise the request is sent and the server's reply to it is the emitted item (also updateLocation, nodes/ServiceTitan/actions/locations/location.actions.ts:94-110) |
| Actions.UpdateBodyIsClean | nodes/ServiceTitan/actions/customers/customer.actions.ts:94-103 | the update body is clean, holds each field's cleaned value, adds no key, and is not attached when empty |
| Actions.TagLocationFields | nodes/ServiceTitan/actions/customers/customer.actions.ts:227-228 | each equipment record gets `locationId` set to the location's id, overriding any existing value; its other keys are unchanged |
| Actions.GatherConcatenates | nodes/ServiceTitan/actions/customers/customer.actions.ts:220-231 | the aggregation fails exactly when some location's records do; otherwise it is each location's tagged equipment, concatenated in location order |
| Actions.GatherSucceedsIff | nodes/ServiceTitan/actions/customers/customer.actions.ts:220-231 | the aggregation of the first `n` locations succeeds exactly when each of their records does |
| Actions.GatherValue | nodes/ServiceTitan/actions/customers/customer.actions.ts:220-231 | a successful aggregation is the in-order concatenation of each location's tagged records |
| Actions.GatherOkReplies | nodes/ServiceTitan/actions/customers/customer.actions.ts:220-231 | a successful aggregation saw only successful equipment replies |
| Actions.LocationEquipment | nodes/ServiceTitan/actions/customers/customer.actions.ts:219-229 | one pass of the equipment loop: the location's id selects one recorded equipment call; its records, tagged with the id, are the pass's result, which succeeds only on a successful reply |
| Actions.EquipmentCallsNext | nodes/ServiceTitan/actions/customers/customer.actions.ts:219-229 | a location that is not undefined or null, so that its `id` can be read, adds its equipment call to the loop's calls, answered by its reply |
| Actions.EquipmentOfLocations | nodes/ServiceTitan/actions/customers/customer.actions.ts:219-229 | the equipment loop: one recorded call per location, in order, for that location's equipment endpoint, stopping at the first failure; the result is the aggregation over the replies |
| Actions.EquipmentOutcomesOk | nodes/ServiceTitan/actions/customers/customer.actions.ts:219-229 | the loop stops at the first failure, so every call but the last succeeded |
| Actions.MissingEquipmentContributesNothing | nodes/ServiceTitan/actions/customers/customer.actions.ts:224-225 | an equipment reply without `data` contributes no records |
| Actions.GetCustomerEquipment | nodes/ServiceTitan/actions/customers/customer.actions.ts:204-232 | first, one locations request filtered by customerId; then, on success, one equipment request per location in order, stopping at the first location whose request or records fail; every successful call is the server's reply to its own request; the output is the gathered records |
| Actions.EquipmentAfterLocations | nodes/ServiceTitan/actions/customers/customer.actions.ts:216-231 | after a successful locations request: the equipment loop's calls follow it in the record, are answered in order, and stop at the first failure; the output is the gathered records |
| Actions.LocationAddressFields | nodes/ServiceTitan/actions/locations/location.actions.ts:70-78 | the address holds the four parameters, and `country` is `additionalFields.country`, or `US` when that is falsy |
| Actions.LocationBodyFields | nodes/ServiceTitan/actions/locations/location.actions.ts:70-83 | no root `country`; a surviving cleaned additional field, even `address`, replaces the built value; otherwise `customerId` and `address` are the built ones |
| Actions.LocationBodyKeys | nodes/ServiceTitan/actions/locations/location.actions.ts:79-83 | the body's keys are `customerId`, `address` and the surviving additional keys, minus `country` |
| Actions.CreateLocation | nodes/ServiceTitan/actions/locations/location.actions.ts:59-92 | one recorded call that POSTs the merged body, with root `country` deleted, to the locations endpoint: a token failure is the error, otherwise the server's reply to it is the emitted item |
| Actions.HistoryQueryFields | nodes/ServiceTitan/actions/locations/location.actions.ts:134-137 | `locationId` overrides a same-named filter; every other key is the filter query's |
| Actions.GetLocationHistory | nodes/ServiceTitan/actions/locations/location.actions.ts:127-148 | one recorded call that GETs the jobs endpoint with the history query: a token failure is the error, otherwise the server's reply's `data` records are emitted |

## Left out

- Network and credential access are oracles: the credential store, the token POST and the HTTP client. Only their answers are modelled, not HTTP itself.
- Objects have no prototype: an inherited key such as `constructor` or `toString` reads as undefined, where JavaScript finds the inherited member. This affects `Json.Lookup` and so `Helpers.GetStatusCode`, `Helpers.ValidateRequired` and `Transport.ValidateRequiredParams` for such keys.
- The wall clock is an oracle, and so is the trigger's `new Date().toISOString()`, which is a parameter of the webhook.
- `centsToDollars` and `dollarsToCents` are left out: they round binary floating-point numbers.
- `parseDate`, `buildDateRangeFilter` and `parseId` are left out: they depend on JavaScript `Date` parsing and `parseInt`/NaN. The parsed customer id of `createLocation` is taken as a ready-made value.
- Transport.FormatDate: only the string branch is modelled; the `Date` branch (`toISOString`) is not.
- Numbers are integers. `expires_in` is multiplied exactly. A string, array or object `expires_in` leaves no expiry, which stands in for NaN, even when the string spells a number.
- The licensing-notice console logging and its once-only flags are left out: they are side effects with no behaviour.
- The declarative UI property schemas and the credential type are left out: they declare forms, not behaviour.
- Of the customer and location actions, the following are not modelled: `getCustomer`, `getCustomerContacts`, `addCustomerContact`, `getCustomerLocations`, `getCustomerNotes`, `addCustomerNote`, `getLocation` and `getLocationEquipment`. Each is one parameter read plus one request, the same pattern `Actions.GetLocationHistory` and the requests inside `Actions.GetCustomerEquipment` already model.
- The other action files (jobs, appointments, bookings, leads, invoices, payments, estimates, technicians, dispatch, inventory, pricebook, memberships, campaigns, reports, users) are left out. Each repeats the list/paging and cleaned-body patterns modelled here. In the batch loop they are the handler oracle.
- Reading a node parameter never fails. Parameters arrive as arguments.
- Transport.AssembleRequest: the URL uses the literal substitution `Transport.ResolvePath`, the corrected half of the finding below, not the source's `replace`. `Transport.ResolvePathAgrees` proves the two equal for every tenant id without `$`; for a tenant id with `$` the model sends a different URL from the source.
- Transport.ResolvePathFirstOnly: for a tenant id with `$`, only the literal substitution is described; the source's `replace` expands the `$` patterns there (see the finding below).
- Transport.ResolveApiPath: likewise, the source's result is stated only for a tenant id without `$`.
- Transport.RequestUrlForApiPath: it states the URL built with the literal substitution. It matches the source only for tenant ids without `$`, as `Transport.ResolvePathAgrees` shows.
- The source writes `page` and `pageSize` into the caller's `qs` object in place. That aliasing is not modelled: each page's options are a fresh value.
- Objects keep their keys in insertion order. JavaScript puts integer-like keys first, in ascending order, in `Object.entries` and in spread; that reordering is not modelled.
- Helpers.FormatAddress: fields are read with a property read that yields `undefined` on `null` or a non-object, where JavaScript would throw on `null`; the parameter is declared as an object, so callers never pass `null`.
- Transport.Client.ApiRequestAllItems: the source puts no cap on the number of pages, so an API that always answers full pages with `hasMore` keeps it looping for ever. The API server here is a finite script, and a request past its end fails, so every modelled run ends.
- There is no concurrency: everything runs sequentially.

## Findings

| source | as written | input that shows it | evidently intended | confidence | as-written member | corrected member |
|---|---|---|---|---|---|---|
| nodes/ServiceTitan/transport/client.ts:95-97 | `path.replace('{tenant}', tenantId)` passes the tenant id as a replacement string, so `$&`, `` $` ``, `$'` and `$$` in it are expanded | tenant id `$&`: the result is the path itself, and `{tenant}` is sent to the API | the tenant id is inserted literally, so no `{tenant}` remains | not executed | Transport.ResolvePathAsWrittenKeepsPlaceholder | Transport.ResolvedApiPathHasNoPlaceholder |
