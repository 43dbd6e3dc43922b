/**
 * The constant tables of `constants/constants.ts`: the resource list, one
 * operation list per resource, the trigger events, the API version and the
 * endpoint paths.
 */
module Constants {
  import opened Text

  /** One `{name, value}` entry of an n8n options list. */
  datatype PropertyOption = PropertyOption(name: string, value: string)

  /** The `value`s of an options list, in order. */
  function Values(options: seq<PropertyOption>): (vs: seq<string>)
    ensures |vs| == |options|
    ensures forall i :: 0 <= i < |options| ==> vs[i] == options[i].value
  {
    seq(|options|, i requires 0 <= i < |options| => options[i].value)
  }

  /** No two entries of an options list share a value. */
  predicate DistinctValues(options: seq<PropertyOption>) {
    forall i, j :: 0 <= i < j < |options| ==> options[i].value != options[j].value
  }

  const RESOURCES: seq<PropertyOption> := [
    PropertyOption("Appointment", "appointment"),
    PropertyOption("Booking", "booking"),
    PropertyOption("Campaign", "campaign"),
    PropertyOption("Customer", "customer"),
    PropertyOption("Dispatch", "dispatch"),
    PropertyOption("Estimate", "estimate"),
    PropertyOption("Inventory", "inventory"),
    PropertyOption("Invoice", "invoice"),
    PropertyOption("Job", "job"),
    PropertyOption("Lead", "lead"),
    PropertyOption("Location", "location"),
    PropertyOption("Membership", "membership"),
    PropertyOption("Payment", "payment"),
    PropertyOption("Pricebook", "pricebook"),
    PropertyOption("Report", "report"),
    PropertyOption("Technician", "technician"),
    PropertyOption("User", "user")
  ]

  const CUSTOMER_OPERATIONS: seq<PropertyOption> := [
    PropertyOption("Add Contact", "addCustomerContact"),
    PropertyOption("Add Note", "addCustomerNote"),
    PropertyOption("Create", "createCustomer"),
    PropertyOption("Get", "getCustomer"),
    PropertyOption("Get Contacts", "getCustomerContacts"),
    PropertyOption("Get Equipment", "getCustomerEquipment"),
    PropertyOption("Get Locations", "getCustomerLocations"),
    PropertyOption("Get Notes", "getCustomerNotes"),
    PropertyOption("List", "listCustomers"),
    PropertyOption("Update", "updateCustomer")
  ]

  const LOCATION_OPERATIONS: seq<PropertyOption> := [
    PropertyOption("Create", "createLocation"),
    PropertyOption("Get", "getLocation"),
    PropertyOption("Get Equipment", "getLocationEquipment"),
    PropertyOption("Get History", "getLocationHistory"),
    PropertyOption("List", "listLocations"),
    PropertyOption("Update", "updateLocation")
  ]

  const JOB_OPERATIONS: seq<PropertyOption> := [
    PropertyOption("Add Note", "addJobNote"),
    PropertyOption("Cancel", "cancelJob"),
    PropertyOption("Complete", "completeJob"),
    PropertyOption("Create", "createJob"),
    PropertyOption("Get", "getJob"),
    PropertyOption("Get Appointments", "getJobAppointments"),
    PropertyOption("Get History", "getJobHistory"),
    PropertyOption("Get Invoices", "getJobInvoices"),
    PropertyOption("Get Notes", "getJobNotes"),
    PropertyOption("List", "listJobs"),
    PropertyOption("Update", "updateJob")
  ]

  const APPOINTMENT_OPERATIONS: seq<PropertyOption> := [
    PropertyOption("Assign Technician", "assignTechnician"),
    PropertyOption("Cancel", "cancelAppointment"),
    PropertyOption("Complete", "completeAppointment"),
    PropertyOption("Create", "createAppointment"),
    PropertyOption("Get", "getAppointment"),
    PropertyOption("List", "listAppointments"),
    PropertyOption("Reschedule", "rescheduleAppointment"),
    PropertyOption("Unassign Technician", "unassignTechnician"),
    PropertyOption("Update", "updateAppointment")
  ]

  const BOOKING_OPERATIONS: seq<PropertyOption> := [
    PropertyOption("Convert to Job", "convertToJob"),
    PropertyOption("Create", "createBooking"),
    PropertyOption("Dismiss", "dismissBooking"),
    PropertyOption("Get", "getBooking"),
    PropertyOption("List", "listBookings"),
    PropertyOption("Update", "updateBooking")
  ]

  const LEAD_OPERATIONS: seq<PropertyOption> := [
    PropertyOption("Add Follow-Up", "addFollowUp"),
    PropertyOption("Convert", "convertLead"),
    PropertyOption("Create", "createLead"),
    PropertyOption("Dismiss", "dismissLead"),
    PropertyOption("Get", "getLead"),
    PropertyOption("List", "listLeads"),
    PropertyOption("Update", "updateLead")
  ]

  const INVOICE_OPERATIONS: seq<PropertyOption> := [
    PropertyOption("Add Item", "addInvoiceItem"),
    PropertyOption("Create", "createInvoice"),
    PropertyOption("Email", "emailInvoice"),
    PropertyOption("Get", "getInvoice"),
    PropertyOption("Get Items", "getInvoiceItems"),
    PropertyOption("Get Payments", "getInvoicePayments"),
    PropertyOption("List", "listInvoices"),
    PropertyOption("Remove Item", "removeInvoiceItem"),
    PropertyOption("Update", "updateInvoice")
  ]

  const PAYMENT_OPERATIONS: seq<PropertyOption> := [
    PropertyOption("Create", "createPayment"),
    PropertyOption("Get", "getPayment"),
    PropertyOption("List", "listPayments"),
    PropertyOption("Refund", "refundPayment"),
    PropertyOption("Void", "voidPayment")
  ]

  const ESTIMATE_OPERATIONS: seq<PropertyOption> := [
    PropertyOption("Approve", "approveEstimate"),
    PropertyOption("Convert to Invoice", "convertToInvoice"),
    PropertyOption("Create", "createEstimate"),
    PropertyOption("Decline", "declineEstimate"),
    PropertyOption("Email", "emailEstimate"),
    PropertyOption("Get", "getEstimate"),
    PropertyOption("List", "listEstimates"),
    PropertyOption("Update", "updateEstimate")
  ]

  const TECHNICIAN_OPERATIONS: seq<PropertyOption> := [
    PropertyOption("Create", "createTechnician"),
    PropertyOption("Get", "getTechnician"),
    PropertyOption("Get Capacity", "getTechnicianCapacity"),
    PropertyOption("Get Performance", "getTechnicianPerformance"),
    PropertyOption("Get Schedule", "getTechnicianSchedule"),
    PropertyOption("List", "listTechnicians"),
    PropertyOption("Update", "updateTechnician")
  ]

  const DISPATCH_OPERATIONS: seq<PropertyOption> := [
    PropertyOption("Get Capacity", "getCapacity"),
    PropertyOption("Get Dispatch Board", "getDispatchBoard"),
    PropertyOption("Get Zones", "getZones"),
    PropertyOption("Optimize Routes", "optimizeRoutes")
  ]

  const INVENTORY_OPERATIONS: seq<PropertyOption> := [
    PropertyOption("Create Purchase Order", "createPurchaseOrder"),
    PropertyOption("Get Item", "getInventoryItem"),
    PropertyOption("Get Warehouse Quantities", "getWarehouseQuantities"),
    PropertyOption("List", "listInventory"),
    PropertyOption("List Purchase Orders", "listPurchaseOrders"),
    PropertyOption("List Vendors", "listVendors"),
    PropertyOption("Update Quantity", "updateInventoryQuantity")
  ]

  const PRICEBOOK_OPERATIONS: seq<PropertyOption> := [
    PropertyOption("Get Equipment", "getEquipment"),
    PropertyOption("Get Material", "getMaterial"),
    PropertyOption("Get Service", "getService"),
    PropertyOption("List Equipment", "listEquipment"),
    PropertyOption("List Materials", "listMaterials"),
    PropertyOption("List Services", "listServices")
  ]

  const MEMBERSHIP_OPERATIONS: seq<PropertyOption> := [
    PropertyOption("Cancel", "cancelMembership"),
    PropertyOption("Create", "createMembership"),
    PropertyOption("Get", "getMembership"),
    PropertyOption("Get Locations", "getMembershipLocations"),
    PropertyOption("List", "listMemberships"),
    PropertyOption("Update", "updateMembership")
  ]

  const CAMPAIGN_OPERATIONS: seq<PropertyOption> := [
    PropertyOption("Get", "getCampaign"),
    PropertyOption("Get Metrics", "getCampaignMetrics"),
    PropertyOption("List", "listCampaigns")
  ]

  const REPORT_OPERATIONS: seq<PropertyOption> := [
    PropertyOption("Get Call Report", "getCallReport"),
    PropertyOption("Get Conversion Report", "getConversionReport"),
    PropertyOption("Get Custom Report", "getCustomReport"),
    PropertyOption("Get Revenue Report", "getRevenueReport"),
    PropertyOption("Get Technician Report", "getTechnicianReport")
  ]

  const USER_OPERATIONS: seq<PropertyOption> := [
    PropertyOption("Get", "getUser"),
    PropertyOption("Get Permissions", "getUserPermissions"),
    PropertyOption("Get Roles", "getUserRoles"),
    PropertyOption("List", "listUsers")
  ]

  const TRIGGER_EVENTS: seq<PropertyOption> := [
    PropertyOption("Appointment Completed", "appointmentCompleted"),
    PropertyOption("Appointment Scheduled", "appointmentScheduled"),
    PropertyOption("Customer Created", "customerCreated"),
    PropertyOption("Estimate Approved", "estimateApproved"),
    PropertyOption("Invoice Created", "invoiceCreated"),
    PropertyOption("Job Completed", "jobCompleted"),
    PropertyOption("Job Created", "jobCreated"),
    PropertyOption("Lead Created", "leadCreated"),
    PropertyOption("Membership Created", "membershipCreated"),
    PropertyOption("Payment Received", "paymentReceived")
  ]

  const API_VERSION: string := "v2"

  /** The placeholder every endpoint path carries for the tenant id. */
  const TENANT_PLACEHOLDER: string := "{tenant}"

  /**
   * An `API_PATHS` entry. Every path in the table reads
   * `<service>/v2/tenant/{tenant}<resource>`, so it is stored by those two
   * parts and `PathText` spells it out.
   */
  datatype ApiPath = ApiPath(key: string, service: string, resource: string)

  function PathText(p: ApiPath): string {
    p.service + "/" + API_VERSION + "/tenant/" + TENANT_PLACEHOLDER + p.resource
  }

  const CUSTOMERS_PATH := ApiPath("customers", "crm", "/customers")
  const LOCATIONS_PATH := ApiPath("locations", "crm", "/locations")
  const CONTACTS_PATH := ApiPath("contacts", "crm", "/contacts")
  const JOBS_PATH := ApiPath("jobs", "jpm", "/jobs")
  const APPOINTMENTS_PATH := ApiPath("appointments", "jpm", "/appointments")
  const BOOKINGS_PATH := ApiPath("bookings", "crm", "/booking-provider/bookings")
  const LEADS_PATH := ApiPath("leads", "crm", "/leads")
  const INVOICES_PATH := ApiPath("invoices", "accounting", "/invoices")
  const PAYMENTS_PATH := ApiPath("payments", "accounting", "/payments")
  const ESTIMATES_PATH := ApiPath("estimates", "sales", "/estimates")
  const TECHNICIANS_PATH := ApiPath("technicians", "settings", "/technicians")
  const EMPLOYEES_PATH := ApiPath("employees", "settings", "/employees")
  const USERS_PATH := ApiPath("users", "settings", "/users")
  const DISPATCH_PATH := ApiPath("dispatch", "dispatch", "")
  const ZONES_PATH := ApiPath("zones", "dispatch", "/zones")
  const INVENTORY_PATH := ApiPath("inventory", "inventory", "/adjustments")
  const PURCHASE_ORDERS_PATH := ApiPath("purchaseOrders", "inventory", "/purchase-orders")
  const VENDORS_PATH := ApiPath("vendors", "inventory", "/vendors")
  const WAREHOUSES_PATH := ApiPath("warehouses", "inventory", "/warehouses")
  const SERVICES_PATH := ApiPath("services", "pricebook", "/services")
  const MATERIALS_PATH := ApiPath("materials", "pricebook", "/materials")
  const EQUIPMENT_PATH := ApiPath("equipment", "pricebook", "/equipment")
  const MEMBERSHIPS_PATH := ApiPath("memberships", "memberships", "/memberships")
  const MEMBERSHIP_TYPES_PATH := ApiPath("membershipTypes", "memberships", "/membership-types")
  const CAMPAIGNS_PATH := ApiPath("campaigns", "marketing", "/campaigns")
  const REPORTS_PATH := ApiPath("reports", "reporting", "/reports")

  const API_PATHS: seq<ApiPath> := [
    CUSTOMERS_PATH, LOCATIONS_PATH, CONTACTS_PATH,
    JOBS_PATH, APPOINTMENTS_PATH, BOOKINGS_PATH, LEADS_PATH,
    INVOICES_PATH, PAYMENTS_PATH, ESTIMATES_PATH,
    TECHNICIANS_PATH, EMPLOYEES_PATH, USERS_PATH,
    DISPATCH_PATH, ZONES_PATH,
    INVENTORY_PATH, PURCHASE_ORDERS_PATH, VENDORS_PATH, WAREHOUSES_PATH,
    SERVICES_PATH, MATERIALS_PATH, EQUIPMENT_PATH,
    MEMBERSHIPS_PATH, MEMBERSHIP_TYPES_PATH,
    CAMPAIGNS_PATH,
    REPORTS_PATH
  ]

  /** `pat` occurs in `s` starting at index `k`. */
  predicate OccursAt(s: string, pat: string, k: int) {
    0 <= k && k + |pat| <= |s| && s[k..k + |pat|] == pat
  }

  /**
   * The service is one non-empty segment, neither part holds a `{`, and the
   * resource part is empty or starts a new segment.
   */
  predicate WellShaped(p: ApiPath) {
    p.service != "" && '{' !in p.service && '/' !in p.service && '{' !in p.resource && (p.resource == "" || p.resource[0] == '/')
  }

  // ---------------------------------------------------------------------------
  // Properties of the tables

  /** No two entries of `lo..hi` in the resource list share a value. */
  predicate ResourceValuesDistinctIn(lo: int, hi: int)
    requires 0 <= lo && hi <= |RESOURCES|
  {
    forall i, j :: lo <= i < j < hi ==> RESOURCES[i].value != RESOURCES[j].value
  }

  /** No entry of `lo..mid` in the resource list shares a value with one of `mid..hi`. */
  predicate ResourceValuesApart(lo: int, mid: int, hi: int)
    requires 0 <= lo <= mid <= hi <= |RESOURCES|
  {
    forall i, j :: lo <= i < mid <= j < hi ==> RESOURCES[i].value != RESOURCES[j].value
  }

  lemma ResourcesDistinctLow()
    ensures ResourceValuesDistinctIn(0, 9)
  {
  }

  lemma ResourcesDistinctHigh()
    ensures ResourceValuesDistinctIn(9, 17)
  {
  }

  lemma ResourcesApartAcross()
    ensures ResourceValuesApart(0, 9, 17)
  {
  }

  /** There are 17 resources, with pairwise distinct values. */
  lemma ResourcesDistinct()
    ensures |RESOURCES| == 17 && DistinctValues(RESOURCES)
  {
    ResourcesDistinctLow();
    ResourcesDistinctHigh();
    ResourcesApartAcross();
  }

  lemma CustomerOperationsDistinct()
    ensures DistinctValues(CUSTOMER_OPERATIONS)
  {
  }

  lemma LocationOperationsDistinct()
    ensures DistinctValues(LOCATION_OPERATIONS)
  {
  }

  lemma JobOperationsDistinct()
    ensures DistinctValues(JOB_OPERATIONS)
  {
  }

  lemma AppointmentOperationsDistinct()
    ensures DistinctValues(APPOINTMENT_OPERATIONS)
  {
  }

  lemma BookingOperationsDistinct()
    ensures DistinctValues(BOOKING_OPERATIONS)
  {
  }

  lemma LeadOperationsDistinct()
    ensures DistinctValues(LEAD_OPERATIONS)
  {
  }

  lemma InvoiceOperationsDistinct()
    ensures DistinctValues(INVOICE_OPERATIONS)
  {
  }

  lemma PaymentOperationsDistinct()
    ensures DistinctValues(PAYMENT_OPERATIONS)
  {
  }

  lemma EstimateOperationsDistinct()
    ensures DistinctValues(ESTIMATE_OPERATIONS)
  {
  }

  lemma TechnicianOperationsDistinct()
    ensures DistinctValues(TECHNICIAN_OPERATIONS)
  {
  }

  lemma DispatchOperationsDistinct()
    ensures DistinctValues(DISPATCH_OPERATIONS)
  {
  }

  lemma InventoryOperationsDistinct()
    ensures DistinctValues(INVENTORY_OPERATIONS)
  {
  }

  lemma PricebookOperationsDistinct()
    ensures DistinctValues(PRICEBOOK_OPERATIONS)
  {
  }

  lemma MembershipOperationsDistinct()
    ensures DistinctValues(MEMBERSHIP_OPERATIONS)
  {
  }

  lemma CampaignOperationsDistinct()
    ensures DistinctValues(CAMPAIGN_OPERATIONS)
  {
  }

  lemma ReportOperationsDistinct()
    ensures DistinctValues(REPORT_OPERATIONS)
  {
  }

  lemma UserOperationsDistinct()
    ensures DistinctValues(USER_OPERATIONS)
  {
  }

  lemma CrmTablesDistinct()
    ensures DistinctValues(CUSTOMER_OPERATIONS)
    ensures DistinctValues(LOCATION_OPERATIONS)
    ensures DistinctValues(JOB_OPERATIONS)
    ensures DistinctValues(APPOINTMENT_OPERATIONS)
  {
    CustomerOperationsDistinct();
    LocationOperationsDistinct();
    JobOperationsDistinct();
    AppointmentOperationsDistinct();
  }

  lemma SalesTablesDistinct()
    ensures DistinctValues(BOOKING_OPERATIONS)
    ensures DistinctValues(LEAD_OPERATIONS)
    ensures DistinctValues(INVOICE_OPERATIONS)
    ensures DistinctValues(PAYMENT_OPERATIONS)
  {
    BookingOperationsDistinct();
    LeadOperationsDistinct();
    InvoiceOperationsDistinct();
    PaymentOperationsDistinct();
  }

  lemma FieldTablesDistinct()
    ensures DistinctValues(ESTIMATE_OPERATIONS)
    ensures DistinctValues(TECHNICIAN_OPERATIONS)
    ensures DistinctValues(DISPATCH_OPERATIONS)
    ensures DistinctValues(INVENTORY_OPERATIONS)
  {
    EstimateOperationsDistinct();
    TechnicianOperationsDistinct();
    DispatchOperationsDistinct();
    InventoryOperationsDistinct();
  }

  lemma OtherTablesDistinct()
    ensures DistinctValues(PRICEBOOK_OPERATIONS)
    ensures DistinctValues(MEMBERSHIP_OPERATIONS)
    ensures DistinctValues(CAMPAIGN_OPERATIONS)
    ensures DistinctValues(REPORT_OPERATIONS)
    ensures DistinctValues(USER_OPERATIONS)
  {
    PricebookOperationsDistinct();
    MembershipOperationsDistinct();
    CampaignOperationsDistinct();
    ReportOperationsDistinct();
    UserOperationsDistinct();
  }

  lemma TriggerEventsDistinct()
    ensures |TRIGGER_EVENTS| == 10 && DistinctValues(TRIGGER_EVENTS)
  {
  }

  lemma PathsWellShaped1()
    ensures WellShaped(CUSTOMERS_PATH) && WellShaped(LOCATIONS_PATH) && WellShaped(CONTACTS_PATH)
  {
  }

  lemma PathsWellShaped2()
    ensures WellShaped(JOBS_PATH) && WellShaped(APPOINTMENTS_PATH) && WellShaped(BOOKINGS_PATH)
  {
  }

  lemma PathsWellShaped3()
    ensures WellShaped(LEADS_PATH) && WellShaped(INVOICES_PATH) && WellShaped(PAYMENTS_PATH)
  {
  }

  lemma PathsWellShaped4()
    ensures WellShaped(ESTIMATES_PATH) && WellShaped(TECHNICIANS_PATH) && WellShaped(EMPLOYEES_PATH)
  {
  }

  lemma PathsWellShaped5()
    ensures WellShaped(USERS_PATH) && WellShaped(DISPATCH_PATH) && WellShaped(ZONES_PATH)
  {
  }

  lemma PathsWellShaped6()
    ensures WellShaped(INVENTORY_PATH) && WellShaped(PURCHASE_ORDERS_PATH) && WellShaped(VENDORS_PATH)
  {
  }

  lemma PathsWellShaped7()
    ensures WellShaped(WAREHOUSES_PATH) && WellShaped(SERVICES_PATH) && WellShaped(MATERIALS_PATH)
  {
  }

  lemma PathsWellShaped8()
    ensures WellShaped(EQUIPMENT_PATH) && WellShaped(MEMBERSHIPS_PATH) && WellShaped(MEMBERSHIP_TYPES_PATH)
  {
  }

  lemma PathsWellShaped9()
    ensures WellShaped(CAMPAIGNS_PATH) && WellShaped(REPORTS_PATH)
  {
  }

  /** Every endpoint path has the `<service>/v2/tenant/{tenant}<resource>` shape with no other placeholder. */
  lemma ApiPathsWellShaped()
    ensures forall p :: p in API_PATHS ==> WellShaped(p)
  {
    PathsWellShaped1();
    PathsWellShaped2();
    PathsWellShaped3();
    PathsWellShaped4();
    PathsWellShaped5();
    PathsWellShaped6();
    PathsWellShaped7();
    PathsWellShaped8();
    PathsWellShaped9();
  }

  /** A path is its service, the fixed middle `/v2/tenant/`, the placeholder and its resource. */
  lemma PathTextParts(p: ApiPath)
    ensures PathText(p) == p.service + "/v2/tenant/" + TENANT_PLACEHOLDER + p.resource
  {
  }

  /** `{tenant}` stands right after `v2/tenant/`, which follows the service name. */
  lemma PlaceholderAt(p: ApiPath)
    ensures OccursAt(PathText(p), TENANT_PLACEHOLDER, |p.service| + 11)
    ensures OccursAt(PathText(p), "v2/tenant/", |p.service| + 1)
  {
    var s := PathText(p);
    var n := |p.service|;
    PathTextParts(p);
    assert s[n + 11..n + 19] == TENANT_PLACEHOLDER;
    assert s[n + 1..n + 11] == "v2/tenant/";
  }

  /** In a well-shaped path no other position starts a `{tenant}`: it is the only `{` there is. */
  lemma PlaceholderOnlyAt(p: ApiPath, k: int)
    requires WellShaped(p) && OccursAt(PathText(p), TENANT_PLACEHOLDER, k)
    ensures k == |p.service| + 11
  {
    var s := PathText(p);
    var n := |p.service|;
    PathTextParts(p);
    assert s[k] == s[k..k + 8][0] == '{';
  }

  /**
   * In a well-shaped path, `{tenant}` occurs exactly once, directly after
   * `v2/tenant/`, and the version segment `v2` follows the service name.
   */
  lemma PlaceholderOnce(p: ApiPath, k: int)
    requires WellShaped(p)
    ensures OccursAt(PathText(p), TENANT_PLACEHOLDER, k) <==> k == |p.service| + 11
    ensures OccursAt(PathText(p), "v2/tenant/", |p.service| + 1)
  {
    PlaceholderAt(p);
    if OccursAt(PathText(p), TENANT_PLACEHOLDER, k) {
      PlaceholderOnlyAt(p, k);
    }
  }
}
