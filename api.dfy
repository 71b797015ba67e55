/** The simulated back end (src/services/api.ts). Every call resolves to the
    in-memory mock data after a fixed delay; a lookup by id that finds nothing
    rejects with one fixed message. The delay is left out, the mock tables are
    a `Db` value, and `Date.now()` and `Math.random()` are parameters. */
module Api {
  import opened Wrappers
  import opened Models
  import opened Lists
  import opened Text

  /** The message of every rejected call (`createApiResponse(…, true)`). */
  const ApiError := "API Error: Something went wrong"

  const PageSize := 10

  datatype Db = Db(
    organizations: seq<Organization>,
    users: seq<User>,
    orgUsers: seq<OrgUser>,
    categories: seq<Category>,
    products: seq<Product>,
    variants: seq<ProductVariant>,
    orders: seq<Order>,
    carts: seq<Cart>,
    savedLists: seq<SavedList>,
    rfqs: seq<RequestForQuote>)

  /** Every list endpoint answers with one page holding all matches. */
  function OnePage<T>(xs: seq<T>): (r: Page<T>)
    ensures r.data == xs && r.total == |xs|
    ensures r.page == 1 && r.pageSize == PageSize && r.totalPages == 1
  {
    Page(xs, |xs|, 1, PageSize, 1)
  }

  // ---------------------------------------------------------------- organizations

  function GetOrganizations(db: Db): (r: Page<Organization>)
    ensures r.data == db.organizations && r.total == |db.organizations|
    ensures r.page == 1 && r.pageSize == PageSize && r.totalPages == 1
  {
    OnePage(db.organizations)
  }

  /** The first organization with the id, or the API error when none has it. */
  function GetOrganization(db: Db, id: string): (r: Result<Organization, string>)
    ensures r.Ok? <==> exists i :: 0 <= i < |db.organizations| && db.organizations[i].id == id
    ensures r.Ok? ==> r.value in db.organizations && r.value.id == id
    ensures r.Ok? ==> exists i :: 0 <= i < |db.organizations| && db.organizations[i] == r.value &&
                        forall j :: 0 <= j < i ==> db.organizations[j].id != id
    ensures r.Err? ==> r.error == ApiError
  {
    match Find(db.organizations, (o: Organization) => o.id == id)
    case Some(o) => Ok(o)
    case None => Err(ApiError)
  }

  /** A `Partial<Organization>`: `Some` marks a key the caller supplied. */
  datatype OrgPatch = OrgPatch(
    id: Option<string>,
    name: Option<string>,
    code: Option<string>,
    website: Option<string>,
    phoneNumber: Option<string>,
    status: Option<OrgStatus>,
    creditLimit: Option<real>,
    paymentTerms: Option<string>,
    createdAt: Option<int>)
  {
    /** Two successive spreads: keys of `later` win over keys of this patch. */
    function Then(later: OrgPatch): OrgPatch {
      OrgPatch(
        if later.id.Some? then later.id else id,
        if later.name.Some? then later.name else name,
        if later.code.Some? then later.code else code,
        if later.website.Some? then later.website else website,
        if later.phoneNumber.Some? then later.phoneNumber else phoneNumber,
        if later.status.Some? then later.status else status,
        if later.creditLimit.Some? then later.creditLimit else creditLimit,
        if later.paymentTerms.Some? then later.paymentTerms else paymentTerms,
        if later.createdAt.Some? then later.createdAt else createdAt)
    }
  }

  const EmptyPatch := OrgPatch(None, None, None, None, None, None, None, None, None)

  /** `{ ...org, ...data, updatedAt: now }`. */
  function Spread(org: Organization, data: OrgPatch, now: int): (r: Organization)
    ensures r.id == data.id.GetOr(org.id)
    ensures r.name == data.name.GetOr(org.name)
    ensures r.code == data.code.GetOr(org.code)
    ensures r.website == (if data.website.Some? then data.website else org.website)
    ensures r.phoneNumber == (if data.phoneNumber.Some? then data.phoneNumber else org.phoneNumber)
    ensures r.status == data.status.GetOr(org.status)
    ensures r.creditLimit == (if data.creditLimit.Some? then data.creditLimit else org.creditLimit)
    ensures r.paymentTerms == (if data.paymentTerms.Some? then data.paymentTerms else org.paymentTerms)
    ensures r.createdAt == data.createdAt.GetOr(org.createdAt)
    ensures r.updatedAt == now
  {
    org.(
      id := data.id.GetOr(org.id),
      name := data.name.GetOr(org.name),
      code := data.code.GetOr(org.code),
      website := if data.website.Some? then data.website else org.website,
      phoneNumber := if data.phoneNumber.Some? then data.phoneNumber else org.phoneNumber,
      status := data.status.GetOr(org.status),
      creditLimit := if data.creditLimit.Some? then data.creditLimit else org.creditLimit,
      paymentTerms := if data.paymentTerms.Some? then data.paymentTerms else org.paymentTerms,
      createdAt := data.createdAt.GetOr(org.createdAt),
      updatedAt := now)
  }

  /** An empty patch only refreshes the modification time. */
  lemma SpreadEmpty(org: Organization, now: int)
    ensures Spread(org, EmptyPatch, now) == org.(updatedAt := now)
  {
  }

  /** Applying the same patch twice is applying it once. */
  lemma SpreadIdempotent(org: Organization, data: OrgPatch, now: int)
    ensures Spread(Spread(org, data, now), data, now) == Spread(org, data, now)
  {
  }

  /** Two updates in a row equal one update with the combined patch. */
  lemma SpreadThen(org: Organization, first: OrgPatch, second: OrgPatch, t1: int, t2: int)
    ensures Spread(Spread(org, first, t1), second, t2) == Spread(org, first.Then(second), t2)
  {
  }

  /** `updateOrganization`: the stored organization spread with the patch, or
      the API error when the id is unknown. The stored table is not changed. */
  function UpdateOrganization(db: Db, id: string, data: OrgPatch, now: int): (r: Result<Organization, string>)
    ensures r.Ok? <==> GetOrganization(db, id).Ok?
    ensures r.Ok? ==> r.value == Spread(GetOrganization(db, id).value, data, now)
    ensures r.Err? ==> r.error == ApiError
  {
    match GetOrganization(db, id)
    case Ok(org) => Ok(Spread(org, data, now))
    case Err(e) => Err(e)
  }

  /** `data.x || fallback` for an optional string. */
  function OrElse(s: Option<string>, fallback: string): (r: string)
    ensures Truthy(s) ==> r == s.value
    ensures !Truthy(s) ==> r == fallback
  {
    if s.Some? && s.value != "" then s.value else fallback
  }

  /** `createOrganization`: a new record stamped with the clock; name and code
      fall back when absent or empty, the status defaults to pending, and no
      other field of `data` is kept. */
  function CreateOrganization(data: OrgPatch, now: nat, random: nat): (r: Organization)
    requires random < 10000
    ensures r.id == "org_" + NatToString(now)
    ensures r.name == (if Truthy(data.name) then data.name.value else "New Organization")
    ensures r.code == (if Truthy(data.code) then data.code.value else "ORG-" + NatToString(random))
    ensures r.status == data.status.GetOr(Pending)
    ensures r.website.None? && r.phoneNumber.None? && r.creditLimit.None? && r.paymentTerms.None?
    ensures r.createdAt == now && r.updatedAt == now
  {
    Organization(
      "org_" + NatToString(now),
      OrElse(data.name, "New Organization"),
      OrElse(data.code, "ORG-" + NatToString(random)),
      None, None,
      data.status.GetOr(Pending),
      None, None,
      now, now)
  }

  /** Two organizations created at different instants get different ids. */
  lemma CreatedOrganizationIdsDiffer(d1: OrgPatch, d2: OrgPatch, t1: nat, t2: nat, r1: nat, r2: nat)
    requires r1 < 10000 && r2 < 10000 && t1 != t2
    ensures CreateOrganization(d1, t1, r1).id != CreateOrganization(d2, t2, r2).id
  {
    var s1, s2 := NatToString(t1), NatToString(t2);
    if "org_" + s1 == "org_" + s2 {
      assert s1 == ("org_" + s1)[4..];
      NatToStringInjective(t1, t2);
    }
  }

  predicate IsMember(db: Db, orgId: string, userId: string) {
    Any(db.orgUsers, (ou: OrgUser) => ou.organizationId == orgId && ou.userId == userId)
  }

  /** The users with a membership row for the organization, in user order. */
  function GetOrganizationUsers(db: Db, orgId: string): (r: Page<User>)
    ensures forall i :: 0 <= i < |r.data| ==> r.data[i] in db.users && IsMember(db, orgId, r.data[i].id)
    ensures forall i :: 0 <= i < |db.users| && IsMember(db, orgId, db.users[i].id) ==> db.users[i] in r.data
    ensures Subsequence(r.data, db.users)
    ensures r.total == |r.data| && r.page == 1 && r.pageSize == PageSize && r.totalPages == 1
  {
    OnePage(Filter(db.users, (u: User) => IsMember(db, orgId, u.id)))
  }

  /** Each member appears as often as in the user list, and nobody else. */
  lemma GetOrganizationUsersCounts(db: Db, orgId: string)
    ensures forall u :: multiset(GetOrganizationUsers(db, orgId).data)[u] == if IsMember(db, orgId, u.id) then multiset(db.users)[u] else 0
  {
    FilterCounts(db.users, (u: User) => IsMember(db, orgId, u.id));
  }

  // ---------------------------------------------------------------- products

  function GetProducts(db: Db): (r: Page<Product>)
    ensures r.data == db.products && r.total == |db.products|
    ensures r.page == 1 && r.pageSize == PageSize && r.totalPages == 1
  {
    OnePage(db.products)
  }

  function GetProduct(db: Db, id: string): (r: Result<Product, string>)
    ensures r.Ok? <==> exists i :: 0 <= i < |db.products| && db.products[i].id == id
    ensures r.Ok? ==> r.value in db.products && r.value.id == id
    ensures r.Ok? ==> exists i :: 0 <= i < |db.products| && db.products[i] == r.value &&
                        forall j :: 0 <= j < i ==> db.products[j].id != id
    ensures r.Err? ==> r.error == ApiError
  {
    match Find(db.products, (p: Product) => p.id == id)
    case Some(p) => Ok(p)
    case None => Err(ApiError)
  }

  /** The variants of one product, in table order. */
  function GetProductVariants(db: Db, productId: string): (r: seq<ProductVariant>)
    ensures forall i :: 0 <= i < |r| ==> r[i] in db.variants && r[i].productId == productId
    ensures forall i :: 0 <= i < |db.variants| && db.variants[i].productId == productId ==> db.variants[i] in r
    ensures Subsequence(r, db.variants)
  {
    Filter(db.variants, (v: ProductVariant) => v.productId == productId)
  }

  /** Each variant of the product appears as often as listed, and no other. */
  lemma GetProductVariantsCounts(db: Db, productId: string)
    ensures forall v :: multiset(GetProductVariants(db, productId))[v] == if v.productId == productId then multiset(db.variants)[v] else 0
  {
    FilterCounts(db.variants, (v: ProductVariant) => v.productId == productId);
  }

  function GetCategories(db: Db): (r: seq<Category>)
    ensures r == db.categories
  {
    db.categories
  }

  // ---------------------------------------------------------------- orders

  /** All orders, or only the organization's when a non-empty id is given. */
  function GetOrders(db: Db, organizationId: Option<string>): (r: Page<Order>)
    ensures !Truthy(organizationId) ==> r.data == db.orders
    ensures Truthy(organizationId) ==>
      (forall i :: 0 <= i < |r.data| ==> r.data[i] in db.orders && r.data[i].organizationId == organizationId.value) &&
      (forall i :: 0 <= i < |db.orders| && db.orders[i].organizationId == organizationId.value ==> db.orders[i] in r.data)
    ensures Subsequence(r.data, db.orders)
    ensures r.total == |r.data| && r.page == 1 && r.pageSize == PageSize && r.totalPages == 1
  {
    if Truthy(organizationId) then
      OnePage(Filter(db.orders, (o: Order) => o.organizationId == organizationId.value))
    else
      SubsequenceRefl(db.orders);
      OnePage(db.orders)
  }

  /** With an organization id, each of its orders appears as often as stored,
      and no other. */
  lemma GetOrdersCounts(db: Db, organizationId: Option<string>)
    requires Truthy(organizationId)
    ensures forall o :: multiset(GetOrders(db, organizationId).data)[o] ==
              if o.organizationId == organizationId.value then multiset(db.orders)[o] else 0
  {
    FilterCounts(db.orders, (o: Order) => o.organizationId == organizationId.value);
  }

  function GetOrder(db: Db, id: string): (r: Result<Order, string>)
    ensures r.Ok? <==> exists i :: 0 <= i < |db.orders| && db.orders[i].id == id
    ensures r.Ok? ==> r.value in db.orders && r.value.id == id
    ensures r.Ok? ==> exists i :: 0 <= i < |db.orders| && db.orders[i] == r.value &&
                        forall j :: 0 <= j < i ==> db.orders[j].id != id
    ensures r.Err? ==> r.error == ApiError
  {
    match Find(db.orders, (o: Order) => o.id == id)
    case Some(o) => Ok(o)
    case None => Err(ApiError)
  }

  /** The keys of a `Partial<Order>` that `createOrder` reads. */
  datatype OrderInput = OrderInput(
    organizationId: Option<string>,
    userId: Option<string>,
    shippingAddressId: Option<string>,
    billingAddressId: Option<string>,
    subtotal: Option<real>,
    total: Option<real>,
    currencyCode: Option<string>,
    requiresApproval: Option<bool>)

  /** `createOrder`: a draft awaiting payment, stamped with the clock. Missing
      ids become empty, missing amounts zero, a missing or empty currency
      `USD`; every other key of the input is dropped. */
  function CreateOrder(data: OrderInput, now: nat, random: nat): (r: Order)
    requires random < 10000
    ensures r.id == "order_" + NatToString(now) && r.orderNumber == "ORD-" + NatToString(random)
    ensures r.status == Draft && r.paymentStatus == PaymentPending
    ensures r.organizationId == data.organizationId.GetOr("") && r.userId == data.userId.GetOr("")
    ensures r.shippingAddressId == data.shippingAddressId.GetOr("")
    ensures r.billingAddressId == data.billingAddressId.GetOr("")
    ensures r.subtotal == data.subtotal.GetOr(0.0) && r.total == data.total.GetOr(0.0)
    ensures r.currencyCode == (if Truthy(data.currencyCode) then data.currencyCode.value else "USD")
    ensures r.requiresApproval <==> data.requiresApproval == Some(true)
    ensures r.poNumber.None? && r.taxAmount.None? && r.shippingAmount.None?
    ensures r.shippingMethod.None? && r.paymentMethod.None?
    ensures r.orderDate == now && r.createdAt == now && r.updatedAt == now
  {
    Order(
      "order_" + NatToString(now),
      "ORD-" + NatToString(random),
      OrElse(data.organizationId, ""),
      OrElse(data.userId, ""),
      now,
      Draft,
      OrElse(data.shippingAddressId, ""),
      OrElse(data.billingAddressId, ""),
      None, None, None,
      if data.subtotal.Some? && data.subtotal.value != 0.0 then data.subtotal.value else 0.0,
      if data.total.Some? && data.total.value != 0.0 then data.total.value else 0.0,
      OrElse(data.currencyCode, "USD"),
      None,
      PaymentPending,
      None,
      if data.requiresApproval.Some? && data.requiresApproval.value then true else false,
      now, now)
  }

  // ---------------------------------------------------------------- carts

  /** The first active cart of the user, or `null`. */
  function GetCart(db: Db, userId: string): (r: Option<Cart>)
    ensures r.Some? <==> exists i :: 0 <= i < |db.carts| && db.carts[i].userId == Some(userId) && db.carts[i].isActive
    ensures r.Some? ==> r.value in db.carts && r.value.userId == Some(userId) && r.value.isActive
    ensures r.Some? ==> exists i :: 0 <= i < |db.carts| && db.carts[i] == r.value &&
                          forall j :: 0 <= j < i ==> !(db.carts[j].userId == Some(userId) && db.carts[j].isActive)
  {
    Find(db.carts, (c: Cart) => c.userId == Some(userId) && c.isActive)
  }

  /** `addToCart`: a fixed active USD cart for the user; the variant and the
      quantity are not looked at. */
  function AddToCart(userId: string, productVariantId: string, quantity: real, now: nat): (r: Cart)
    ensures r.id == "cart_" + NatToString(now) && r.userId == Some(userId)
    ensures r.currencyCode == "USD" && r.isActive
    ensures r.subtotal == 199.99 && r.total == 214.99
    ensures r.organizationId.None? && r.taxAmount.None? && r.shippingAmount.None?
    ensures r.createdAt == now && r.updatedAt == now
  {
    Cart("cart_" + NatToString(now), Some(userId), None, "USD", true, 199.99, 214.99, None, None, now, now)
  }

  /** The simulated cart does not depend on what was added. */
  lemma AddToCartIgnoresItem(userId: string, v1: string, v2: string, q1: real, q2: real, now: nat)
    ensures AddToCart(userId, v1, q1, now) == AddToCart(userId, v2, q2, now)
  {
  }

  // ---------------------------------------------------------------- saved lists and quotes

  function GetSavedLists(db: Db, userId: string): (r: seq<SavedList>)
    ensures forall i :: 0 <= i < |r| ==> r[i] in db.savedLists && r[i].userId == userId
    ensures forall i :: 0 <= i < |db.savedLists| && db.savedLists[i].userId == userId ==> db.savedLists[i] in r
    ensures Subsequence(r, db.savedLists)
  {
    Filter(db.savedLists, (l: SavedList) => l.userId == userId)
  }

  /** Each of the user's lists appears as often as stored, and no other. */
  lemma GetSavedListsCounts(db: Db, userId: string)
    ensures forall l :: multiset(GetSavedLists(db, userId))[l] == if l.userId == userId then multiset(db.savedLists)[l] else 0
  {
    FilterCounts(db.savedLists, (l: SavedList) => l.userId == userId);
  }

  /** The organization's quotes; unlike `GetOrders`, an empty id filters too. */
  function GetQuotes(db: Db, organizationId: string): (r: Page<RequestForQuote>)
    ensures forall i :: 0 <= i < |r.data| ==> r.data[i] in db.rfqs && r.data[i].organizationId == organizationId
    ensures forall i :: 0 <= i < |db.rfqs| && db.rfqs[i].organizationId == organizationId ==> db.rfqs[i] in r.data
    ensures Subsequence(r.data, db.rfqs)
    ensures r.total == |r.data| && r.page == 1 && r.pageSize == PageSize && r.totalPages == 1
  {
    OnePage(Filter(db.rfqs, (q: RequestForQuote) => q.organizationId == organizationId))
  }

  /** Each of the organization's quotes appears as often as stored, and no other. */
  lemma GetQuotesCounts(db: Db, organizationId: string)
    ensures forall q :: multiset(GetQuotes(db, organizationId).data)[q] == if q.organizationId == organizationId then multiset(db.rfqs)[q] else 0
  {
    FilterCounts(db.rfqs, (q: RequestForQuote) => q.organizationId == organizationId);
  }

  datatype QuoteInput = QuoteInput(organizationId: Option<string>, userId: Option<string>)

  function CreateQuote(data: QuoteInput, now: nat, random: nat): (r: RequestForQuote)
    requires random < 10000
    ensures r.id == "rfq_" + NatToString(now) && r.rfqNumber == "RFQ-" + NatToString(random)
    ensures r.status == RfqDraft
    ensures r.organizationId == data.organizationId.GetOr("") && r.userId == data.userId.GetOr("")
    ensures r.notes.None? && r.expirationDate.None?
    ensures r.createdAt == now && r.updatedAt == now
  {
    RequestForQuote(
      "rfq_" + NatToString(now), "RFQ-" + NatToString(random),
      OrElse(data.organizationId, ""), OrElse(data.userId, ""),
      RfqDraft, None, None, now, now)
  }

  // ---------------------------------------------------------------- mock data

  const MockOrganizations: seq<Organization> := [
    Organization("org_1", "Acme Corporation", "ACME", Some("https://acme.example.com"),
      Some("+1 (555) 123-4567"), Active, Some(50000.0), Some("net30"), 1673740800000, 1684713600000),
    Organization("org_2", "TechSolutions Inc", "TECH", Some("https://techsolutions.example.com"),
      Some("+1 (555) 987-6543"), Active, Some(75000.0), Some("net60"), 1675987200000, 1681776000000),
    Organization("org_3", "Global Manufacturing", "GLOBMFG", Some("https://globalmanufacturing.example.com"),
      Some("+1 (555) 456-7890"), Active, Some(100000.0), Some("net30"), 1672876800000, 1686528000000)
  ]

  const MockUsers: seq<User> := [
    User("user_1", "john.doe@acme.example.com", "John", "Doe", true, Some("+1 (555) 111-2222"),
      1674172800000, 1686787200000),
    User("user_2", "jane.smith@acme.example.com", "Jane", "Smith", true, Some("+1 (555) 333-4444"),
      1674604800000, 1685404800000),
    User("user_3", "michael.johnson@techsolutions.example.com", "Michael", "Johnson", true,
      Some("+1 (555) 555-6666"), 1676419200000, 1686355200000)
  ]

  const MockOrgUsers: seq<OrgUser> := [
    OrgUser("org_1", "user_1", RoleAdmin, Active),
    OrgUser("org_1", "user_2", Purchaser, Active),
    OrgUser("org_2", "user_3", RoleAdmin, Active)
  ]

  const MockCategories: seq<Category> := [
    Category("cat_1", "Electronics", "electronics", 1, true, 1672531200000, 1672531200000),
    Category("cat_2", "Office Supplies", "office-supplies", 2, true, 1672531200000, 1672531200000),
    Category("cat_3", "Industrial Equipment", "industrial-equipment", 3, true, 1672531200000, 1672531200000)
  ]

  const MockProducts: seq<Product> := [
    Product("prod_1", "Enterprise Laptop X1", "enterprise-laptop-x1",
      Some("High-performance laptop for business professionals."),
      Some("Business laptop with 16GB RAM and 512GB SSD"), Some("LAP-X1-001"), true, true,
      Some(["cat_1"]), None, 1673308800000, 1684108800000),
    Product("prod_2", "Office Desk Pro", "office-desk-pro",
      Some("Adjustable height desk suitable for any office environment."),
      Some("Adjustable height professional desk"), Some("DSK-PRO-001"), true, true,
      Some(["cat_2"]), None, 1675555200000, 1681948800000),
    Product("prod_3", "Industrial Safety Helmet", "industrial-safety-helmet",
      Some("High-impact resistant safety helmet for industrial use."),
      Some("OSHA-approved safety helmet"), Some("HLM-SAF-001"), true, true,
      Some(["cat_3"]), None, 1673740800000, 1678406400000)
  ]

  const MockVariants: seq<ProductVariant> := [
    ProductVariant("var_1", "prod_1", "LAP-X1-001-BLK", Some("Enterprise Laptop X1 - Black"), 1, true, true,
      [OptionValue("opt_1", "Black"), OptionValue("opt_2", "16GB"), OptionValue("opt_3", "512GB")],
      1299.99, Some(950.0), 45, true, Some(["/placeholder.svg"]), 1673308800000, 1684108800000),
    ProductVariant("var_2", "prod_1", "LAP-X1-001-SLV", Some("Enterprise Laptop X1 - Silver"), 2, false, true,
      [OptionValue("opt_1", "Silver"), OptionValue("opt_2", "16GB"), OptionValue("opt_3", "512GB")],
      1299.99, Some(950.0), 38, true, Some(["/placeholder.svg"]), 1673308800000, 1684108800000)
  ]

  const MockOrders: seq<Order> := [
    Order("order_1", "ORD-12345", "org_1", "user_1", 1685577600000, Processing, "addr_1", "addr_2",
      Some("express"), Some(15.99), Some(119.99), 1499.99, 1635.97, "USD", None, Paid,
      Some("credit_card"), false, 1685577600000, 1685664000000),
    Order("order_2", "ORD-12346", "org_2", "user_3", 1685923200000, PendingApproval, "addr_3", "addr_3",
      None, None, Some(24.00), 299.99, 323.99, "USD", Some("PO-9876"), PaymentPending,
      Some("purchase_order"), true, 1685923200000, 1685923200000)
  ]

  const MockCarts: seq<Cart> := [
    Cart("cart_1", Some("user_1"), Some("org_1"), "USD", true, 2599.98, 2825.97, Some(207.99), Some(18.00),
      1686355200000, 1686787200000)
  ]

  const MockSavedLists: seq<SavedList> := [
    SavedList("list_1", "IT Department Favorites", "org_1", "user_1", Favorites, true, 1681516800000, 1684540800000),
    SavedList("list_2", "Monthly Office Supplies", "org_1", "user_1", RegularOrder, true, 1678406400000, 1685577600000)
  ]

  const MockRfqs: seq<RequestForQuote> := [
    RequestForQuote("rfq_1", "RFQ-5001", "org_1", "user_1", Submitted,
      Some("Requesting bulk pricing for company-wide laptop refresh"), Some(1689379200000),
      1685577600000, 1685577600000),
    RequestForQuote("rfq_2", "RFQ-5002", "org_2", "user_3", InReview,
      Some("Office furniture for new branch location"), Some(1688947200000),
      1685923200000, 1686096000000)
  ]

  const MockDb := Db(MockOrganizations, MockUsers, MockOrgUsers, MockCategories, MockProducts,
    MockVariants, MockOrders, MockCarts, MockSavedLists, MockRfqs)

  /** A membership row makes its user a member of its organization. */
  lemma IsMemberAt(db: Db, k: nat)
    requires k < |db.orgUsers|
    ensures IsMember(db, db.orgUsers[k].organizationId, db.orgUsers[k].userId)
  {
    var ou := db.orgUsers[k];
    assert ou.organizationId == ou.organizationId && ou.userId == ou.userId;
  }

  /** Acme's members are the first two users; the third belongs elsewhere. */
  lemma MockMemberships()
    ensures IsMember(MockDb, "org_1", "user_1") && IsMember(MockDb, "org_1", "user_2")
    ensures !IsMember(MockDb, "org_1", "user_3")
  {
    IsMemberAt(MockDb, 0);
    IsMemberAt(MockDb, 1);
    var ms := MockDb.orgUsers;
    assert |ms| == 3 && ms[0].userId[5] != '3' && ms[1].userId[5] != '3' && ms[2].organizationId[4] != '1';
  }

  /** The user page of a store with three users, spelled out. */
  lemma OrganizationUsersOfThree(db: Db, orgId: string)
    requires |db.users| == 3
    ensures GetOrganizationUsers(db, orgId).data ==
              (if IsMember(db, orgId, db.users[0].id) then [db.users[0]] else []) +
              (if IsMember(db, orgId, db.users[1].id) then [db.users[1]] else []) +
              (if IsMember(db, orgId, db.users[2].id) then [db.users[2]] else [])
  {
    FilterThree(db.users, (u: User) => IsMember(db, orgId, u.id));
  }

  /** Acme's user page lists its two members, in user order. */
  lemma MockOrganizationUsers()
    ensures GetOrganizationUsers(MockDb, "org_1").data == [MockUsers[0], MockUsers[1]]
  {
    MockMemberships();
    OrganizationUsersOfThree(MockDb, "org_1");
  }

  /** Global Manufacturing has no membership rows, so no users. */
  lemma MockOrganizationWithoutUsers()
    ensures GetOrganizationUsers(MockDb, "org_3").data == []
  {
    var db := MockDb;
    var ms := db.orgUsers;
    assert |ms| == 3 && ms[0].organizationId[4] != '3' && ms[1].organizationId[4] != '3' &&
           ms[2].organizationId[4] != '3';
    FilterNone(db.users, (u: User) => IsMember(db, "org_3", u.id));
  }

  /** Filtering orders by an organization that placed none gives an empty page. */
  lemma MockOrdersByOrganization()
    ensures GetOrders(MockDb, Some("org_1")).data == [MockOrders[0]]
    ensures GetOrders(MockDb, Some("org_3")).total == 0
    ensures GetOrders(MockDb, Some("")).data == MockOrders
  {
  }

  /** Only the first mock product has variants. */
  lemma MockVariantsOfProducts()
    ensures GetProductVariants(MockDb, "prod_1") == MockVariants
    ensures GetProductVariants(MockDb, "prod_2") == []
  {
  }

  /** An organization whose id no earlier one has is what its id finds. */
  lemma GetOrganizationAt(db: Db, k: nat)
    requires k < |db.organizations|
    requires forall j :: 0 <= j < k ==> db.organizations[j].id != db.organizations[k].id
    ensures GetOrganization(db, db.organizations[k].id) == Ok(db.organizations[k])
  {
    var r := GetOrganization(db, db.organizations[k].id);
    var i :| 0 <= i < |db.organizations| && db.organizations[i] == r.value &&
             forall j :: 0 <= j < i ==> db.organizations[j].id != db.organizations[k].id;
    assert i == k;
  }

  /** TechSolutions is found by its id. */
  lemma MockOrganizationFound()
    ensures GetOrganization(MockDb, "org_2") == Ok(MockOrganizations[1])
  {
    var orgs := MockDb.organizations;
    assert orgs[0].id[4] != orgs[1].id[4];
    GetOrganizationAt(MockDb, 1);
  }

  /** No organization has the id `org_9`. */
  lemma MockOrganizationMissing()
    ensures GetOrganization(MockDb, "org_9") == Err(ApiError)
  {
    var orgs := MockDb.organizations;
    assert |orgs| == 3 && orgs[0].id[4] != '9' && orgs[1].id[4] != '9' && orgs[2].id[4] != '9';
  }

  /** The first user has the one active cart; the second has none. */
  lemma MockCartLookups()
    ensures GetCart(MockDb, "user_1") == Some(MockCarts[0])
    ensures GetCart(MockDb, "user_2") == None
  {
    var carts := MockDb.carts;
    assert |carts| == 1 && carts[0].userId == Some("user_1") && carts[0].isActive;
    assert carts[0].userId.value[5] != '2';
  }
}
