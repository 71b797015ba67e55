/** The domain records of the storefront (src/types/models.ts), restricted to
    the fields that the modelled code reads or writes. Dates are milliseconds
    since the Unix epoch, as `Date.getTime()` returns them; money is `real`. */
module Models {
  import opened Wrappers

  datatype OrgStatus = Active | Pending | Suspended {
    /** The string TypeScript stores for the status. */
    function Name(): string {
      match this
      case Active => "active"
      case Pending => "pending"
      case Suspended => "suspended"
    }
  }

  datatype OrderStatus =
    | Draft | PendingApproval | Approved | Processing | OnHold
    | Shipped | Delivered | Canceled | Returned
  {
    function Name(): string {
      match this
      case Draft => "draft"
      case PendingApproval => "pending_approval"
      case Approved => "approved"
      case Processing => "processing"
      case OnHold => "on_hold"
      case Shipped => "shipped"
      case Delivered => "delivered"
      case Canceled => "canceled"
      case Returned => "returned"
    }
  }

  datatype PaymentStatus =
    | PaymentPending | Authorized | Paid | PartiallyPaid | Refunded | PartiallyRefunded | Voided
  {
    function Name(): string {
      match this
      case PaymentPending => "pending"
      case Authorized => "authorized"
      case Paid => "paid"
      case PartiallyPaid => "partially_paid"
      case Refunded => "refunded"
      case PartiallyRefunded => "partially_refunded"
      case Voided => "voided"
    }
  }

  datatype OrgUserRole = RoleAdmin | Purchaser | Approver | Viewer

  datatype SavedListType = Favorites | Requisition | RegularOrder

  datatype RfqStatus = RfqDraft | Submitted | InReview | RfqApproved | Rejected | Expired

  datatype Organization = Organization(
    id: string,
    name: string,
    code: string,
    website: Option<string>,
    phoneNumber: Option<string>,
    status: OrgStatus,
    creditLimit: Option<real>,
    paymentTerms: Option<string>,
    createdAt: int,
    updatedAt: int)

  /** A user account as the mock service stores it (not the signed-in user of
      the session, which is `AuthContext.User`). */
  datatype User = User(
    id: string,
    email: string,
    firstName: string,
    lastName: string,
    isActive: bool,
    phoneNumber: Option<string>,
    createdAt: int,
    updatedAt: int)

  /** Membership of a user in an organization. */
  datatype OrgUser = OrgUser(organizationId: string, userId: string, role: OrgUserRole, status: OrgStatus)

  datatype Category = Category(
    id: string, name: string, slug: string, position: int, isActive: bool,
    createdAt: int, updatedAt: int)

  datatype Product = Product(
    id: string,
    name: string,
    slug: string,
    description: Option<string>,
    shortDescription: Option<string>,
    sku: Option<string>,
    isActive: bool,
    hasVariants: bool,
    categories: Option<seq<string>>,
    images: Option<seq<string>>,
    createdAt: int,
    updatedAt: int)

  datatype OptionValue = OptionValue(optionId: string, value: string)

  datatype ProductVariant = ProductVariant(
    id: string,
    productId: string,
    sku: string,
    name: Option<string>,
    position: int,
    isDefault: bool,
    isActive: bool,
    optionValues: seq<OptionValue>,
    price: real,
    costPrice: Option<real>,
    inventoryQuantity: int,
    backorderable: bool,
    imageUrls: Option<seq<string>>,
    createdAt: int,
    updatedAt: int)

  datatype Order = Order(
    id: string,
    orderNumber: string,
    organizationId: string,
    userId: string,
    orderDate: int,
    status: OrderStatus,
    shippingAddressId: string,
    billingAddressId: string,
    shippingMethod: Option<string>,
    shippingAmount: Option<real>,
    taxAmount: Option<real>,
    subtotal: real,
    total: real,
    currencyCode: string,
    poNumber: Option<string>,
    paymentStatus: PaymentStatus,
    paymentMethod: Option<string>,
    requiresApproval: bool,
    createdAt: int,
    updatedAt: int)

  datatype Cart = Cart(
    id: string,
    userId: Option<string>,
    organizationId: Option<string>,
    currencyCode: string,
    isActive: bool,
    subtotal: real,
    total: real,
    taxAmount: Option<real>,
    shippingAmount: Option<real>,
    createdAt: int,
    updatedAt: int)

  datatype SavedList = SavedList(
    id: string, name: string, organizationId: string, userId: string,
    listType: SavedListType, isPublic: bool, createdAt: int, updatedAt: int)

  datatype RequestForQuote = RequestForQuote(
    id: string,
    rfqNumber: string,
    organizationId: string,
    userId: string,
    status: RfqStatus,
    notes: Option<string>,
    expirationDate: Option<int>,
    createdAt: int,
    updatedAt: int)

  /** The wrapper of every list endpoint. */
  datatype Page<T> = Page(data: seq<T>, total: int, page: int, pageSize: int, totalPages: int)

  /** A value counts as set when it is present and not the empty string
      (JavaScript truthiness of an optional string). */
  predicate Truthy(s: Option<string>) {
    s.Some? && s.value != ""
  }
}
