# b2b-commerce-nexus storefront logic, in Dafny

b2b-commerce-nexus is a client-rendered React storefront for B2B buyers. This
project models the decision logic behind its pages and proves properties of
that logic. The pages themselves are JSX:

- the route guard, the session kept in `localStorage`, and the login page;
- the in-memory mock API (find by id, filter by foreign key, merge with
  spread, records built with `||` defaults);
- the list pages:
  - orders, products and organizations: search, status and category filters,
    and comparator sorts;
  - classification functions: status to badge, inventory to stock label,
    status text;
- the detail pages: order detail, product detail and the organization card;
- the zod form schemas of checkout, add-product, signup, business
  registration and support, together with the checkout totals and the
  add-product image list.

Each source file is one Dafny module of the same name (`order_list.dfy` is
`module OrderList`). Four helper modules support them:

- `Wrappers`: Option and Result.
- `Text`: ASCII case mapping, `includes`, `split`/`join`, `parseInt`, and
  JavaScript's string length in UTF-16 code units (which zod's `.min` compares).
- `Lists`: `filter`, `find`, and a stable sort by key.
- `Models`: the records and unions of `src/types/models.ts`.
- `Ui` is shared too: badge variants, zod issues, toasts, navigations and the
  amount rows.

How the source is modelled:

- Render outcomes are datatype values such as `Spinner`, `Redirect`,
  `AccessDenied`, `NotFound` or `Cards`, not markup.
- State that React components keep in `useState` belongs to a `class` whose
  handler methods update its fields.
- What a handler leaves behind is recorded in fields of the class:
  - toasts in a `toasts` sequence;
  - calls of `navigate` in a `navigations` sequence.
- Pure decisions are functions.
- Library behaviour is a parameter, because its implementation is not part of
  this model:
  - `JSON.parse`/`JSON.stringify`;
  - zod's `.email()` (`isEmail`);
  - `localeCompare` (a collation key);
  - `Date.now()`/`Math.random()` (numbers passed in).
- JavaScript semantics are written out where they decide the outcome:
  - truthiness of `||` and `&&`, where the empty string is falsy;
  - `Array.prototype.splice` index clamping;
  - `parseInt` returning `NaN`;
  - zod's `z.coerce.number()` turning text into `NaN`;
  - React printing the number `0`;
  - `JSON.parse` results taken as the user unchecked, so a stored non-object
    signs in exactly when it is truthy.

Zod behaviour is modelled as follows:

- A schema's issues are collected field by field, in declaration order.
- An object `.refine` runs after the fields unless a field failed in a way zod
  treats as aborting the object. In these schemas that is only an invalid
  checkout enum value.
- String `.min(n)` compares JavaScript's length, which counts UTF-16 code
  units: a character outside the Basic Multilingual Plane counts twice.
- The resolver shows each field's first issue.
- The submit handler runs only when there are no issues.

## Model

| member | source | states |
|---|---|---|
| ProtectedRoute.Guard | src/components/ProtectedRoute.tsx:13-72 | While loading: the spinner, whatever the rest. Not loading and not authenticated: a redirect to `redirectPath` (default `/login`) carrying the current location, with replace. Authenticated with a truthy requirement the user does not meet: access denied naming the roles. Otherwise: the render function when one is given, else the children |
| ProtectedRoute.GrantedIff | src/components/ProtectedRoute.tsx:32-71 | Access is granted iff not loading, authenticated, and the requirement is falsy or met. Access denied implies authenticated. A redirect happens iff not loading and not authenticated |
| ProtectedRoute.RoleRequirement.Roles | src/components/ProtectedRoute.tsx:41 | A single role becomes the one-element list; a list is kept |
| ProtectedRoute.SingleAsList | src/components/ProtectedRoute.tsx:40-44 | A non-empty string requirement decides exactly like the one-element list holding it |
| ProtectedRoute.EmptySingleDiffersFromList | src/components/ProtectedRoute.tsx:40-44 | `''` skips the role check, while `['']` denies every user |
| ProtectedRoute.EmptyListDeniesAll | src/components/ProtectedRoute.tsx:40-62 | `requiredRole = []` denies every authenticated user |
| ProtectedRoute.NoRoleSkipsCheck | src/components/ProtectedRoute.tsx:40 | An absent requirement decides like `''` and never denies access |
| ProtectedRoute.ViewOf | src/context/AuthContext.tsx:97-104 | The context's `isAuthenticated` is `!!user`: it holds iff the user is a record or a truthy non-record value; user and loading flag are passed through |
| ProtectedRoute.LoggedInAdminGranted | src/context/AuthContext.tsx:70-77 | After login (role `admin`), routes requiring `admin` or `['buyer','admin']` render their children |
| ProtectedRoute.PendingLoginShowsSpinner | src/context/AuthContext.tsx:60 | While a login is pending, every guarded route shows the spinner |
| ProtectedRoute.LogoutRedirects | src/context/AuthContext.tsx:91-94 | After logout, every guarded route redirects to `/login` |
| ProtectedRoute.NonRecordSessionGuarded | src/components/ProtectedRoute.tsx:32-47 | A session restored from a truthy non-object entry passes routes without a role requirement and is denied every route with one |
| AuthContext.MockUser | src/context/AuthContext.tsx:70-77 | The signed-in user: id `user_1`, the given email, John Doe, organization `org_1`, role `admin` |
| AuthContext.Initial | src/context/AuthContext.tsx:33-34 | Initially there is no user and loading is true |
| AuthContext.Session.CheckAuth | src/context/AuthContext.tsx:38-53 | Whatever a stored entry parses to becomes the user, unchecked: a record, `null` (no user), or any other JSON value. A parse failure removes the key and keeps the user. With no entry, nothing changes. Loading is false afterwards in every case |
| AuthContext.Session.LoginPending | src/context/AuthContext.tsx:60 | Loading is true while the login is pending; user and storage are unchanged |
| AuthContext.Session.Login | src/context/AuthContext.tsx:59-88 | The user becomes the mock user for any password, and loading ends false. When storage is writable, the same record is stored under `b2b_user` and the login succeeds. Otherwise it fails with `Invalid credentials` and storage is unchanged |
| AuthContext.Session.Logout | src/context/AuthContext.tsx:91-94 | No user afterwards, so not authenticated. `b2b_user` is removed and every other key is kept |
| AuthContext.LogoutIdempotent | src/context/AuthContext.tsx:91-94 | Logging out twice is logging out once |
| AuthContext.LoginThenLogout | src/context/AuthContext.tsx:59-100 | Login followed by logout leaves the session unauthenticated, with no `b2b_user` entry |
| AuthContext.SessionSurvivesReload | src/context/AuthContext.tsx:38-81 | When parse inverts stringify, a reload after login restores the same user |
| AuthContext.LogoutSurvivesReload | src/context/AuthContext.tsx:38-94 | A reload after logout stays signed out |
| AuthContext.MalformedEntryRemoved | src/context/AuthContext.tsx:47-50 | A malformed entry is removed, so checking again changes nothing |
| AuthContext.NoEntryStaysSignedOut | src/context/AuthContext.tsx:38-53 | With no stored entry, startup ends signed out and not loading |
| AuthContext.NonRecordEntryTaken | src/context/AuthContext.tsx:44-45 | A stored entry that parses to a non-object is taken as the user: signed in iff it is truthy, with no role, storage kept |
| AuthContext.AuthProvider.constructor | src/context/AuthContext.tsx:33-34 | The provider starts in the initial session over the browser's storage |
| AuthContext.AuthProvider.CheckAuth | src/context/AuthContext.tsx:38-53 | The provider's fields become the `Session.CheckAuth` transition of their old values |
| AuthContext.AuthProvider.Login | src/context/AuthContext.tsx:59-88 | The provider's fields and the outcome are the `Session.Login` transition |
| AuthContext.AuthProvider.Logout | src/context/AuthContext.tsx:91-94 | The provider's fields become the `Session.Logout` transition |
| Login.From | src/pages/Login.tsx:43 | `from` is `state.from.pathname` when present and non-empty, else `/`; never empty |
| Login.ReturnsToRequestedPath | src/pages/Login.tsx:43 | The guard's redirect of an anonymous visitor stores a `from` that Login reads back as the requested path |
| Login.IssuesEmptyIff | src/pages/Login.tsx:23-31 | The form is valid iff the email is non-empty and well-formed and the password is non-empty |
| Login.EmptyEmailMessage | src/pages/Login.tsx:23-31 | An empty email shows `Email is required`; the default form is invalid |
| Login.FailureText | src/pages/Login.tsx:80 | The failure toast shows the error's message, or the fixed fallback when it is empty |
| Login.LoginFailureText | src/pages/Login.tsx:74-80 | A failed login shows `Invalid credentials` |
| Login.LoginPage.RedirectIfAuthenticated | src/pages/Login.tsx:46-50 | When already authenticated, the page navigates to `from` with replace; otherwise it does nothing |
| Login.LoginPage.Submit | src/pages/Login.tsx:61-85 | An invalid form only shows issues. A valid one runs the login and ends with loading false. Success adds the success toast and navigates to `from` with replace; failure adds the failure toast and does not navigate |
| Api.OnePage | src/services/api.ts:28-36 | A response holds the data with total = length, page 1, pageSize 10, totalPages 1 |
| Api.GetOrganizations | src/services/api.ts:41-48 | All organizations, as one page |
| Api.GetOrganization | src/services/api.ts:51-57 | Found iff some organization has the id. The result is the first one with that id; otherwise the error `API Error: Something went wrong` (`Api.ApiError`) |
| Api.Spread | src/services/api.ts:72-80 | `{...org, ...data, updatedAt}`: each supplied field overrides, the others are kept, `updatedAt` is replaced |
| Api.SpreadEmpty | src/services/api.ts:72-80 | An empty patch only replaces `updatedAt` |
| Api.SpreadIdempotent | src/services/api.ts:72-80 | Applying the same patch twice is applying it once |
| Api.SpreadThen | src/services/api.ts:72-80 | Two updates in a row equal one update with the patches merged, the later winning |
| Api.UpdateOrganization | src/services/api.ts:72-80 | Succeeds iff the organization exists, with the merged record; an unknown id fails |
| Api.OrElse | src/services/api.ts:59-70 | `x \|\| fallback`: the value when truthy, else the fallback |
| Api.CreateOrganization | src/services/api.ts:59-70 | id from the clock. The name defaults to `New Organization` and the code to `ORG-<random>`, also when empty. Status defaults to `pending`; optional fields are absent |
| Api.CreatedOrganizationIdsDiffer | src/services/api.ts:61 | Organizations created at different times get different ids |
| Api.GetOrganizationUsers | src/services/api.ts:82-94 | Exactly the users that have a membership row with the organization, in user-list order (multiplicity: `GetOrganizationUsersCounts`) |
| Api.GetOrganizationUsersCounts | src/services/api.ts:82-94 | Each member appears in the page exactly as often as in the user list, and no one else appears |
| Api.GetProducts | src/services/api.ts:100-108 | All products, as one page |
| Api.GetProduct | src/services/api.ts:110-116 | The first product with the id, else the error `API Error: Something went wrong` (`Api.ApiError`) |
| Api.GetProductVariants | src/services/api.ts:118-121 | Exactly the variants of the product, in order (multiplicity: `GetProductVariantsCounts`) |
| Api.GetProductVariantsCounts | src/services/api.ts:118-121 | Each variant of the product appears exactly as often as listed, and no other variant |
| Api.GetCategories | src/services/api.ts:123-125 | All categories |
| Api.GetOrders | src/services/api.ts:131-145 | Exactly the organization's orders, in order (multiplicity: `GetOrdersCounts`). An absent or empty id gives all orders |
| Api.GetOrdersCounts | src/services/api.ts:131-140 | With a truthy id, each of the organization's orders appears exactly as often as stored, and no other order |
| Api.GetOrder | src/services/api.ts:147-153 | The first order with the id, else the error `API Error: Something went wrong` (`Api.ApiError`) |
| Api.CreateOrder | src/services/api.ts:155-175 | Status `draft` and payment `pending`. Currency defaults to `USD` and amounts to 0. `requiresApproval` holds only when given as true, and missing ids become `''` |
| Api.GetCart | src/services/api.ts:181-184 | The first active cart of the user (no earlier cart is the user's and active), else none |
| Api.AddToCart | src/services/api.ts:186-198 | A fixed active USD cart for the user, with subtotal 199.99 and total 214.99 |
| Api.AddToCartIgnoresItem | src/services/api.ts:186-198 | The cart does not depend on the variant or the quantity |
| Api.GetSavedLists | src/services/api.ts:204-207 | Exactly the user's saved lists, in order (multiplicity: `GetSavedListsCounts`) |
| Api.GetSavedListsCounts | src/services/api.ts:204-207 | Each of the user's lists appears exactly as often as stored, and no other list |
| Api.GetQuotes | src/services/api.ts:213-223 | Exactly the organization's quotes, in order, as one page (multiplicity: `GetQuotesCounts`) |
| Api.GetQuotesCounts | src/services/api.ts:213-223 | Each of the organization's quotes appears exactly as often as stored, and no other quote |
| Api.CreateQuote | src/services/api.ts:225-237 | A `draft` quote numbered `RFQ-<random>`, with missing ids as `''` |
| Api.MockOrganizationUsers | src/services/api.ts:317-321 | `org_1` lists users 1 and 2, in that order |
| Api.MockOrganizationWithoutUsers | src/services/api.ts:317-321 | `org_3` has no users |
| Api.IsMemberAt | src/services/api.ts:84 | Every membership row makes its user a member of its organization, as the `some` test accepts any matching row |
| Api.MockMemberships | src/services/api.ts:317-321 | Users 1 and 2 are members of `org_1`; user 3 is not |
| Api.MockOrdersByOrganization | src/services/api.ts:440-482 | `org_1` has the first order and `org_3` none; an empty id lists all orders |
| Api.MockVariantsOfProducts | src/services/api.ts:395-438 | `prod_1` owns both variants; `prod_2` owns none |
| Api.GetOrganizationAt | src/services/api.ts:51-57 | An organization whose id no earlier one shares is exactly what a lookup of that id returns |
| Api.MockOrganizationFound | src/services/api.ts:242-279 | `org_2` is found: the second mock organization |
| Api.MockOrganizationMissing | src/services/api.ts:242-279 | `org_9` is not found |
| Api.MockCartLookups | src/services/api.ts:484-498 | `user_1` has an active cart and `user_2` none |
| OrderList.FilteredOrders | src/components/OrderList.tsx:114-123 | Exactly the orders whose lowercased number contains the lowercased term and whose status matches unless the filter is `all`, each as often as listed, in order |
| OrderList.ShowAll | src/components/OrderList.tsx:114-123 | An empty search with `all` keeps every order |
| OrderList.UnknownStatusKeepsNothing | src/components/OrderList.tsx:119-120 | A filter naming no status (other than `all`) keeps nothing |
| OrderList.SortedOrdersCorrect | src/components/OrderList.tsx:126-139 | A permutation of the filtered orders. `newest`/`oldest` order by date down/up; `highest`/`lowest` order by total down/up |
| OrderList.UnknownSortKeepsOrder | src/components/OrderList.tsx:136-137 | An unknown sort key keeps the filtered order |
| OrderList.GetStatusVariant | src/components/OrderList.tsx:80-94 | processing is default; shipped/delivered/approved are secondary; canceled is destructive; everything else is outline. Each holds in both directions |
| OrderList.IconAndVariantAgree | src/components/OrderList.tsx:60-94 | The fallback icon goes with the outline badge, and the only other outline status is `pending_approval` |
| OrderList.FormatStatusSpaced | src/components/OrderList.tsx:97-102 | split–capitalize–join equals one left-to-right pass replacing `_` by a space and capitalizing word starts |
| OrderList.FormatStatusShape | src/components/OrderList.tsx:97-102 | The output has the input's length, no `_`, and a space wherever the input has `_` |
| OrderList.FormatTwoWords | src/components/OrderList.tsx:97-102 | `a_b` becomes `Capitalize(a) + " " + Capitalize(b)` |
| OrderList.FormatPendingApproval | src/components/OrderList.tsx:97-102 | `pending_approval` becomes `Pending Approval` |
| OrderList.PaymentBadge | src/components/OrderList.tsx:241-242 | The badge is secondary iff paid, else outline. The label is the status with only its first letter uppercased |
| OrderList.PaymentLabelKeepsUnderscore | src/components/OrderList.tsx:242 | `partially_paid` is shown as `Partially_paid` |
| OrderList.PoDisplay | src/components/OrderList.tsx:249 | The PO number when truthy, else `—` |
| OrderDetail.AfterFetch | src/pages/OrderDetail.tsx:38-56 | With no id, the initial loading state stays. Otherwise loading ends, with the found order or the fixed error text |
| OrderDetail.ViewOf | src/pages/OrderDetail.tsx:93-113 | Loading shows the spinner. An error shows its text; a missing order shows `Order not found`; otherwise the order |
| OrderDetail.OpenOrder | src/pages/OrderDetail.tsx:38-113 | An existing id shows that order. An unknown id shows the load-failure text. No id keeps the spinner |
| OrderDetail.FormatDate | src/pages/OrderDetail.tsx:59-60 | `—` iff there is no date |
| OrderDetail.AgreesWithOrderList | src/pages/OrderDetail.tsx:69-91 | Its `getStatusVariant` and `formatStatus` equal OrderList's on every input |
| OrderDetail.StatusParts | src/pages/OrderDetail.tsx:150-301 | Approve shows iff `pending_approval`. Tracking shows iff shipped or delivered. The processing note shows iff processing or approved. These are mutually exclusive |
| OrderDetail.History | src/pages/OrderDetail.tsx:313-370 | The first row is `placed` at `createdAt`. Payment rows are dated `updatedAt`, shipped rows `updatedAt` + 86 400 000 ms, delivered rows `updatedAt` + 259 200 000 ms |
| OrderDetail.HistoryEvents | src/pages/OrderDetail.tsx:329-366 | Payment iff not `pending_approval`. Shipped iff shipped or delivered. Delivered iff delivered, and then shipped too |
| OrderDetail.DeliveredHistory | src/pages/OrderDetail.tsx:343-366 | A delivered order has four rows, with delivery two days after shipping |
| OrderDetail.PaymentMethodText | src/pages/OrderDetail.tsx:413 | `Purchase Order` iff the method is `purchase_order`, else `Credit Card` |
| OrderDetail.PoShown | src/pages/OrderDetail.tsx:416-419 | The PO number is shown iff truthy |
| OrderDetail.SummaryOf | src/pages/OrderDetail.tsx:239-261 | The Tax and Shipping rows appear exactly for a present, non-zero amount; subtotal, total and currency are shown as stored |
| OrderDetail.MockOrderSummary | src/pages/OrderDetail.tsx:245-251 | The second mock order shows tax 24 and no shipping row |
| OrderDetail.ZeroTaxPrintsZero | src/pages/OrderDetail.tsx:245 | Tax 0 prints a stray `0` as written, while the corrected summary hides the row |
| Ui.Check | src/pages/Checkout.tsx:30-61 | One schema check: no issue iff it holds, else one issue at its path |
| Ui.FirstError | src/pages/Checkout.tsx:30-61 | The message a field shows is the first issue at its path. It is none iff no issue has that path |
| Ui.FirstErrorAppend | src/pages/Checkout.tsx:30-61 | A field's first issue in two lists joined is the first list's, if it has one, else the second's |
| Ui.AmountRow | src/pages/OrderDetail.tsx:245-251 | Corrected amount row: shown iff the amount is present and non-zero |
| Ui.AmountRowFixOnlyDropsZero | src/components/OrganizationCard.tsx:58 | The as-written row prints a stray `0` iff the amount is 0, and otherwise agrees with the corrected row |
| ProductList.FilteredProducts | src/components/ProductList.tsx:450-461 | A product is kept iff (a) its lowercased name, description or sku contains the lowercased term, with missing fields never matching, and (b) the category is `all` or among its categories. Kept products keep their order and their number of occurrences |
| ProductList.InitialFilterKeepsAll | src/components/ProductList.tsx:450-461 | The empty term with `all` keeps every product |
| ProductList.UncategorisedOnlyInAll | src/components/ProductList.tsx:456-458 | A product without categories matches only `all` |
| ProductList.FirstPrice | src/components/ProductList.tsx:470-477 | The price of the first variant, 0 when there is none |
| ProductList.SortedProductsCorrect | src/components/ProductList.tsx:464-485 | A permutation of the filtered products, ordered by collation for `name_*`, first-variant price for `price_*` and creation time for `created_*` |
| ProductList.UnknownSortKeepsOrder | src/components/ProductList.tsx:484-485 | An unknown sort key keeps the filtered order |
| ProductList.NameOrdersAreReverse | src/components/ProductList.tsx:466-469 | When names collate distinctly, `name_desc` is the reverse of `name_asc` |
| ProductList.DefaultVariant | src/components/ProductList.tsx:551-552 | The first default variant, else the first one; none iff the list is empty |
| ProductList.TileVariant | src/components/ProductList.tsx:551-552 | The `DefaultVariant` of the product's list when it has one, none when it is absent; so a variant of that list, and none iff the list is absent or empty |
| ProductList.LaterDefaultWins | src/components/ProductList.tsx:552 | A default second variant wins over a non-default first one |
| ProductList.Grid | src/components/ProductList.tsx:537-562 | Loading shows the spinner, then the error, then "no products" for an empty list; a loaded, error-free, non-empty list always shows the tiles, one per sorted product in order with its default variant |
| ProductCard.DisplayVariant | src/components/ProductCard.tsx:16-30 | The given variant, else a fallback with price 0, inventory 0, the product's sku or `''`, and the placeholder image |
| ProductCard.StockStatusIff | src/components/ProductCard.tsx:33-42 | No variant gives Unknown. Above 10 is In Stock and 1–10 Low Stock. At or below 0 it is Backorder if backorderable, else Out of Stock |
| ProductCard.StockStatusMonotone | src/components/ProductCard.tsx:35-36 | More inventory never lowers the label |
| ProductCard.FirstUrlOr | src/components/ProductCard.tsx:51 | The first URL when present and non-empty, else the fallback |
| ProductCard.ImageSource | src/components/ProductCard.tsx:51 | The variant's first image, else `/placeholder.svg`; never empty |
| ProductCard.DetailsShown | src/components/ProductCard.tsx:69-81 | Price, stock and sku appear iff a variant is given; the stock is then the variant's `GetStockStatus` label, never Unknown |
| ProductCard.ShortDescriptionShown | src/components/ProductCard.tsx:61-63 | Shown iff truthy |
| ProductCard.Link | src/components/ProductCard.tsx:48 | `/catalog/` followed by the slug |
| ProductDetail.FindBySlug | src/pages/ProductDetail.tsx:26-27 | Found iff some product has the slug; the result is the first product with it |
| ProductDetail.AfterFetch | src/pages/ProductDetail.tsx:21-52 | No slug keeps the initial state. Otherwise the product is the slug's match, with its variants and the default variant selected, or nothing |
| ProductDetail.ViewOf | src/pages/ProductDetail.tsx:72-105 | Spinner while loading, then Not Found without a product, else the product |
| ProductDetail.UnknownSlugNotFound | src/pages/ProductDetail.tsx:85-103 | A slug no product has shows Not Found |
| ProductDetail.LaptopPage | src/pages/ProductDetail.tsx:27-40 | The laptop slug selects the laptop and its default variant |
| ProductDetail.StockBadgeAgreesWithCard | src/pages/ProductDetail.tsx:148-156 | The badge has the same thresholds and labels as ProductCard's |
| ProductDetail.ImageSource | src/pages/ProductDetail.tsx:127 | The selected variant's first URL when usable; with no variant selected, or one without a usable URL, the product's first image, else the placeholder |
| ProductDetail.AddToCartEnabledIff | src/pages/ProductDetail.tsx:198 | Enabled iff a variant is selected with inventory above 0; backorder does not enable it |
| ProductDetail.Decrement | src/pages/ProductDetail.tsx:173 | `max(1, q-1)`: at least 1, and one less when above 1 |
| ProductDetail.Increment | src/pages/ProductDetail.tsx:189 | `q+1` |
| ProductDetail.StepperKeepsAtLeastOne | src/pages/ProductDetail.tsx:173-189 | The buttons keep a quantity of at least 1; minus undoes plus |
| ProductDetail.InputReadsNumbers | src/pages/ProductDetail.tsx:183 | An empty input gives 1, and a decimal numeral gives its value |
| ProductDetail.NoDigitsGiveNaN | src/pages/ProductDetail.tsx:183 | Input without digits gives NaN, which the buttons keep |
| ProductDetail.ProductDetailPage.DecrementClicked | src/pages/ProductDetail.tsx:173 | The quantity becomes its decrement; nothing else changes |
| ProductDetail.ProductDetailPage.IncrementClicked | src/pages/ProductDetail.tsx:189 | The quantity becomes its increment; nothing else changes |
| ProductDetail.ProductDetailPage.QuantityTyped | src/pages/ProductDetail.tsx:183 | The quantity becomes the parsed input |
| ProductDetail.ProductDetailPage.AddToCartClicked | src/pages/ProductDetail.tsx:54-61 | With a product and a variant, adds `Added to cart` naming the product and quantity; otherwise nothing |
| ProductDetail.ProductDetailPage.RequestQuoteClicked | src/pages/ProductDetail.tsx:63-70 | With a product, adds `Quote requested`; otherwise nothing |
| OrganizationList.FilteredOrganizations | src/components/OrganizationList.tsx:35-38 | Exactly the organizations whose lowercased name or code contains the lowercased term, each as often as listed, as a subsequence |
| OrganizationList.EmptyTermKeepsAll | src/components/OrganizationList.tsx:35-38 | The empty term keeps every organization |
| OrganizationList.FilterIdempotent | src/components/OrganizationList.tsx:35-38 | Filtering twice with a term is filtering once |
| OrganizationList.SearchIgnoresCase | src/components/OrganizationList.tsx:36-37 | Lowercasing the term does not change the result |
| OrganizationList.CodeSearchFinds | src/components/OrganizationList.tsx:37 | Searching an organization's code finds it |
| OrganizationList.OrganizationListView.View | src/components/OrganizationList.tsx:60-76 | Spinner while loading, then the error banner, then "no matches" exactly when the filter keeps nothing; a loaded, error-free view with matches always shows the filtered cards |
| OrganizationList.OrganizationListView.Loaded | src/components/OrganizationList.tsx:16-32 | Loading ends. Success stores the data; failure keeps the list and sets the fixed error text |
| OrganizationList.OrganizationListView.SearchChanged | src/components/OrganizationList.tsx:50 | Only the search term changes |
| OrganizationCard.BadgeFor | src/components/OrganizationCard.tsx:15-22 | active is success, pending warning and suspended destructive; anything else is secondary |
| OrganizationCard.StatusesHaveDistinctBadges | src/components/OrganizationCard.tsx:15-22 | Every status has its own non-secondary badge |
| OrganizationCard.StatusLabel | src/components/OrganizationCard.tsx:30 | The status with its first character uppercased and the rest unchanged |
| OrganizationCard.StatusLabels | src/components/OrganizationCard.tsx:30 | Active, Pending, Suspended |
| OrganizationCard.SchemeLength | src/components/OrganizationCard.tsx:46 | 8 iff the text starts with `https://` and 7 iff with `http://`, ignoring case; else 0 |
| OrganizationCard.StripScheme | src/components/OrganizationCard.tsx:46 | A suffix of the website, shorter by exactly the scheme's length |
| OrganizationCard.StripSchemeRemovesOne | src/components/OrganizationCard.tsx:46 | One leading scheme in any case is removed and nothing else |
| OrganizationCard.NoSchemeKept | src/components/OrganizationCard.tsx:46 | Text without a scheme is kept |
| OrganizationCard.StripSchemeExamples | src/components/OrganizationCard.tsx:46 | `HTTPS://acme.example` becomes `acme.example`; `www.acme.example` is kept |
| OrganizationCard.DetailsLink | src/components/OrganizationCard.tsx:75 | `/organizations/` followed by the id |
| OrganizationCard.DetailsLinkInjective | src/components/OrganizationCard.tsx:75 | Different organizations link to different pages |
| OrganizationCard.CardOf | src/components/OrganizationCard.tsx:24-75 | Name, code, badge and label as above. Website, phone and terms rows appear iff truthy. The credit-limit row appears exactly for a present, non-zero amount. The link is as above |
| OrganizationCard.ZeroCreditLimitPrintsZero | src/components/OrganizationCard.tsx:58 | A credit limit of 0 prints a stray `0` as written, while the corrected card hides the row |
| Checkout.ParseShippingMethod | src/pages/Checkout.tsx:32 | Accepted iff standard, express or overnight |
| Checkout.ParsePaymentMethod | src/pages/Checkout.tsx:33 | Accepted iff credit_card or purchase_order |
| Checkout.ParseNames | src/pages/Checkout.tsx:32-33 | Parsing a method's name gives that method back |
| Checkout.MethodIssuesEmptyIff | src/pages/Checkout.tsx:32-33 | No method issues iff both enums are valid |
| Checkout.AddressIssuesEmptyIff | src/pages/Checkout.tsx:34-41 | No address issues iff every address field is non-empty |
| Checkout.FieldIssuesEmptyIff | src/pages/Checkout.tsx:31-48 | Field issues vanish iff the enums are valid and the address is complete; card fields never matter |
| Checkout.IssuesEmptyIff | src/pages/Checkout.tsx:30-61 | Valid iff enums valid, address complete, and a truthy PO number when paying by purchase order |
| Checkout.PoNumberRule | src/pages/Checkout.tsx:50-61 | With a valid shipping method, credit card always passes the PO rule. Purchase order without a PO number shows the PO message at `poNumber` |
| Checkout.FieldIssuesNotAtPo | src/pages/Checkout.tsx:31-48 | No field check reports at `poNumber` |
| Checkout.DefaultFormInvalid | src/pages/Checkout.tsx:103-117 | The defaults are invalid, and the address name shows `Name is required` |
| Checkout.SubtotalAppend | src/pages/Checkout.tsx:93 | The subtotal of two carts joined is the sum of their subtotals |
| Checkout.SubtotalNonNegative | src/pages/Checkout.tsx:93 | Non-negative item totals give a non-negative subtotal |
| Checkout.ShippingRate | src/pages/Checkout.tsx:96-100 | Every rate is positive |
| Checkout.Total | src/pages/Checkout.tsx:93-123 | total = subtotal + 8% tax + the shipping rate |
| Checkout.TotalIncreasesWithSpeed | src/pages/Checkout.tsx:96-123 | standard < express < overnight, by 10 and then 20 |
| Checkout.SampleCartTotals | src/pages/Checkout.tsx:71-95 | The sample cart: subtotal 1899.97, tax 151.9976, total 2066.9676 |
| Checkout.ShippingCost | src/pages/Checkout.tsx:122 | The rate of the watched method, none for an unknown one |
| Checkout.PaymentFieldsExclusive | src/pages/Checkout.tsx:373-435 | Card and PO fields are never shown together, and a valid method shows exactly one |
| Checkout.CheckoutPage.Submit | src/pages/Checkout.tsx:125-152 | Invalid: issues only. Valid: the order-placed toast, navigation to `/orders`, submitting ends false |
| AddProduct.NumberIssues | src/pages/AddProduct.tsx:37-44 | A coerced number is accepted iff it is a number ≥ 0; NaN and negatives give issues at its path |
| AddProduct.TextIssuesEmptyIff | src/pages/AddProduct.tsx:32-36 | Name, sku, short description and category are non-empty and the full description's JavaScript length (UTF-16 code units) is ≥ 20 |
| AddProduct.MeasureIssuesEmptyIff | src/pages/AddProduct.tsx:37-44 | Price, inventory, weight and the dimensions are each a number ≥ 0 |
| AddProduct.IssuesEmptyIff | src/pages/AddProduct.tsx:31-47 | Valid iff both of the above |
| AddProduct.SalePriceIgnored | src/pages/AddProduct.tsx:38 | The sale price never affects validity |
| AddProduct.DefaultForm | src/pages/AddProduct.tsx:57-75 | The default numbers pass, but the default form is invalid |
| AddProduct.SpliceStart | src/pages/AddProduct.tsx:89 | `splice`'s start: the index when in range, clamped to the length above, counted from the end below |
| AddProduct.SplicedAt | src/pages/AddProduct.tsx:86-91 | Removing index i keeps the elements before it, shifts the rest, drops exactly `s[i]`, length − 1 |
| AddProduct.SplicedOutside | src/pages/AddProduct.tsx:89 | An index at the length removes nothing; −1 removes the last |
| AddProduct.RemoveUndoesUpload | src/pages/AddProduct.tsx:79-91 | Removing a just-appended image restores the list |
| AddProduct.AddProductPage.HandleImageUpload | src/pages/AddProduct.tsx:79-84 | The new images are appended after the old ones; no files change nothing |
| AddProduct.AddProductPage.RemoveImage | src/pages/AddProduct.tsx:86-91 | The list becomes its `splice(index, 1)`, computed in place on an array |
| AddProduct.AddProductPage.Submit | src/pages/AddProduct.tsx:94-123 | Invalid: issues only. Valid: the success toast, values and images reset, loading false |
| Signup.NameIssuesEmptyIff | src/pages/Signup.tsx:24-39 | Names and company are non-empty, and the email is non-empty and well-formed |
| Signup.IssuesEmptyIff | src/pages/Signup.tsx:23-52 | Valid iff those hold, the password's JavaScript length (UTF-16 code units) is ≥ 8, it equals its confirmation, and the terms are accepted |
| Signup.EmojiPasswordAccepted | src/pages/Signup.tsx:40-42 | Four emoji outside the Basic Multilingual Plane meet the 8-unit minimum: validity then depends only on the other fields |
| Signup.PhoneIgnored | src/pages/Signup.tsx:37-39 | The phone never affects validity |
| Signup.MismatchShownAtConfirmation | src/pages/Signup.tsx:49-52 | A non-empty confirmation differing from the password shows `Passwords don't match` at `confirmPassword` |
| Signup.DefaultFormInvalid | src/pages/Signup.tsx:62-74 | The defaults are invalid and the first name shows its message |
| Signup.SignupPage.Submit | src/pages/Signup.tsx:77-105 | Invalid: issues only. Valid: the account toast, navigation to `/login`, loading false |
| BusinessRegistration.CompanyIssuesEmptyIff | src/pages/BusinessRegistration.tsx:33-54 | Company fields non-empty, email well-formed, phone's JavaScript length (UTF-16 code units) ≥ 10 |
| BusinessRegistration.IdentityIssuesEmptyIff | src/pages/BusinessRegistration.tsx:33-47 | No identity issues iff company name, business type, registration number and both contact names are non-empty |
| BusinessRegistration.ContactIssuesEmptyIff | src/pages/BusinessRegistration.tsx:48-54 | No contact issues iff the email is non-empty and well-formed and the phone is at least 10 UTF-16 code units |
| BusinessRegistration.AddressIssuesEmptyIff | src/pages/BusinessRegistration.tsx:55-69 | Every address field non-empty |
| BusinessRegistration.AccountIssuesEmptyIff | src/pages/BusinessRegistration.tsx:70-81 | Description ≥ 20 and password ≥ 8 in JavaScript's length (UTF-16 code units), confirmation non-empty, terms accepted |
| BusinessRegistration.IssuesEmptyIff | src/pages/BusinessRegistration.tsx:32-85 | Valid iff all three hold and the password equals its confirmation |
| BusinessRegistration.CountryAccepted | src/pages/BusinessRegistration.tsx:67-69 | A non-empty country never shows a country issue |
| BusinessRegistration.DefaultCountryAccepted | src/pages/BusinessRegistration.tsx:109 | The default country is `India`, so the country rule holds on the defaults, which are still invalid |
| BusinessRegistration.RegistrationPage.Submit | src/pages/BusinessRegistration.tsx:118-146 | Invalid: issues only. Valid: the toast, navigation to `/business/dashboard`, loading false |
| Support.DefaultValues | src/pages/Support.tsx:51-56 | Name `firstName lastName` and the user's email for a user record; empty for a falsy user; `undefined undefined` and an empty email for a truthy non-record; subject and message empty |
| Support.IssuesEmptyIff | src/pages/Support.tsx:25-39 | Valid iff name non-empty, email non-empty and well-formed, subject ≥ 3 and message ≥ 10 in JavaScript's length (UTF-16 code units) |
| Support.NameAccepted | src/pages/Support.tsx:26 | A non-empty name shows no name issue |
| Support.ShortSubjectMessage | src/pages/Support.tsx:33-35 | A subject shorter than 3 UTF-16 code units shows its message |
| Support.SubjectAccepted | src/pages/Support.tsx:33-35 | A subject at least 3 UTF-16 code units long shows no subject issue, whatever else is wrong |
| Support.EmojiSubjectAccepted | src/pages/Support.tsx:33-35 | `"😀a"` (two characters, three code units) shows no subject issue |
| Support.DefaultsNeverValid | src/pages/Support.tsx:51-56 | A truthy user's default name passes, but the defaults are never valid |
| Support.SupportPage.Submit | src/pages/Support.tsx:60-81 | Invalid: issues only. Valid: the sent toast, and `isSubmitted` becomes true |
| Support.SupportPage.SendAnother | src/pages/Support.tsx:156 | `isSubmitted` goes back to false |

## Left out

- Rendering, styling, icons, Helmet and tabs are left out. Render outcomes are datatype values.
- Delays are left out: `setTimeout`, the awaited `new Promise`, the order of `async` steps, and React's state batching. Each handler is one atomic step.
- `console.log`/`console.error` are left out.
- Fetch effects are partial. Only their outcomes are modelled (`OrderDetail.AfterFetch`, `ProductDetail.AfterFetch`, `OrganizationList.OrganizationListView.Loaded`). The list fetches of OrderList and ProductList are not modelled; their results are inputs.
- The `try/catch` failure branches are not modelled in Checkout, AddProduct, Signup, BusinessRegistration and Support. No step inside their `try` can throw, so those branches cannot be reached.
- ProductDetail's `catch` (line 42) is likewise not modelled: the mock API never rejects when listing products and variants.
- `JSON.parse`, `JSON.stringify`, zod's `.email()` regex and `localeCompare` are parameters. Their implementations are not part of this model.
- `AuthContext.UserValue`: a stored JSON object is taken as a user record; an object missing `firstName`, `lastName` or `email` is not modelled. Non-objects are kept only by their truthiness.
- `Intl`, `toLocaleString`, `toFixed` and date formatting are left out. `OrderDetail.FormatDate` records only which date is shown.
- Floating point is left out. Prices and the 8% tax are exact `real` numbers, so `SampleCartTotals` is the exact sum, not the IEEE result.
- `toLowerCase`/`toUpperCase` map ASCII letters only; other characters are kept.
- `Date.now()`, `new Date()` and `Math.random()` are parameters.
- The object URLs from `URL.createObjectURL`/`revokeObjectURL` are plain strings supplied by the caller.
- The static product catalog inside ProductList is not reproduced. The functions take the product list as input.
- OrderList's icon components are modelled only as the `Icon` datatype.
- Organization and order fields that no modelled function reads are not in the records.
- `Api.Spread`: a patch cannot set an optional field back to `undefined`. The model only overrides with present values.
- AddProduct: a NaN `salePrice` is not modelled. The schema would report it, but the input's onChange stores `undefined` for an empty field and otherwise `Number` of a number input's value, which the browser keeps a valid numeral, so NaN never reaches the schema.
- `Support.SupportPage.SendAnother`: the form field values after "Send Another Message" are not modelled, since the form keeps whatever it held.
- ProductDetail's `Quantity` is the integer `parseInt` gives or NaN. A negative or zero typed value is kept as typed, as the source does.
- The router table (`App.tsx`) is not part of this model. Neither are the dashboards, `Navigation`, `ForgotPassword`, `supabase.ts` or the page wrappers.
- Checkout's enum messages follow zod 3's wording for an invalid enum value. A different zod version may word them differently.

## Findings

| source | as written | input that shows it | evidently intended | confidence | as-written member | corrected member |
|---|---|---|---|---|---|---|
| src/pages/OrderDetail.tsx:245 | `{order.taxAmount && <row/>}`: React renders the number `0` that `&&` returns, so a stray "0" appears in the summary | an order with `taxAmount: 0` (likewise `shippingAmount: 0` at line 251) | no row and no text for a zero or missing amount | not executed | OrderDetail.ZeroTaxPrintsZero | OrderDetail.SummaryOf |
| src/components/OrganizationCard.tsx:58 | `{organization.creditLimit && <row/>}` prints a stray "0" on the card | an organization with `creditLimit: 0` | no credit-limit row for a zero or missing limit | not executed | OrganizationCard.ZeroCreditLimitPrintsZero | OrganizationCard.CardOf |
