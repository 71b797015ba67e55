/** The checkout page (src/pages/Checkout.tsx): its form schema with the
    purchase-order rule, the cart totals (subtotal, 8% tax, the shipping
    rate of the chosen method), the fields shown for each payment method,
    and the submit handler. Amounts are exact `real`s. */
module Checkout {
  import opened Wrappers
  import opened Models
  import opened Ui

  datatype ShippingMethod = Standard | Express | Overnight {
    function Name(): string {
      match this
      case Standard => "standard"
      case Express => "express"
      case Overnight => "overnight"
    }
  }

  datatype PaymentMethod = CreditCard | PurchaseOrder {
    function Name(): string {
      match this
      case CreditCard => "credit_card"
      case PurchaseOrder => "purchase_order"
    }
  }

  /** `z.enum(['standard', 'express', 'overnight'])` on the form's string. */
  function ParseShippingMethod(s: string): (r: Option<ShippingMethod>)
    ensures r.Some? <==> s in {"standard", "express", "overnight"}
    ensures r.Some? ==> r.value.Name() == s
  {
    if s == "standard" then Some(Standard)
    else if s == "express" then Some(Express)
    else if s == "overnight" then Some(Overnight)
    else None
  }

  /** `z.enum(['credit_card', 'purchase_order'])`. */
  function ParsePaymentMethod(s: string): (r: Option<PaymentMethod>)
    ensures r.Some? <==> s in {"credit_card", "purchase_order"}
    ensures r.Some? ==> r.value.Name() == s
  {
    if s == "credit_card" then Some(CreditCard)
    else if s == "purchase_order" then Some(PurchaseOrder)
    else None
  }

  /** The enums read back every method they name. */
  lemma ParseNames(m: ShippingMethod, p: PaymentMethod)
    ensures ParseShippingMethod(m.Name()) == Some(m)
    ensures ParsePaymentMethod(p.Name()) == Some(p)
  {
  }

  datatype Address = Address(name: string, street: string, city: string, state: string, zipCode: string,
                             country: string)

  /** The card fields: all optional and never checked. */
  datatype CardFields = CardFields(number: Option<string>, expiry: Option<string>, cvc: Option<string>,
                                   name: Option<string>)

  datatype Values = Values(shippingMethod: string, paymentMethod: string, poNumber: Option<string>,
                           shippingAddress: Address, creditCard: Option<CardFields>, notes: Option<string>)

  const DefaultValues := Values("standard", "credit_card", None,
                                Address("", "", "", "", "", "United States"), None, Some(""))

  const PoMessage := "PO Number is required for Purchase Order payment method"

  /** zod's message for a value outside an enum. */
  function EnumMessage(expected: string, received: string): string
  {
    "Invalid enum value. Expected " + expected + ", received '" + received + "'"
  }

  function MethodIssues(v: Values): seq<Issue>
  {
    Check(ParseShippingMethod(v.shippingMethod).Some?, "shippingMethod",
          EnumMessage("'standard' | 'express' | 'overnight'", v.shippingMethod)) +
    Check(ParsePaymentMethod(v.paymentMethod).Some?, "paymentMethod",
          EnumMessage("'credit_card' | 'purchase_order'", v.paymentMethod))
  }

  function AddressIssues(a: Address): seq<Issue>
  {
    Check(|a.name| >= 1, "shippingAddress.name", "Name is required") +
    Check(|a.street| >= 1, "shippingAddress.street", "Street address is required") +
    Check(|a.city| >= 1, "shippingAddress.city", "City is required") +
    Check(|a.state| >= 1, "shippingAddress.state", "State is required") +
    Check(|a.zipCode| >= 1, "shippingAddress.zipCode", "ZIP code is required") +
    Check(|a.country| >= 1, "shippingAddress.country", "Country is required")
  }

  /** The issues of the fields, in declaration order. */
  function FieldIssues(v: Values): seq<Issue>
  {
    MethodIssues(v) + AddressIssues(v.shippingAddress)
  }

  /** The object's `.refine`: a purchase order needs a PO number. */
  predicate PoRuleHolds(v: Values) {
    v.paymentMethod == "purchase_order" ==> Truthy(v.poNumber)
  }

  /** zod skips the refinement once an enum has failed (the object is then
      aborted, not merely dirty); otherwise its issue follows the fields'. */
  function Issues(v: Values): seq<Issue>
  {
    var enumsValid := ParseShippingMethod(v.shippingMethod).Some? && ParsePaymentMethod(v.paymentMethod).Some?;
    FieldIssues(v) + (if enumsValid then Check(PoRuleHolds(v), "poNumber", PoMessage) else [])
  }

  predicate AddressComplete(a: Address) {
    a.name != "" && a.street != "" && a.city != "" && a.state != "" && a.zipCode != "" && a.country != ""
  }

  lemma MethodIssuesEmptyIff(v: Values)
    ensures MethodIssues(v) == [] <==>
              ParseShippingMethod(v.shippingMethod).Some? && ParsePaymentMethod(v.paymentMethod).Some?
  {
  }

  lemma {:induction false} AddressIssuesEmptyIff(a: Address)
    ensures AddressIssues(a) == [] <==> AddressComplete(a)
  {
    var c1 := Check(|a.name| >= 1, "shippingAddress.name", "Name is required");
    var c2 := Check(|a.street| >= 1, "shippingAddress.street", "Street address is required");
    var c3 := Check(|a.city| >= 1, "shippingAddress.city", "City is required");
    var c4 := Check(|a.state| >= 1, "shippingAddress.state", "State is required");
    var c5 := Check(|a.zipCode| >= 1, "shippingAddress.zipCode", "ZIP code is required");
    var c6 := Check(|a.country| >= 1, "shippingAddress.country", "Country is required");
    assert |AddressIssues(a)| == |c1| + |c2| + |c3| + |c4| + |c5| + |c6|;
  }

  lemma FieldIssuesEmptyIff(v: Values)
    ensures FieldIssues(v) == [] <==>
              ParseShippingMethod(v.shippingMethod).Some? && ParsePaymentMethod(v.paymentMethod).Some? &&
              AddressComplete(v.shippingAddress)
  {
    MethodIssuesEmptyIff(v);
    AddressIssuesEmptyIff(v.shippingAddress);
  }

  /** The form submits exactly when both methods are known, every address
      field is filled, and a purchase order carries a PO number; the card
      fields and notes never matter. */
  lemma IssuesEmptyIff(v: Values)
    ensures Issues(v) == [] <==>
              ParseShippingMethod(v.shippingMethod).Some? && ParsePaymentMethod(v.paymentMethod).Some? &&
              AddressComplete(v.shippingAddress) && PoRuleHolds(v)
  {
    FieldIssuesEmptyIff(v);
  }

  lemma AddressIssuesNotAtPo(a: Address)
    ensures FirstError(AddressIssues(a), "poNumber").None?
  {
    var path := "poNumber";
    var c1 := Check(|a.name| >= 1, "shippingAddress.name", "Name is required");
    var c2 := Check(|a.street| >= 1, "shippingAddress.street", "Street address is required");
    var c3 := Check(|a.city| >= 1, "shippingAddress.city", "City is required");
    var c4 := Check(|a.state| >= 1, "shippingAddress.state", "State is required");
    var c5 := Check(|a.zipCode| >= 1, "shippingAddress.zipCode", "ZIP code is required");
    var c6 := Check(|a.country| >= 1, "shippingAddress.country", "Country is required");
    CheckElsewhere(|a.name| >= 1, "shippingAddress.name", "Name is required", path);
    CheckElsewhere(|a.street| >= 1, "shippingAddress.street", "Street address is required", path);
    CheckElsewhere(|a.city| >= 1, "shippingAddress.city", "City is required", path);
    CheckElsewhere(|a.state| >= 1, "shippingAddress.state", "State is required", path);
    CheckElsewhere(|a.zipCode| >= 1, "shippingAddress.zipCode", "ZIP code is required", path);
    CheckElsewhere(|a.country| >= 1, "shippingAddress.country", "Country is required", path);
    FirstErrorAppend(c1, c2, path);
    FirstErrorAppend(c1 + c2, c3, path);
    FirstErrorAppend(c1 + c2 + c3, c4, path);
    FirstErrorAppend(c1 + c2 + c3 + c4, c5, path);
    FirstErrorAppend(c1 + c2 + c3 + c4 + c5, c6, path);
  }

  lemma MethodIssuesNotAtPo(v: Values)
    ensures FirstError(MethodIssues(v), "poNumber").None?
  {
    FirstErrorAppend(Check(ParseShippingMethod(v.shippingMethod).Some?, "shippingMethod",
                           EnumMessage("'standard' | 'express' | 'overnight'", v.shippingMethod)),
                     Check(ParsePaymentMethod(v.paymentMethod).Some?, "paymentMethod",
                           EnumMessage("'credit_card' | 'purchase_order'", v.paymentMethod)), "poNumber");
  }

  /** No field issue sits at the PO number's path. */
  lemma FieldIssuesNotAtPo(v: Values)
    ensures FirstError(FieldIssues(v), "poNumber").None?
  {
    AddressIssuesNotAtPo(v.shippingAddress);
    MethodIssuesNotAtPo(v);
    FirstErrorAppend(MethodIssues(v), AddressIssues(v.shippingAddress), "poNumber");
  }

  /** Paying by card never needs a PO number; paying by purchase order shows
      the refinement's message under the PO field when it is missing. */
  lemma PoNumberRule(v: Values)
    requires ParseShippingMethod(v.shippingMethod).Some?
    ensures v.paymentMethod == "credit_card" ==> PoRuleHolds(v)
    ensures v.paymentMethod == "purchase_order" && !Truthy(v.poNumber) ==>
              FirstError(Issues(v), "poNumber") == Some(PoMessage)
  {
    if v.paymentMethod == "purchase_order" && !Truthy(v.poNumber) {
      assert Issues(v) == FieldIssues(v) + [Issue("poNumber", PoMessage)];
      FieldIssuesNotAtPo(v);
      FirstErrorAppend(FieldIssues(v), [Issue("poNumber", PoMessage)], "poNumber");
    }
  }

  /** The form as it first appears cannot be submitted: the address is empty. */
  lemma DefaultFormInvalid()
    ensures Issues(DefaultValues) != []
    ensures FirstError(Issues(DefaultValues), "shippingAddress.name") == Some("Name is required")
  {
    IssuesEmptyIff(DefaultValues);
  }

  // ---------------------------------------------------------------- totals

  datatype CartItem = CartItem(id: string, name: string, variant: string, sku: string, quantity: int,
                               unitPrice: real, totalPrice: real)

  const SampleCart := [
    CartItem("item_1", "Enterprise Laptop X1", "Black", "LAP-X1-001-BLK", 1, 1299.99, 1299.99),
    CartItem("item_2", "Office Desk Pro", "Oak", "DSK-PRO-001", 2, 299.99, 599.98)
  ]

  /** `items.reduce((sum, item) => sum + item.totalPrice, 0)`, folded from the left. */
  function Subtotal(items: seq<CartItem>): real
  {
    if items == [] then 0.0 else Subtotal(items[..|items| - 1]) + items[|items| - 1].totalPrice
  }

  /** The subtotal of two carts together is the sum of their subtotals. */
  lemma {:induction false} SubtotalAppend(a: seq<CartItem>, b: seq<CartItem>)
    ensures Subtotal(a + b) == Subtotal(a) + Subtotal(b)
  {
    if b != [] {
      var ab := a + b;
      assert ab[..|ab| - 1] == a + b[..|b| - 1];
      SubtotalAppend(a, b[..|b| - 1]);
    } else {
      assert a + b == a;
    }
  }

  /** No line costs less than nothing, so neither does the cart. */
  lemma {:induction false} SubtotalNonNegative(items: seq<CartItem>)
    requires forall i :: 0 <= i < |items| ==> items[i].totalPrice >= 0.0
    ensures Subtotal(items) >= 0.0
  {
    if items != [] {
      SubtotalNonNegative(items[..|items| - 1]);
    }
  }

  const TaxRate: real := 0.08

  /** `shippingRates[method]`. */
  function ShippingRate(m: ShippingMethod): (r: real)
    ensures r > 0.0
  {
    match m
    case Standard => 15.00
    case Express => 25.00
    case Overnight => 45.00
  }

  /** `subtotal + subtotal * taxRate + shippingCost`. */
  function Total(items: seq<CartItem>, m: ShippingMethod): (t: real)
    ensures t == Subtotal(items) * (1.0 + TaxRate) + ShippingRate(m)
  {
    var subtotal := Subtotal(items);
    subtotal + subtotal * TaxRate + ShippingRate(m)
  }

  /** A faster method always costs more, whatever the cart. */
  lemma TotalIncreasesWithSpeed(items: seq<CartItem>)
    ensures Total(items, Standard) < Total(items, Express) < Total(items, Overnight)
    ensures Total(items, Express) - Total(items, Standard) == 10.00
    ensures Total(items, Overnight) - Total(items, Express) == 20.00
  {
  }

  /** The sample cart: 1899.97 before tax, 2066.9676 with standard shipping. */
  lemma SampleCartTotals()
    ensures Subtotal(SampleCart) == 1899.97
    ensures Subtotal(SampleCart) * TaxRate == 151.9976
    ensures Total(SampleCart, Standard) == 2066.9676
  {
    assert SampleCart[..1] == [SampleCart[0]];
    assert Subtotal(SampleCart[..1]) == 1299.99;
  }

  /** The shipping cost of the watched method; an unknown string is
      `undefined` in the page, no cost here. */
  function ShippingCost(watched: string): (r: Option<real>)
    ensures r.Some? <==> ParseShippingMethod(watched).Some?
    ensures r.Some? ==> r.value == ShippingRate(ParseShippingMethod(watched).value)
  {
    match ParseShippingMethod(watched)
    case Some(m) => Some(ShippingRate(m))
    case None => None
  }

  /** Card fields show only for a card payment, the PO field only for a
      purchase order; never both. */
  predicate CardFieldsShown(watchedPayment: string) {
    watchedPayment == "credit_card"
  }

  predicate PoFieldShown(watchedPayment: string) {
    watchedPayment == "purchase_order"
  }

  lemma PaymentFieldsExclusive(watchedPayment: string)
    ensures !(CardFieldsShown(watchedPayment) && PoFieldShown(watchedPayment))
    ensures ParsePaymentMethod(watchedPayment).Some? ==>
              (CardFieldsShown(watchedPayment) <==> !PoFieldShown(watchedPayment))
  {
  }

  // ---------------------------------------------------------------- submit

  const PlacedToast := Toast("Order placed successfully!", "Your order has been submitted and is being processed.",
                             false)

  class CheckoutPage {
    var isSubmitting: bool
    var shownIssues: seq<Issue>
    var toasts: seq<Toast>
    var navigations: seq<Navigation>

    constructor ()
      ensures !isSubmitting && shownIssues == [] && toasts == [] && navigations == []
    {
      isSubmitting := false;
      shownIssues := [];
      toasts := [];
      navigations := [];
    }

    /** Invalid values only show their issues; valid ones are placed: a
        toast, a navigation to the orders page, and the button enabled again. */
    method Submit(v: Values)
      modifies this
      ensures Issues(v) != [] ==>
                shownIssues == Issues(v) && isSubmitting == old(isSubmitting) &&
                toasts == old(toasts) && navigations == old(navigations)
      ensures Issues(v) == [] ==>
                shownIssues == [] && !isSubmitting &&
                toasts == old(toasts) + [PlacedToast] &&
                navigations == old(navigations) + [Navigation("/orders", false)]
    {
      var issues := Issues(v);
      if issues != [] {
        shownIssues := issues;
        return;
      }
      shownIssues := [];
      isSubmitting := true;
      toasts := toasts + [PlacedToast];
      navigations := navigations + [Navigation("/orders", false)];
      isSubmitting := false;
    }
  }
}
