/** The order page (src/pages/OrderDetail.tsx): which view is shown for the
    fetch state, its own copies of the status badge and `formatStatus`, the
    date fallback, and which buttons, notes, amount rows and history rows
    each status brings. */
module OrderDetail {
  import opened Wrappers
  import opened Text
  import opened Models
  import opened Ui
  import Api
  import OrderList

  // ---------------------------------------------------------------- fetch state and view

  const LoadError := "Failed to load order details. Please try again later."

  /** The three state cells the page keeps. */
  datatype FetchState = FetchState(loading: bool, error: Option<string>, order: Option<Order>)

  const InitialFetch := FetchState(true, None, None)

  /** The state once the fetch effect has run: without a route id nothing is
      fetched (the spinner stays); otherwise the order or the load error. */
  function AfterFetch(db: Api.Db, orderId: Option<string>): (r: FetchState)
    ensures !Truthy(orderId) ==> r == InitialFetch
    ensures Truthy(orderId) && Api.GetOrder(db, orderId.value).Ok? ==>
              r == FetchState(false, None, Some(Api.GetOrder(db, orderId.value).value))
    ensures Truthy(orderId) && Api.GetOrder(db, orderId.value).Err? ==>
              r == FetchState(false, Some(LoadError), None)
  {
    if !Truthy(orderId) then InitialFetch
    else match Api.GetOrder(db, orderId.value)
      case Ok(o) => FetchState(false, None, Some(o))
      case Err(_) => FetchState(false, Some(LoadError), None)
  }

  datatype View = Spinner | ErrorView(message: string) | OrderView(order: Order)

  /** The early returns of the component. */
  function ViewOf(s: FetchState): (v: View)
    ensures s.loading ==> v == Spinner
    ensures !s.loading && Truthy(s.error) ==> v == ErrorView(s.error.value)
    ensures !s.loading && !Truthy(s.error) && s.order.None? ==> v == ErrorView("Order not found")
    ensures !s.loading && !Truthy(s.error) && s.order.Some? ==> v == OrderView(s.order.value)
  {
    if s.loading then Spinner
    else if Truthy(s.error) || s.order.None? then
      ErrorView(if Truthy(s.error) then s.error.value else "Order not found")
    else OrderView(s.order.value)
  }

  /** Opening an order: a known id shows that order, an unknown one the load
      error, and a missing route id leaves the spinner up for good. */
  lemma OpenOrder(db: Api.Db, orderId: Option<string>)
    ensures !Truthy(orderId) ==> ViewOf(AfterFetch(db, orderId)) == Spinner
    ensures Truthy(orderId) && (exists i :: 0 <= i < |db.orders| && db.orders[i].id == orderId.value) ==>
              ViewOf(AfterFetch(db, orderId)).OrderView? &&
              ViewOf(AfterFetch(db, orderId)).order.id == orderId.value
    ensures Truthy(orderId) && (forall i :: 0 <= i < |db.orders| ==> db.orders[i].id != orderId.value) ==>
              ViewOf(AfterFetch(db, orderId)) == ErrorView(LoadError)
  {
  }

  // ---------------------------------------------------------------- duplicated helpers

  datatype DateText = Dash | Formatted(ms: int)

  /** `formatDate`: an absent date shows an em dash; any `Date` object, even
      the epoch, is truthy and is formatted (locale formatting is left out). */
  function FormatDate(date: Option<int>): (r: DateText)
    ensures r == Dash <==> date.None?
    ensures date.Some? ==> r == Formatted(date.value)
  {
    if date.None? then Dash else Formatted(date.value)
  }

  function GetStatusVariant(status: string): BadgeVariant
  {
    match status
    case "processing" => Default
    case "shipped" => Secondary
    case "delivered" => Secondary
    case "approved" => Secondary
    case "canceled" => Destructive
    case "pending_approval" => Outline
    case _ => Outline
  }

  function FormatStatus(status: string): string
  {
    var words := Split(status, '_');
    Join(seq(|words|, i requires 0 <= i < |words| => Capitalize(words[i])), " ")
  }

  /** The page's copies agree with the order table's on every string. */
  lemma AgreesWithOrderList(status: string)
    ensures GetStatusVariant(status) == OrderList.GetStatusVariant(status)
    ensures FormatStatus(status) == OrderList.FormatStatus(status)
  {
  }

  // ---------------------------------------------------------------- status-driven parts

  predicate ApproveButtonShown(o: Order) {
    o.status.Name() == "pending_approval"
  }

  predicate TrackingShown(o: Order) {
    o.status.Name() == "shipped" || o.status.Name() == "delivered"
  }

  /** The "being processed" note sits in the branch without tracking. */
  predicate ProcessingNoteShown(o: Order) {
    !TrackingShown(o) && (o.status.Name() == "processing" || o.status.Name() == "approved")
  }

  /** Only an order waiting for approval can be approved, tracking and the
      processing note never appear together, and the note is shown exactly
      for processing and approved orders. */
  lemma StatusParts(o: Order)
    ensures ApproveButtonShown(o) <==> o.status == PendingApproval
    ensures TrackingShown(o) <==> o.status in {Shipped, Delivered}
    ensures ProcessingNoteShown(o) <==> o.status in {Processing, Approved}
    ensures !(TrackingShown(o) && ProcessingNoteShown(o))
    ensures ApproveButtonShown(o) ==> !TrackingShown(o) && !ProcessingNoteShown(o)
  {
  }

  const OneDay := 86400000
  const ThreeDays := 259200000

  datatype HistoryEvent = Placed | PaymentProcessed | OrderShipped | OrderDelivered
  datatype HistoryRow = HistoryRow(event: HistoryEvent, date: DateText)

  /** The History tab, top to bottom. */
  function History(o: Order): (rows: seq<HistoryRow>)
    ensures |rows| >= 1 && rows[0] == HistoryRow(Placed, FormatDate(Some(o.createdAt)))
    ensures forall i :: 0 <= i < |rows| && rows[i].event == PaymentProcessed ==> rows[i].date == Formatted(o.updatedAt)
    ensures forall i :: 0 <= i < |rows| && rows[i].event == OrderShipped ==> rows[i].date == Formatted(o.updatedAt + OneDay)
    ensures forall i :: 0 <= i < |rows| && rows[i].event == OrderDelivered ==> rows[i].date == Formatted(o.updatedAt + ThreeDays)
  {
    [HistoryRow(Placed, FormatDate(Some(o.createdAt)))] +
    (if o.status.Name() != "pending_approval" then [HistoryRow(PaymentProcessed, FormatDate(Some(o.updatedAt)))] else []) +
    (if o.status.Name() == "shipped" || o.status.Name() == "delivered"
     then [HistoryRow(OrderShipped, FormatDate(Some(o.updatedAt + OneDay)))] else []) +
    (if o.status.Name() == "delivered" then [HistoryRow(OrderDelivered, FormatDate(Some(o.updatedAt + ThreeDays)))] else [])
  }

  predicate HasEvent(rows: seq<HistoryRow>, e: HistoryEvent) {
    exists i :: 0 <= i < |rows| && rows[i].event == e
  }

  /** Which rows each status brings: payment unless still waiting for
      approval, shipping once shipped, delivery once delivered. */
  lemma HistoryEvents(o: Order)
    ensures HasEvent(History(o), Placed)
    ensures HasEvent(History(o), PaymentProcessed) <==> o.status != PendingApproval
    ensures HasEvent(History(o), OrderShipped) <==> o.status in {Shipped, Delivered}
    ensures HasEvent(History(o), OrderDelivered) <==> o.status == Delivered
    ensures HasEvent(History(o), OrderDelivered) ==> HasEvent(History(o), OrderShipped)
  {
    var rows := History(o);
    assert rows[0].event == Placed;
    if o.status == PendingApproval {
      assert rows == [rows[0]];
    } else {
      assert rows[1].event == PaymentProcessed;
      if o.status in {Shipped, Delivered} {
        assert rows[2].event == OrderShipped;
        if o.status == Delivered {
          assert rows[3].event == OrderDelivered;
        } else {
          assert |rows| == 3;
        }
      } else {
        assert |rows| == 2;
      }
    }
  }

  /** A delivered order lists placement, payment, shipping and delivery, the
      delivery dated two days after the shipping. */
  lemma DeliveredHistory(o: Order)
    requires o.status == Delivered
    ensures |History(o)| == 4
    ensures History(o)[2].event == OrderShipped && History(o)[3].event == OrderDelivered
    ensures History(o)[3].date.ms == History(o)[2].date.ms + 2 * OneDay
  {
  }

  /** `paymentMethod === 'purchase_order' ? 'Purchase Order' : 'Credit Card'`:
      any other or missing method reads as a card. */
  function PaymentMethodText(paymentMethod: Option<string>): (r: string)
    ensures r == "Purchase Order" <==> paymentMethod == Some("purchase_order")
    ensures r != "Purchase Order" ==> r == "Credit Card"
  {
    if paymentMethod == Some("purchase_order") then "Purchase Order" else "Credit Card"
  }

  /** The PO number appears in the banner and the payment card only when set. */
  function PoShown(poNumber: Option<string>): (r: Option<string>)
    ensures r.Some? <==> Truthy(poNumber)
    ensures r.Some? ==> r == poNumber
  {
    if Truthy(poNumber) then poNumber else None
  }

  // ---------------------------------------------------------------- amount rows

  /** A tax-exempt order (tax 0) prints "0" in the summary where the tax
      row would be, and the corrected summary hides the row instead. */
  lemma ZeroTaxPrintsZero(o: Order)
    requires o.taxAmount == Some(0.0)
    ensures AmountRowAsWritten(o.taxAmount) == StrayZero
    ensures SummaryOf(o).tax.None?
  {
  }

  /** The summary of an order, with the corrected rows. */
  datatype Summary = Summary(subtotal: real, tax: Option<real>, shipping: Option<real>, total: real, currency: string)

  function SummaryOf(o: Order): (s: Summary)
    ensures s.tax == AmountRow(o.taxAmount) && s.shipping == AmountRow(o.shippingAmount)
    ensures s.subtotal == o.subtotal && s.total == o.total && s.currency == o.currencyCode
  {
    Summary(o.subtotal, AmountRow(o.taxAmount), AmountRow(o.shippingAmount), o.total, o.currencyCode)
  }

  /** The mock purchase order has tax but no shipping, so only the tax row
      appears. */
  lemma MockOrderSummary()
    ensures SummaryOf(Api.MockOrders[1]).tax == Some(24.00)
    ensures SummaryOf(Api.MockOrders[1]).shipping.None?
  {
  }
}
