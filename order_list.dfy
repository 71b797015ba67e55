/** The order table (src/components/OrderList.tsx): search and status
    filter, the sort selector, and the status and payment badges. Fetching
    the orders into component state is not part of this module. */
module OrderList {
  import opened Wrappers
  import opened Text
  import opened Lists
  import opened Models
  import opened Ui

  // ---------------------------------------------------------------- filtering

  /** Case-insensitive search on the order number, and the status filter,
      where `all` lets every status through. */
  predicate Matches(o: Order, searchTerm: string, statusFilter: string) {
    Includes(ToLower(o.orderNumber), ToLower(searchTerm)) &&
    (statusFilter == "all" || o.status.Name() == statusFilter)
  }

  /** `filteredOrders`: exactly the matching orders, in their order. */
  function FilteredOrders(orders: seq<Order>, searchTerm: string, statusFilter: string): (r: seq<Order>)
    ensures forall i :: 0 <= i < |r| ==> r[i] in orders && Matches(r[i], searchTerm, statusFilter)
    ensures forall i :: 0 <= i < |orders| && Matches(orders[i], searchTerm, statusFilter) ==> orders[i] in r
    ensures Subsequence(r, orders)
    ensures forall o :: multiset(r)[o] == if Matches(o, searchTerm, statusFilter) then multiset(orders)[o] else 0
  {
    var keep := (o: Order) => Matches(o, searchTerm, statusFilter);
    FilterCounts(orders, keep);
    Filter(orders, keep)
  }

  /** An empty search with the `all` filter keeps every order. */
  lemma ShowAll(orders: seq<Order>)
    ensures FilteredOrders(orders, "", "all") == orders
  {
    forall i | 0 <= i < |orders| ensures Matches(orders[i], "", "all") {
      EmptyIncluded(ToLower(orders[i].orderNumber));
    }
    FilterAll(orders, (o: Order) => Matches(o, "", "all"));
  }

  /** A status filter that names no status (`all` aside) keeps nothing. */
  lemma UnknownStatusKeepsNothing(orders: seq<Order>, searchTerm: string, statusFilter: string)
    requires statusFilter != "all"
    requires forall st: OrderStatus :: st.Name() != statusFilter
    ensures FilteredOrders(orders, searchTerm, statusFilter) == []
  {
    FilterNone(orders, (o: Order) => Matches(o, searchTerm, statusFilter));
  }

  // ---------------------------------------------------------------- sorting

  /** The comparator of each sort option as a key for an ascending stable
      sort: `b - a` on a field is ascending order of its negation; an
      unknown option compares everything equal. */
  function SortKey(sortOrder: string): Order -> real
  {
    if sortOrder == "newest" then (o: Order) => -(o.orderDate as real)
    else if sortOrder == "oldest" then (o: Order) => o.orderDate as real
    else if sortOrder == "highest" then (o: Order) => -o.total
    else if sortOrder == "lowest" then (o: Order) => o.total
    else (o: Order) => 0.0
  }

  /** `sortedOrders`: a stable sort of a copy of the filtered list. */
  function SortedOrders(filtered: seq<Order>, sortOrder: string): seq<Order>
  {
    SortBy(filtered, SortKey(sortOrder))
  }

  /** Sorting only reorders, and each option orders by its field. */
  lemma SortedOrdersCorrect(filtered: seq<Order>, sortOrder: string)
    ensures multiset(SortedOrders(filtered, sortOrder)) == multiset(filtered)
    ensures sortOrder == "newest" ==> forall i, j :: 0 <= i < j < |SortedOrders(filtered, sortOrder)| ==>
              SortedOrders(filtered, sortOrder)[i].orderDate >= SortedOrders(filtered, sortOrder)[j].orderDate
    ensures sortOrder == "oldest" ==> forall i, j :: 0 <= i < j < |SortedOrders(filtered, sortOrder)| ==>
              SortedOrders(filtered, sortOrder)[i].orderDate <= SortedOrders(filtered, sortOrder)[j].orderDate
    ensures sortOrder == "highest" ==> forall i, j :: 0 <= i < j < |SortedOrders(filtered, sortOrder)| ==>
              SortedOrders(filtered, sortOrder)[i].total >= SortedOrders(filtered, sortOrder)[j].total
    ensures sortOrder == "lowest" ==> forall i, j :: 0 <= i < j < |SortedOrders(filtered, sortOrder)| ==>
              SortedOrders(filtered, sortOrder)[i].total <= SortedOrders(filtered, sortOrder)[j].total
  {
    var key := SortKey(sortOrder);
    SortByCorrect(filtered, key);
    var s := SortedOrders(filtered, sortOrder);
    assert forall i, j :: 0 <= i < j < |s| ==> key(s[i]) <= key(s[j]);
  }

  /** Any other option leaves the filtered order as it is. */
  lemma UnknownSortKeepsOrder(filtered: seq<Order>, sortOrder: string)
    requires sortOrder !in {"newest", "oldest", "highest", "lowest"}
    ensures SortedOrders(filtered, sortOrder) == filtered
  {
    SortByConstant(filtered, SortKey(sortOrder));
  }

  // ---------------------------------------------------------------- badges

  function GetStatusVariant(status: string): (v: BadgeVariant)
    ensures v == Default <==> status == "processing"
    ensures v == Secondary <==> status in {"shipped", "delivered", "approved"}
    ensures v == Destructive <==> status == "canceled"
    ensures v == Outline <==> status !in {"processing", "shipped", "delivered", "approved", "canceled"}
  {
    match status
    case "processing" => Default
    case "shipped" => Secondary
    case "delivered" => Secondary
    case "approved" => Secondary
    case "canceled" => Destructive
    case "pending_approval" => Outline
    case _ => Outline
  }

  datatype Icon = Clock | Truck | PackageCheck | AlertCircle | CheckCircle | XCircle | FileText

  function GetStatusIcon(status: string): Icon
  {
    match status
    case "processing" => Clock
    case "shipped" => Truck
    case "delivered" => PackageCheck
    case "pending_approval" => AlertCircle
    case "approved" => CheckCircle
    case "canceled" => XCircle
    case _ => FileText
  }

  /** The two lookups agree: a status without its own icon gets the outline
      badge, and only `pending_approval` has an icon but no badge colour. */
  lemma IconAndVariantAgree(status: string)
    ensures GetStatusIcon(status) == FileText ==> GetStatusVariant(status) == Outline
    ensures GetStatusVariant(status) == Outline && GetStatusIcon(status) != FileText ==>
              status == "pending_approval"
  {
  }

  // ---------------------------------------------------------------- formatStatus

  /** `status.split('_').map(capitalize).join(' ')`. */
  function FormatStatus(status: string): string
  {
    var words := Split(status, '_');
    Join(seq(|words|, i requires 0 <= i < |words| => Capitalize(words[i])), " ")
  }

  /** A one-pass reading of the same rewriting: every `_` becomes a space and
      the letter at the start of the string or after a `_` is upper-cased. */
  function Spaced(s: string, atWordStart: bool): (r: string)
    ensures |r| == |s|
    ensures forall i :: 0 <= i < |r| ==> r[i] != '_'
  {
    if s == "" then ""
    else if s[0] == '_' then " " + Spaced(s[1..], true)
    else [if atWordStart then UpperChar(s[0]) else s[0]] + Spaced(s[1..], false)
  }

  function CapitalizeAll(words: seq<string>): (r: seq<string>)
    ensures |r| == |words|
    ensures forall i :: 0 <= i < |words| ==> r[i] == Capitalize(words[i])
  {
    seq(|words|, i requires 0 <= i < |words| => Capitalize(words[i]))
  }

  /** The claim of `JoinCapitalized` for one string and first-word flag. */
  predicate JoinsToSpaced(s: string, atWordStart: bool)
  {
    var words := Split(s, '_');
    Join([if atWordStart then Capitalize(words[0]) else words[0]] + CapitalizeAll(words[1..]), " ")
      == Spaced(s, atWordStart)
  }

  /** The step past a leading `_`: it ends an empty word and starts one. */
  lemma UnderscoreStep(s: string, atWordStart: bool)
    requires s != "" && s[0] == '_'
    requires JoinsToSpaced(s[1..], true)
    ensures JoinsToSpaced(s, atWordStart)
  {
    var words := Split(s, '_');
    var rest := Split(s[1..], '_');
    assert words == [""] + rest;
    var joined := [if atWordStart then Capitalize(words[0]) else words[0]] + CapitalizeAll(words[1..]);
    var tail := CapitalizeAll(rest);
    assert joined == [""] + tail && |joined| >= 2 && joined[1..] == tail;
    assert tail == [Capitalize(rest[0])] + CapitalizeAll(rest[1..]);
    assert Join(joined, " ") == "" + " " + Join(tail, " ");
    assert Spaced(s, atWordStart) == " " + Spaced(s[1..], true);
  }

  /** The step past a leading letter: it joins the first word. */
  lemma LetterStep(s: string, atWordStart: bool)
    requires s != "" && s[0] != '_'
    requires JoinsToSpaced(s[1..], false)
    ensures JoinsToSpaced(s, atWordStart)
  {
    var words := Split(s, '_');
    var rest := Split(s[1..], '_');
    var joined := [if atWordStart then Capitalize(words[0]) else words[0]] + CapitalizeAll(words[1..]);
    var w0 := [s[0]] + rest[0];
    assert words == [w0] + rest[1..];
    var c := if atWordStart then UpperChar(s[0]) else s[0];
    assert (if atWordStart then Capitalize(w0) else w0) == [c] + rest[0];
    assert joined == [[c] + rest[0]] + CapitalizeAll(rest[1..]);
    var tail := [rest[0]] + CapitalizeAll(rest[1..]);
    JoinHead(c, tail, " ");
    assert [[c] + tail[0]] + tail[1..] == joined;
  }

  /** The generalised statement behind `FormatStatusSpaced`: with the first
      word capitalised or not, split-map-join equals the one-pass rewriting. */
  lemma {:induction false} JoinCapitalized(s: string, atWordStart: bool)
    ensures var words := Split(s, '_');
            Join([if atWordStart then Capitalize(words[0]) else words[0]] + CapitalizeAll(words[1..]), " ")
              == Spaced(s, atWordStart)
    decreases |s|
  {
    if s == "" {
      var words := Split(s, '_');
      assert [if atWordStart then Capitalize(words[0]) else words[0]] + CapitalizeAll(words[1..]) == [""];
    } else if s[0] == '_' {
      JoinCapitalized(s[1..], true);
      UnderscoreStep(s, atWordStart);
    } else {
      JoinCapitalized(s[1..], false);
      LetterStep(s, atWordStart);
    }
  }

  /** `formatStatus` turns underscores into spaces and capitalises each
      word's first letter. */
  lemma FormatStatusSpaced(status: string)
    ensures FormatStatus(status) == Spaced(status, true)
  {
    var words := Split(status, '_');
    JoinCapitalized(status, true);
    assert CapitalizeAll(words) == [Capitalize(words[0])] + CapitalizeAll(words[1..]);
  }

  /** The displayed status is as long as the stored one and has no `_`. */
  lemma FormatStatusShape(status: string)
    ensures |FormatStatus(status)| == |status|
    ensures forall i :: 0 <= i < |status| ==> FormatStatus(status)[i] != '_'
    ensures forall i :: 0 <= i < |status| && status[i] == '_' ==> FormatStatus(status)[i] == ' '
  {
    FormatStatusSpaced(status);
    SpacedReplacesUnderscores(status, true);
  }

  lemma {:induction false} SpacedReplacesUnderscores(s: string, atWordStart: bool)
    ensures forall i :: 0 <= i < |s| && s[i] == '_' ==> Spaced(s, atWordStart)[i] == ' '
  {
    if s != "" {
      SpacedReplacesUnderscores(s[1..], s[0] == '_');
      forall i | 0 <= i < |s| && s[i] == '_' ensures Spaced(s, atWordStart)[i] == ' ' {
        if i > 0 {
          assert Spaced(s, atWordStart)[i] == Spaced(s[1..], s[0] == '_')[i - 1];
        }
      }
    }
  }

  /** A word without `_` is only capitalised (or kept, inside a word). */
  lemma {:induction false} SpacedWord(w: string, atWordStart: bool)
    requires forall i :: 0 <= i < |w| ==> w[i] != '_'
    ensures Spaced(w, atWordStart) == if atWordStart then Capitalize(w) else w
  {
    if w != "" {
      SpacedWord(w[1..], false);
    }
  }

  /** The rewriting of `w_rest` is the capitalised word, a space, and the
      rewriting of `rest`. */
  lemma {:induction false} SpacedUnderscore(w: string, rest: string, atWordStart: bool)
    requires forall i :: 0 <= i < |w| ==> w[i] != '_'
    ensures Spaced(w + "_" + rest, atWordStart) == Spaced(w, atWordStart) + " " + Spaced(rest, true)
  {
    if w == "" {
      assert w + "_" + rest == "_" + rest;
    } else {
      assert (w + "_" + rest)[1..] == w[1..] + "_" + rest;
      SpacedUnderscore(w[1..], rest, false);
    }
  }

  /** Two words joined by `_` display as the two capitalised words. */
  lemma FormatTwoWords(a: string, b: string)
    requires forall i :: 0 <= i < |a| ==> a[i] != '_'
    requires forall i :: 0 <= i < |b| ==> b[i] != '_'
    ensures FormatStatus(a + "_" + b) == Capitalize(a) + " " + Capitalize(b)
  {
    FormatStatusSpaced(a + "_" + b);
    SpacedUnderscore(a, b, true);
    SpacedWord(a, true);
    SpacedWord(b, true);
  }

  lemma FormatPendingApproval()
    ensures FormatStatus("pending" + "_" + "approval") == "Pending Approval"
  {
    FormatTwoWords("pending", "approval");
  }

  // ---------------------------------------------------------------- other cells

  /** The payment badge: secondary only when paid; the label capitalises the
      first letter and keeps underscores (unlike `FormatStatus`). */
  function PaymentBadge(p: PaymentStatus): (r: (BadgeVariant, string))
    ensures r.0 == Secondary <==> p == Paid
    ensures r.0 != Secondary ==> r.0 == Outline
    ensures |r.1| == |p.Name()| && r.1[0] == UpperChar(p.Name()[0]) && r.1[1..] == p.Name()[1..]
  {
    (if p == Paid then Secondary else Outline, Capitalize(p.Name()))
  }

  lemma PaymentLabelKeepsUnderscore()
    ensures PaymentBadge(PartiallyPaid).1 == "Partially_paid"
  {
  }

  /** The PO column: the number when set, else an em dash. */
  function PoDisplay(poNumber: Option<string>): (r: string)
    ensures Truthy(poNumber) ==> r == poNumber.value
    ensures !Truthy(poNumber) ==> r == "—"
  {
    if poNumber.Some? && poNumber.value != "" then poNumber.value else "—"
  }
}
