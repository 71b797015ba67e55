/** The product page (src/pages/ProductDetail.tsx): the product found by
    the route's slug, the variant selected for it, the stock badge, the
    image chain, the quantity stepper and the Add to Cart button. */
module ProductDetail {
  import opened Wrappers
  import opened Text
  import opened Lists
  import opened Models
  import opened Ui
  import Api
  import ProductCard
  import ProductList

  /** The first product whose slug is the route's. */
  function FindBySlug(db: Api.Db, slug: string): (r: Option<Product>)
    ensures r.Some? <==> exists i :: 0 <= i < |db.products| && db.products[i].slug == slug
    ensures r.Some? ==> r.value in db.products && r.value.slug == slug
    ensures r.Some? ==> exists i :: 0 <= i < |db.products| && db.products[i] == r.value &&
                          forall j :: 0 <= j < i ==> db.products[j].slug != slug
  {
    Find(Api.GetProducts(db).data, (p: Product) => p.slug == slug)
  }

  datatype PageState = PageState(loading: bool, product: Option<Product>, variants: seq<ProductVariant>,
                                 selected: Option<ProductVariant>)

  const InitialPage := PageState(true, None, [], None)

  /** The state once the fetch effect has run: without a slug nothing is
      fetched; otherwise the product, its variants and the default variant
      (left unset when there are none), or no product at all. */
  function AfterFetch(db: Api.Db, slug: Option<string>): (r: PageState)
    ensures !Truthy(slug) ==> r == InitialPage
    ensures Truthy(slug) ==> !r.loading && r.product == FindBySlug(db, slug.value)
    ensures r.product.Some? ==>
              r.variants == Api.GetProductVariants(db, r.product.value.id) &&
              r.selected == ProductList.DefaultVariant(r.variants)
    ensures r.product.None? ==> r.variants == [] && r.selected.None?
  {
    if !Truthy(slug) then InitialPage
    else match FindBySlug(db, slug.value)
      case Some(p) =>
        var vs := Api.GetProductVariants(db, p.id);
        PageState(false, Some(p), vs, ProductList.DefaultVariant(vs))
      case None => PageState(false, None, [], None)
  }

  datatype View = Spinner | NotFound | ProductView(product: Product)

  function ViewOf(s: PageState): (v: View)
    ensures s.loading ==> v == Spinner
    ensures !s.loading && s.product.None? ==> v == NotFound
    ensures !s.loading && s.product.Some? ==> v == ProductView(s.product.value)
  {
    if s.loading then Spinner
    else if s.product.None? then NotFound
    else ProductView(s.product.value)
  }

  /** An unknown slug ends in the Not Found view. */
  lemma UnknownSlugNotFound(db: Api.Db, slug: string)
    requires slug != ""
    requires forall i :: 0 <= i < |db.products| ==> db.products[i].slug != slug
    ensures ViewOf(AfterFetch(db, Some(slug))) == NotFound
  {
  }

  /** The laptop page of the mock catalog selects the black variant. */
  lemma LaptopPage()
    ensures AfterFetch(Api.MockDb, Some("enterprise-laptop-x1")).product == Some(Api.MockProducts[0])
    ensures AfterFetch(Api.MockDb, Some("enterprise-laptop-x1")).selected == Some(Api.MockVariants[0])
  {
    Api.MockVariantsOfProducts();
    assert Api.MockProducts[0].slug == "enterprise-laptop-x1";
  }

  /** The page's own nested conditional for the stock badge. */
  function StockBadge(v: ProductVariant): ProductCard.StockStatus
  {
    if v.inventoryQuantity > 10 then ProductCard.InStock
    else if v.inventoryQuantity > 0 then ProductCard.LowStock
    else if v.backorderable then ProductCard.Backorder
    else ProductCard.OutOfStock
  }

  /** It uses the tile's thresholds and labels. */
  lemma StockBadgeAgreesWithCard(v: ProductVariant)
    ensures StockBadge(v) == ProductCard.GetStockStatus(Some(v))
    ensures StockBadge(v).Label() == ProductCard.GetStockStatus(Some(v)).Label()
  {
  }

  /** `selectedVariant?.imageUrls?.[0] || product.images?.[0] || placeholder`. */
  function ImageSource(selected: Option<ProductVariant>, product: Product): (src: string)
    ensures src != ""
    ensures (selected.Some? && selected.value.imageUrls.Some? && |selected.value.imageUrls.value| > 0 &&
             selected.value.imageUrls.value[0] != "") ==> src == selected.value.imageUrls.value[0]
    ensures selected.None? ==> src == ProductCard.FirstUrlOr(product.images, ProductCard.Placeholder)
    ensures selected.Some? && !(selected.value.imageUrls.Some? && |selected.value.imageUrls.value| > 0 &&
                                selected.value.imageUrls.value[0] != "") ==>
              src == ProductCard.FirstUrlOr(product.images, ProductCard.Placeholder)
  {
    var variantUrls := if selected.Some? then selected.value.imageUrls else None;
    ProductCard.FirstUrlOr(variantUrls, ProductCard.FirstUrlOr(product.images, ProductCard.Placeholder))
  }

  /** `!selectedVariant || selectedVariant.inventoryQuantity <= 0`. */
  predicate AddToCartDisabled(selected: Option<ProductVariant>) {
    selected.None? || selected.value.inventoryQuantity <= 0
  }

  /** The button is enabled exactly under the two in-stock badges: a
      backorderable variant without stock still cannot be added. */
  lemma AddToCartEnabledIff(selected: Option<ProductVariant>)
    ensures !AddToCartDisabled(selected) <==>
              selected.Some? && StockBadge(selected.value) in {ProductCard.InStock, ProductCard.LowStock}
    ensures selected.Some? && StockBadge(selected.value) == ProductCard.Backorder ==> AddToCartDisabled(selected)
  {
  }

  // ---------------------------------------------------------------- quantity

  /** The quantity state holds a JavaScript number: an integer, or `NaN`
      after `parseInt` finds no digits. */
  datatype Quantity = Count(n: int) | NaN

  /** `Math.max(1, quantity - 1)`. */
  function Decrement(q: Quantity): (r: Quantity)
    ensures q.Count? ==> r.Count? && r.n >= 1 && (q.n > 1 ==> r.n == q.n - 1)
    ensures q.NaN? ==> r.NaN?
  {
    match q
    case Count(n) => Count(if n - 1 > 1 then n - 1 else 1)
    case NaN => NaN
  }

  /** `quantity + 1`. */
  function Increment(q: Quantity): (r: Quantity)
    ensures q.Count? ==> r == Count(q.n + 1)
    ensures q.NaN? ==> r.NaN?
  {
    match q
    case Count(n) => Count(n + 1)
    case NaN => NaN
  }

  /** `parseInt(e.target.value || '1', 10)`. */
  function FromInput(value: string): Quantity
  {
    match ParseInt(if value == "" then "1" else value)
    case Some(n) => Count(n)
    case None => NaN
  }

  /** The buttons alone never take a count below 1, and `-` undoes `+`. */
  lemma StepperKeepsAtLeastOne(q: Quantity)
    requires q.Count? && q.n >= 1
    ensures Decrement(q).n >= 1 && Increment(q).n >= 1
    ensures Decrement(Increment(q)) == q
  {
  }

  /** Clearing the field gives 1, and typing a number gives that number. */
  lemma InputReadsNumbers(n: nat)
    ensures FromInput("") == Count(1)
    ensures FromInput(NatToString(n)) == Count(n)
  {
    ParseIntNatToString(1);
    ParseIntNatToString(n);
    assert NatToString(1) == "1";
  }

  /** Typing something without digits leaves `NaN`, which the buttons keep. */
  lemma NoDigitsGiveNaN(value: string)
    requires value != ""
    requires forall i :: 0 <= i < |value| ==> !IsDigit(value[i])
    ensures FromInput(value).NaN?
    ensures Decrement(FromInput(value)).NaN? && Increment(FromInput(value)).NaN?
  {
    var t := TrimStart(value);
    var body := if t != "" && (t[0] == '-' || t[0] == '+') then t[1..] else t;
    assert body != "" ==> !IsDigit(body[0]);
  }

  /** `String(quantity)` inside the toast. */
  function QuantityText(q: Quantity): string
  {
    match q
    case Count(n) => IntToString(n)
    case NaN => "NaN"
  }

  class ProductDetailPage {
    var state: PageState
    var quantity: Quantity
    var toasts: seq<Toast>

    constructor (fetched: PageState)
      ensures state == fetched && quantity == Count(1) && toasts == []
    {
      state := fetched;
      quantity := Count(1);
      toasts := [];
    }

    method DecrementClicked()
      modifies this
      ensures quantity == Decrement(old(quantity))
      ensures state == old(state) && toasts == old(toasts)
    {
      quantity := Decrement(quantity);
    }

    method IncrementClicked()
      modifies this
      ensures quantity == Increment(old(quantity))
      ensures state == old(state) && toasts == old(toasts)
    {
      quantity := Increment(quantity);
    }

    method QuantityTyped(value: string)
      modifies this
      ensures quantity == FromInput(value)
      ensures state == old(state) && toasts == old(toasts)
    {
      quantity := FromInput(value);
    }

    /** `handleAddToCart`: a toast naming the product and the quantity, when
        both a product and a variant are there. */
    method AddToCartClicked()
      modifies this
      ensures state.product.Some? && state.selected.Some? ==>
                toasts == old(toasts) + [Toast("Added to cart",
                  state.product.value.name + " x" + QuantityText(quantity) + " added to your cart", false)]
      ensures !(state.product.Some? && state.selected.Some?) ==> toasts == old(toasts)
      ensures state == old(state) && quantity == old(quantity)
    {
      if state.product.Some? && state.selected.Some? {
        var description := state.product.value.name + " x" + QuantityText(quantity) + " added to your cart";
        toasts := toasts + [Toast("Added to cart", description, false)];
      }
    }

    /** `handleRequestQuote`: a fixed toast whenever a product is shown. */
    method RequestQuoteClicked()
      modifies this
      ensures state.product.Some? ==>
                toasts == old(toasts) + [Toast("Quote requested",
                  "We'll contact you shortly with a personalized quote", false)]
      ensures state.product.None? ==> toasts == old(toasts)
      ensures state == old(state) && quantity == old(quantity)
    {
      if state.product.Some? {
        toasts := toasts + [Toast("Quote requested", "We'll contact you shortly with a personalized quote", false)];
      }
    }
  }
}
