/** The catalog tile (src/components/ProductCard.tsx): the variant it
    displays, with a stand-in built from the product when none is given, the
    stock label, the image with its placeholder, and which details appear. */
module ProductCard {
  import opened Wrappers
  import opened Models

  const Placeholder := "/placeholder.svg"

  /** `variant || { …stand-in… }`: the stand-in has no price, no stock, the
      product's SKU (or nothing) and the placeholder image. The clock that
      stamps its dates is the parameter `now`. */
  function DisplayVariant(product: Product, variant: Option<ProductVariant>, now: int): (d: ProductVariant)
    ensures variant.Some? ==> d == variant.value
    ensures variant.None? ==>
              d.id == "" && d.productId == product.id && d.sku == product.sku.GetOr("") &&
              d.price == 0.0 && d.inventoryQuantity == 0 && !d.backorderable &&
              d.isDefault && d.isActive && d.optionValues == [] && d.imageUrls == Some([Placeholder])
  {
    if variant.Some? then variant.value
    else ProductVariant("", product.id, product.sku.GetOr(""), None, 0, true, true, [], 0.0, None, 0, false,
                        Some([Placeholder]), now, now)
  }

  datatype StockStatus = InStock | LowStock | Backorder | OutOfStock | Unknown
  {
    function Label(): string {
      match this
      case InStock => "In Stock"
      case LowStock => "Low Stock"
      case Backorder => "Backorder"
      case OutOfStock => "Out of Stock"
      case Unknown => "Unknown"
    }
  }

  /** `getStockStatus`, read off the given variant (not the stand-in). */
  function GetStockStatus(variant: Option<ProductVariant>): StockStatus
  {
    if variant.Some? then
      if variant.value.inventoryQuantity > 10 then InStock
      else if variant.value.inventoryQuantity > 0 then LowStock
      else if variant.value.backorderable then Backorder
      else OutOfStock
    else Unknown
  }

  /** The stock thresholds: more than ten in stock, one to ten low, none
      available a backorder when the variant allows it; no variant, unknown. */
  lemma StockStatusIff(variant: Option<ProductVariant>)
    ensures GetStockStatus(variant) == Unknown <==> variant.None?
    ensures GetStockStatus(variant) == InStock <==> variant.Some? && variant.value.inventoryQuantity > 10
    ensures GetStockStatus(variant) == LowStock <==> variant.Some? && 0 < variant.value.inventoryQuantity <= 10
    ensures GetStockStatus(variant) == Backorder <==>
              variant.Some? && variant.value.inventoryQuantity <= 0 && variant.value.backorderable
    ensures GetStockStatus(variant) == OutOfStock <==>
              variant.Some? && variant.value.inventoryQuantity <= 0 && !variant.value.backorderable
  {
  }

  /** Raising the stock never lowers the label's standing. */
  lemma StockStatusMonotone(v: ProductVariant, more: int)
    requires more >= v.inventoryQuantity
    ensures GetStockStatus(Some(v)) == InStock ==> GetStockStatus(Some(v.(inventoryQuantity := more))) == InStock
    ensures GetStockStatus(Some(v)) == LowStock ==> GetStockStatus(Some(v.(inventoryQuantity := more))) in {LowStock, InStock}
  {
  }

  /** `urls?.[0] || fallback`. */
  function FirstUrlOr(urls: Option<seq<string>>, fallback: string): (r: string)
    ensures urls.Some? && |urls.value| > 0 && urls.value[0] != "" ==> r == urls.value[0]
    ensures !(urls.Some? && |urls.value| > 0 && urls.value[0] != "") ==> r == fallback
  {
    if urls.Some? && |urls.value| > 0 && urls.value[0] != "" then urls.value[0] else fallback
  }

  /** The tile's image: without a variant it is always the placeholder. */
  function ImageSource(product: Product, variant: Option<ProductVariant>, now: int): (src: string)
    ensures variant.None? ==> src == Placeholder
    ensures variant.Some? ==> src == FirstUrlOr(variant.value.imageUrls, Placeholder)
    ensures src != ""
  {
    FirstUrlOr(DisplayVariant(product, variant, now).imageUrls, Placeholder)
  }

  /** Price, stock label and SKU, shown only when a variant is given. */
  datatype Details = Details(price: real, stock: StockStatus, sku: string)

  function DetailsShown(product: Product, variant: Option<ProductVariant>, now: int): (r: Option<Details>)
    ensures r.None? <==> variant.None?
    ensures r.Some? ==> r.value.price == variant.value.price && r.value.sku == variant.value.sku
    ensures r.Some? ==> r.value.stock == GetStockStatus(variant) && r.value.stock != Unknown
  {
    if variant.Some? then
      var d := DisplayVariant(product, variant, now);
      Some(Details(d.price, GetStockStatus(variant), d.sku))
    else None
  }

  /** The short description line appears only when it is set. */
  function ShortDescriptionShown(product: Product): (r: Option<string>)
    ensures r.Some? <==> Truthy(product.shortDescription)
    ensures r.Some? ==> r == product.shortDescription
  {
    if Truthy(product.shortDescription) then product.shortDescription else None
  }

  /** The tile links to the product's catalog page. */
  function Link(product: Product): (r: string)
    ensures |r| == 9 + |product.slug| && r[..9] == "/catalog/" && r[9..] == product.slug
  {
    "/catalog/" + product.slug
  }
}
