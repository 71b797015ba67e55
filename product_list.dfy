/** The catalog grid (src/components/ProductList.tsx): text search, the
    category tabs, the sort selector, and the variant each tile displays.
    Variants arrive as a record from product id to its variants, a `map`
    here. `String.prototype.localeCompare` is the parameter `collation`, a
    key whose order is the collation order. */
module ProductList {
  import opened Wrappers
  import opened Text
  import opened Lists
  import opened Models

  /** `text?.toLowerCase().includes(term)`: a missing field never matches. */
  predicate FieldMatches(field: Option<string>, term: string) {
    field.Some? && Includes(ToLower(field.value), ToLower(term))
  }

  /** The search box looks at the name, the description and the SKU. */
  predicate SearchMatches(p: Product, searchTerm: string) {
    Includes(ToLower(p.name), ToLower(searchTerm)) ||
    FieldMatches(p.description, searchTerm) ||
    FieldMatches(p.sku, searchTerm)
  }

  /** `selectedCategory === 'all' || product.categories?.includes(selectedCategory)`. */
  predicate CategoryMatches(p: Product, selectedCategory: string) {
    selectedCategory == "all" || (p.categories.Some? && selectedCategory in p.categories.value)
  }

  function FilteredProducts(products: seq<Product>, searchTerm: string, selectedCategory: string): (r: seq<Product>)
    ensures forall i :: 0 <= i < |r| ==>
              (r[i] in products && SearchMatches(r[i], searchTerm) && CategoryMatches(r[i], selectedCategory))
    ensures forall i :: (0 <= i < |products| && SearchMatches(products[i], searchTerm) &&
                         CategoryMatches(products[i], selectedCategory)) ==> products[i] in r
    ensures Subsequence(r, products)
    ensures forall p :: multiset(r)[p] ==
              if SearchMatches(p, searchTerm) && CategoryMatches(p, selectedCategory) then multiset(products)[p] else 0
  {
    var keep := (p: Product) => SearchMatches(p, searchTerm) && CategoryMatches(p, selectedCategory);
    FilterCounts(products, keep);
    Filter(products, keep)
  }

  /** The initial state (empty search, all categories) shows every product. */
  lemma InitialFilterKeepsAll(products: seq<Product>)
    ensures FilteredProducts(products, "", "all") == products
  {
    forall i | 0 <= i < |products| ensures SearchMatches(products[i], "") {
      EmptyIncluded(ToLower(products[i].name));
    }
    FilterAll(products, (p: Product) => SearchMatches(p, "") && CategoryMatches(p, "all"));
  }

  /** A product without categories is never in a category tab. */
  lemma UncategorisedOnlyInAll(p: Product, selectedCategory: string)
    requires p.categories.None? && selectedCategory != "all"
    ensures !CategoryMatches(p, selectedCategory)
  {
  }

  /** `variants[id]?.[0]?.price || 0`: the first variant's price, not the
      default variant's, and 0 without variants. */
  function FirstPrice(variants: map<string, seq<ProductVariant>>, id: string): (r: real)
    ensures id in variants && |variants[id]| > 0 ==> r == variants[id][0].price
    ensures !(id in variants && |variants[id]| > 0) ==> r == 0.0
  {
    if id in variants && |variants[id]| > 0 then variants[id][0].price else 0.0
  }

  /** Each option's comparator as a key of an ascending stable sort. */
  function SortKey(sortOrder: string, variants: map<string, seq<ProductVariant>>,
                   collation: string -> real): Product -> real
  {
    if sortOrder == "name_asc" then (p: Product) => collation(p.name)
    else if sortOrder == "name_desc" then Negate((p: Product) => collation(p.name))
    else if sortOrder == "price_asc" then (p: Product) => FirstPrice(variants, p.id)
    else if sortOrder == "price_desc" then (p: Product) => -FirstPrice(variants, p.id)
    else if sortOrder == "created_desc" then (p: Product) => -(p.createdAt as real)
    else if sortOrder == "created_asc" then (p: Product) => p.createdAt as real
    else (p: Product) => 0.0
  }

  function SortedProducts(filtered: seq<Product>, sortOrder: string, variants: map<string, seq<ProductVariant>>,
                          collation: string -> real): seq<Product>
  {
    SortBy(filtered, SortKey(sortOrder, variants, collation))
  }

  /** Sorting only reorders, and each option orders by its field. */
  lemma SortedProductsCorrect(filtered: seq<Product>, sortOrder: string,
                              variants: map<string, seq<ProductVariant>>, collation: string -> real)
    ensures var s := SortedProducts(filtered, sortOrder, variants, collation);
      multiset(s) == multiset(filtered) &&
      (sortOrder == "name_asc" ==> forall i, j :: 0 <= i < j < |s| ==> collation(s[i].name) <= collation(s[j].name)) &&
      (sortOrder == "name_desc" ==> forall i, j :: 0 <= i < j < |s| ==> collation(s[i].name) >= collation(s[j].name)) &&
      (sortOrder == "price_asc" ==> forall i, j :: 0 <= i < j < |s| ==>
         FirstPrice(variants, s[i].id) <= FirstPrice(variants, s[j].id)) &&
      (sortOrder == "price_desc" ==> forall i, j :: 0 <= i < j < |s| ==>
         FirstPrice(variants, s[i].id) >= FirstPrice(variants, s[j].id)) &&
      (sortOrder == "created_desc" ==> forall i, j :: 0 <= i < j < |s| ==> s[i].createdAt >= s[j].createdAt) &&
      (sortOrder == "created_asc" ==> forall i, j :: 0 <= i < j < |s| ==> s[i].createdAt <= s[j].createdAt)
  {
    var key := SortKey(sortOrder, variants, collation);
    SortByCorrect(filtered, key);
    var s := SortedProducts(filtered, sortOrder, variants, collation);
    assert forall i, j :: 0 <= i < j < |s| ==> key(s[i]) <= key(s[j]);
  }

  /** An option outside the menu leaves the filtered order as it is. */
  lemma UnknownSortKeepsOrder(filtered: seq<Product>, sortOrder: string,
                              variants: map<string, seq<ProductVariant>>, collation: string -> real)
    requires sortOrder !in {"name_asc", "name_desc", "price_asc", "price_desc", "created_desc", "created_asc"}
    ensures SortedProducts(filtered, sortOrder, variants, collation) == filtered
  {
    SortByConstant(filtered, SortKey(sortOrder, variants, collation));
  }

  /** Z-A is A-Z backwards when the collation tells every two different
      products apart. */
  lemma NameOrdersAreReverse(filtered: seq<Product>, variants: map<string, seq<ProductVariant>>,
                             collation: string -> real)
    requires forall p, q :: p in filtered && q in filtered && collation(p.name) == collation(q.name) ==> p == q
    ensures SortedProducts(filtered, "name_desc", variants, collation) ==
            Reverse(SortedProducts(filtered, "name_asc", variants, collation))
  {
    var key := (p: Product) => collation(p.name);
    assert KeyInjective(filtered, key);
    SortByNegatedIsReverse(filtered, key);
  }

  /** `variants.find(v => v.isDefault) || variants[0]`. */
  function DefaultVariant(vs: seq<ProductVariant>): (r: Option<ProductVariant>)
    ensures r.None? <==> vs == []
    ensures (exists i :: 0 <= i < |vs| && vs[i].isDefault) ==>
              r.Some? && r.value.isDefault &&
              exists i :: 0 <= i < |vs| && vs[i] == r.value && forall j :: 0 <= j < i ==> !vs[j].isDefault
    ensures (forall i :: 0 <= i < |vs| ==> !vs[i].isDefault) && vs != [] ==> r == Some(vs[0])
  {
    match Find(vs, (v: ProductVariant) => v.isDefault)
    case Some(v) => Some(v)
    case None => if vs == [] then None else Some(vs[0])
  }

  /** `variants[product.id] || []`, then the default. */
  function TileVariant(variants: map<string, seq<ProductVariant>>, id: string): (r: Option<ProductVariant>)
    ensures id in variants ==> r == DefaultVariant(variants[id])
    ensures id !in variants ==> r.None?
    ensures r.None? <==> id !in variants || variants[id] == []
    ensures r.Some? ==> r.value in variants[id]
  {
    DefaultVariant(if id in variants then variants[id] else [])
  }

  /** A default variant listed after a non-default one still wins over it:
      the list's order decides only among defaults, or when there is none. */
  lemma LaterDefaultWins(vs: seq<ProductVariant>)
    requires |vs| == 2 && !vs[0].isDefault && vs[1].isDefault
    ensures DefaultVariant(vs) == Some(vs[1])
  {
  }

  datatype GridView = Spinner | ErrorText(message: string) | NoMatches | Tiles(tiles: seq<(Product, Option<ProductVariant>)>)

  /** What the grid shows: the spinner, the error, the empty message, or a
      tile per sorted product with its default variant. */
  function Grid(loading: bool, error: Option<string>, sorted: seq<Product>,
                variants: map<string, seq<ProductVariant>>): (g: GridView)
    ensures loading ==> g == Spinner
    ensures !loading && Truthy(error) ==> g == ErrorText(error.value)
    ensures !loading && !Truthy(error) && sorted == [] ==> g == NoMatches
    ensures !loading && !Truthy(error) && sorted != [] ==> g.Tiles?
    ensures g.Tiles? ==>
              (|g.tiles| == |sorted| && |sorted| > 0 &&
               forall i :: 0 <= i < |sorted| ==> g.tiles[i] == (sorted[i], TileVariant(variants, sorted[i].id)))
  {
    if loading then Spinner
    else if Truthy(error) then ErrorText(error.value)
    else if sorted == [] then NoMatches
    else Tiles(seq(|sorted|, i requires 0 <= i < |sorted| => (sorted[i], TileVariant(variants, sorted[i].id))))
  }
}
