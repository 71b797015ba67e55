/** The add-product page (src/pages/AddProduct.tsx): the product form's
    schema, the list of uploaded images (appended to on upload, one removed
    by `splice`), and the submit handler that resets both. The object URLs
    the browser creates for chosen files arrive as strings. */
module AddProduct {
  import opened Wrappers
  import opened Ui
  import Text

  /** A numeric field after `z.coerce.number()`: `Number(input)`, with
      `None` for `NaN`. */
  type Coerced = Option<real>

  datatype Values = Values(
    name: string, sku: string, shortDescription: string, fullDescription: string, category: string,
    price: Coerced, salePrice: Option<real>, inventoryQuantity: Coerced, backorderable: bool,
    weight: Coerced, length: Coerced, width: Coerced, height: Coerced, isActive: bool, hasVariants: bool)

  const DefaultValues := Values("", "", "", "", "", Some(0.0), None, Some(0.0), false,
                                Some(0.0), Some(0.0), Some(0.0), Some(0.0), true, false)

  /** `z.coerce.number().min(0, message)`: `NaN` fails the type check first. */
  function NumberIssues(x: Coerced, path: string, message: string): (r: seq<Issue>)
    ensures r == [] <==> x.Some? && x.value >= 0.0
    ensures forall i :: 0 <= i < |r| ==> r[i].path == path
  {
    match x
    case None => [Issue(path, "Expected number, received nan")]
    case Some(n) => Check(n >= 0.0, path, message)
  }

  function TextIssues(v: Values): seq<Issue>
  {
    Check(|v.name| >= 1, "name", "Product name is required") +
    Check(|v.sku| >= 1, "sku", "SKU is required") +
    Check(|v.shortDescription| >= 1, "shortDescription", "Short description is required") +
    Check(Text.Utf16Length(v.fullDescription) >= 20, "fullDescription", "Full description must be at least 20 characters") +
    Check(|v.category| >= 1, "category", "Category is required")
  }

  function MeasureIssues(v: Values): seq<Issue>
  {
    NumberIssues(v.price, "price", "Price must be a positive number") +
    NumberIssues(v.inventoryQuantity, "inventoryQuantity", "Inventory must be a positive number") +
    NumberIssues(v.weight, "weight", "Weight must be a positive number") +
    NumberIssues(v.length, "length", "Length must be a positive number") +
    NumberIssues(v.width, "width", "Width must be a positive number") +
    NumberIssues(v.height, "height", "Height must be a positive number")
  }

  /** The schema's issues in field order; the sale price and the flags are
      never checked. */
  function Issues(v: Values): seq<Issue>
  {
    TextIssues(v) + MeasureIssues(v)
  }

  predicate NonNegative(x: Coerced) {
    x.Some? && x.value >= 0.0
  }

  lemma {:induction false} TextIssuesEmptyIff(v: Values)
    ensures TextIssues(v) == [] <==>
              v.name != "" && v.sku != "" && v.shortDescription != "" && Text.Utf16Length(v.fullDescription) >= 20 &&
              v.category != ""
  {
    var c1 := Check(|v.name| >= 1, "name", "Product name is required");
    var c2 := Check(|v.sku| >= 1, "sku", "SKU is required");
    var c3 := Check(|v.shortDescription| >= 1, "shortDescription", "Short description is required");
    var c4 := Check(Text.Utf16Length(v.fullDescription) >= 20, "fullDescription", "Full description must be at least 20 characters");
    var c5 := Check(|v.category| >= 1, "category", "Category is required");
    var head := c1 + c2 + c3;
    assert |head| == |c1| + |c2| + |c3|;
    assert TextIssues(v) == head + c4 + c5;
  }

  lemma {:induction false} MeasureIssuesEmptyIff(v: Values)
    ensures MeasureIssues(v) == [] <==>
              NonNegative(v.price) && NonNegative(v.inventoryQuantity) && NonNegative(v.weight) &&
              NonNegative(v.length) && NonNegative(v.width) && NonNegative(v.height)
  {
    var n1 := NumberIssues(v.price, "price", "Price must be a positive number");
    var n2 := NumberIssues(v.inventoryQuantity, "inventoryQuantity", "Inventory must be a positive number");
    var n3 := NumberIssues(v.weight, "weight", "Weight must be a positive number");
    var n4 := NumberIssues(v.length, "length", "Length must be a positive number");
    var n5 := NumberIssues(v.width, "width", "Width must be a positive number");
    var n6 := NumberIssues(v.height, "height", "Height must be a positive number");
    assert |MeasureIssues(v)| == |n1| + |n2| + |n3| + |n4| + |n5| + |n6|;
  }

  /** The form submits exactly when the four texts are filled, the full
      description is at least 20 long in JavaScript's length (UTF-16 code
      units), and every measure is a number of at least 0 (a price of 0
      passes despite the message's "positive"). */
  lemma IssuesEmptyIff(v: Values)
    ensures Issues(v) == [] <==>
              v.name != "" && v.sku != "" && v.shortDescription != "" && Text.Utf16Length(v.fullDescription) >= 20 &&
              v.category != "" &&
              NonNegative(v.price) && NonNegative(v.inventoryQuantity) && NonNegative(v.weight) &&
              NonNegative(v.length) && NonNegative(v.width) && NonNegative(v.height)
  {
    TextIssuesEmptyIff(v);
    MeasureIssuesEmptyIff(v);
  }

  /** Any sale price is accepted, even one above the price. */
  lemma SalePriceIgnored(v: Values, salePrice: Option<real>)
    ensures Issues(v.(salePrice := salePrice)) == Issues(v)
  {
  }

  /** The blank form fails on its texts only; its measures are all 0. */
  lemma DefaultForm()
    ensures MeasureIssues(DefaultValues) == []
    ensures Issues(DefaultValues) != []
  {
    MeasureIssuesEmptyIff(DefaultValues);
  }

  // ---------------------------------------------------------------- images

  /** Where `splice(index, 1)` starts: a negative index counts from the end,
      and both ends are clamped to the list. */
  function SpliceStart(n: nat, index: int): (start: nat)
    ensures start <= n
    ensures 0 <= index <= n ==> start == index
    ensures index > n ==> start == n
    ensures index < 0 ==> start == if n + index >= 0 then n + index else 0
  {
    if index >= 0 then (if index <= n then index else n)
    else if n + index >= 0 then n + index else 0
  }

  /** The list after `splice(index, 1)`. */
  function Spliced(s: seq<string>, index: int): (r: seq<string>)
  {
    var start := SpliceStart(|s|, index);
    if start < |s| then s[..start] + s[start + 1..] else s
  }

  /** Removing an image at a shown position drops that image and keeps the
      others in their order. */
  lemma SplicedAt(s: seq<string>, i: int)
    requires 0 <= i < |s|
    ensures |Spliced(s, i)| == |s| - 1
    ensures forall j :: 0 <= j < i ==> Spliced(s, i)[j] == s[j]
    ensures forall j :: i <= j < |s| - 1 ==> Spliced(s, i)[j] == s[j + 1]
    ensures multiset(Spliced(s, i)) + multiset{s[i]} == multiset(s)
  {
    assert s == s[..i] + [s[i]] + s[i + 1..];
  }

  /** An index past the end removes nothing; -1 removes the last image. */
  lemma SplicedOutside(s: seq<string>)
    ensures Spliced(s, |s|) == s
    ensures s != [] ==> Spliced(s, -1) == s[..|s| - 1]
  {
  }

  /** Removing the image just uploaded restores the list. */
  lemma RemoveUndoesUpload(s: seq<string>, url: string)
    ensures Spliced(s + [url], |s|) == s
  {
    assert (s + [url])[..|s|] == s;
  }

  const AddedToast := Toast("Product added successfully", "Your product has been added to the catalog.", false)

  class AddProductPage {
    var values: Values
    var uploadedImages: seq<string>
    var isLoading: bool
    var shownIssues: seq<Issue>
    var toasts: seq<Toast>

    constructor ()
      ensures values == DefaultValues && uploadedImages == [] && !isLoading && shownIssues == [] && toasts == []
    {
      values := DefaultValues;
      uploadedImages := [];
      isLoading := false;
      shownIssues := [];
      toasts := [];
    }

    /** `handleImageUpload`: the new files' URLs go after the existing ones;
        choosing no file changes nothing. */
    method HandleImageUpload(files: seq<string>)
      modifies this
      ensures uploadedImages == old(uploadedImages) + files
      ensures values == old(values) && isLoading == old(isLoading) && toasts == old(toasts)
      ensures shownIssues == old(shownIssues)
    {
      if |files| > 0 {
        uploadedImages := uploadedImages + files;
      }
    }

    /** `removeImage`: copy the list, `splice` the copy in place (shift the
        tail one place left and drop the last slot), and store it. */
    method RemoveImage(index: int)
      modifies this
      ensures uploadedImages == Spliced(old(uploadedImages), index)
      ensures values == old(values) && isLoading == old(isLoading) && toasts == old(toasts)
      ensures shownIssues == old(shownIssues)
    {
      var images := uploadedImages;
      var n := |images|;
      var start := SpliceStart(n, index);
      if start >= n {
        return;
      }
      var copy := new string[n];
      var k := 0;
      while k < n
        invariant 0 <= k <= n
        invariant forall j :: 0 <= j < k ==> copy[j] == images[j]
        modifies copy
      {
        copy[k] := images[k];
        k := k + 1;
      }
      k := start;
      while k < n - 1
        invariant start <= k <= n - 1
        invariant forall j :: 0 <= j < start ==> copy[j] == images[j]
        invariant forall j :: start <= j < k ==> copy[j] == images[j + 1]
        invariant forall j :: k <= j < n ==> copy[j] == images[j]
        modifies copy
      {
        copy[k] := copy[k + 1];
        k := k + 1;
      }
      var kept := images[..start] + images[start + 1..];
      assert |kept| == n - 1;
      assert forall j :: 0 <= j < n - 1 ==> copy[..n - 1][j] == kept[j];
      uploadedImages := copy[..n - 1];
    }

    /** Invalid values only show their issues; valid ones toast, reset the
        form to its defaults and clear the images. */
    method Submit(v: Values)
      modifies this
      ensures Issues(v) != [] ==>
                shownIssues == Issues(v) && values == old(values) && uploadedImages == old(uploadedImages) &&
                isLoading == old(isLoading) && toasts == old(toasts)
      ensures Issues(v) == [] ==>
                shownIssues == [] && values == DefaultValues && uploadedImages == [] && !isLoading &&
                toasts == old(toasts) + [AddedToast]
    {
      var issues := Issues(v);
      if issues != [] {
        shownIssues := issues;
        return;
      }
      shownIssues := [];
      isLoading := true;
      toasts := toasts + [AddedToast];
      values := DefaultValues;
      uploadedImages := [];
      isLoading := false;
    }
  }
}
