/** A titled horizontal strip of product cards: at most `maxItems` of the products, a "view all"
    button when some are cut off, and scroll buttons for more than two cards. */
module ProductCarousel {
  import opened Wrappers
  import opened Types

  /** `maxItems` when the caller gives none. */
  const DefaultMaxItems: int := 15

  function MaxItemsOrDefault(maxItems: Option<int>): (r: int)
    ensures maxItems.None? ==> r == DefaultMaxItems
    ensures maxItems.Some? ==> r == maxItems.value
  {
    maxItems.GetOr(DefaultMaxItems)
  }

  /** `s.slice(0, end)`: a negative `end` counts back from the end of the sequence, and an `end`
      past the end stops there. */
  function SliceTo<T>(s: seq<T>, end: int): (r: seq<T>)
    ensures end >= 0 ==> |r| == if end < |s| then end else |s|
    ensures end < 0 ==> |r| == if |s| + end > 0 then |s| + end else 0
    ensures r <= s
  {
    if end < 0 then (if |s| + end > 0 then s[..|s| + end] else [])
    else if end < |s| then s[..end] else s
  }

  /** `displayProducts`. */
  function DisplayProducts(products: seq<Product>, maxItems: int): (r: seq<Product>)
    ensures r <= products
  {
    SliceTo(products, maxItems)
  }

  /** For a nonnegative limit, the cards shown are the first min(|products|, maxItems) products,
      in order; all of them when they fit. */
  lemma DisplayIsPrefix(products: seq<Product>, maxItems: int)
    requires maxItems >= 0
    ensures DisplayProducts(products, maxItems) ==
            products[..if maxItems < |products| then maxItems else |products|]
    ensures |products| <= maxItems ==> DisplayProducts(products, maxItems) == products
  {
  }

  /** The "view all" button: shown when the caller gave `onViewAll` and there are more products
      than the limit. */
  predicate ShowViewAll(hasOnViewAll: bool, products: seq<Product>, maxItems: int) {
    hasOnViewAll && |products| > maxItems
  }

  /** For a nonnegative limit, "view all" is offered exactly when the strip leaves products out. */
  lemma ViewAllIffCut(hasOnViewAll: bool, products: seq<Product>, maxItems: int)
    requires maxItems >= 0
    ensures ShowViewAll(hasOnViewAll, products, maxItems) <==>
            hasOnViewAll && |DisplayProducts(products, maxItems)| < |products|
  {
  }

  /** The scroll buttons: shown for more than two displayed cards. */
  predicate ShowScrollButtons(products: seq<Product>, maxItems: int) {
    |DisplayProducts(products, maxItems)| > 2
  }

  /** With a limit above two, the scroll buttons follow the product count alone. */
  lemma ScrollButtonsIff(products: seq<Product>, maxItems: int)
    requires maxItems > 2
    ensures ShowScrollButtons(products, maxItems) <==> |products| > 2
  {
  }
}
