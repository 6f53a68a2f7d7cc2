/** A catalogue card: the stock badges, the discount badge and struck-through original price,
    and the add button, which hands the product to the callback the card was given. */
module ProductCard {
  import opened Wrappers
  import opened Types
  import opened CartContext

  /** "Only N left": stock strictly between 0 and 5. */
  predicate LowStockBadge(product: Product) {
    product.stock < 5 && product.stock > 0
  }

  /** "Unavailable": stock exactly 0. */
  predicate OutOfStockBadge(product: Product) {
    product.stock == 0
  }

  /** The two stock badges never show together; for a nonnegative stock, exactly one shows
      unless the stock is 5 or more. */
  lemma StockBadgeCases(product: Product)
    ensures !(LowStockBadge(product) && OutOfStockBadge(product))
    ensures product.stock >= 0 ==>
              (LowStockBadge(product) || OutOfStockBadge(product) <==> product.stock < 5)
  {
  }

  /** The add button is disabled for a product with no stock. */
  predicate AddDisabled(product: Product) {
    product.stock == 0
  }

  const UnavailableLabel: string := "ناموجود"
  const AddLabel: string := "افزودن به سبد"

  /** The add button's caption: "unavailable" on a disabled button, "add to cart" otherwise. */
  function AddButtonLabel(product: Product): (r: string)
    ensures r == UnavailableLabel <==> AddDisabled(product)
    ensures r == AddLabel <==> !AddDisabled(product)
  {
    if product.stock == 0 then UnavailableLabel else AddLabel
  }

  /** `handleAddToCart`: the product handed to `onAddToCart`, or nothing when the card was
      given no callback. */
  function ForwardedAdd(product: Product, hasCallback: bool): (r: Option<Product>)
    ensures r.Some? <==> hasCallback
    ensures r.Some? ==> r.value == product
  {
    if hasCallback then Some(product) else None
  }

  /** A click on an enabled card in a list that passes `addToCart` as the callback hands the
      card's own product to the cart, and adding it keeps every cart quantity within stock: the
      product has stock, so its new entry or its raised entry stays within it. */
  lemma EnabledCardClickKeepsInStock(items: seq<CartItem>, product: Product)
    requires InStock(items) && !AddDisabled(product) && product.stock >= 0
    requires forall i :: 0 <= i < |items| && items[i].Id() == product.id ==> items[i].product == product
    ensures ForwardedAdd(product, true) == Some(product)
    ensures InStock(Added(items, ForwardedAdd(product, true).value))
  {
    AddKeepsInStock(items, product);
  }

  /** What a `{value && <element/>}` slot renders for an optional number: nothing for an absent
      value, the element for a nonzero one, and, because React prints a falsy number that the
      `&&` hands back, the bare text "0" for a zero. */
  datatype Slot = Nothing | StrayZero | Shown(value: int)

  /** The discount or original-price slot as the card renders it. */
  function NumberSlot(v: Option<int>): Slot {
    match v
    case None => Nothing
    case Some(n) => if n == 0 then StrayZero else Shown(n)
  }

  /** The value a discount badge or original price is evidently meant to show: present and
      nonzero. */
  function ShownValue(v: Option<int>): (r: Option<int>)
    ensures r.Some? <==> v.Some? && v.value != 0
    ensures r.Some? ==> r == v
  {
    if v.Some? && v.value != 0 then v else None
  }

  /** The slot shows an element exactly when the intended value is shown, with the same number;
      the only difference is the stray "0" text for a zero value. */
  lemma SlotAgreesWithShownValue(v: Option<int>)
    ensures NumberSlot(v).Shown? <==> ShownValue(v).Some?
    ensures NumberSlot(v).Shown? ==> NumberSlot(v).value == ShownValue(v).value
    ensures NumberSlot(v).StrayZero? <==> v == Some(0)
  {
  }

  /** A product with a zero discount gets the text "0" on its image instead of no badge. */
  lemma ZeroDiscountShowsStrayZero(product: Product)
    requires product.discount == Some(0)
    ensures NumberSlot(product.discount) == StrayZero
    ensures ShownValue(product.discount) == None
  {
  }

  /** A product with a zero original price gets the text "0" where the struck-through price
      would be, instead of nothing. */
  lemma ZeroOriginalPriceShowsStrayZero(product: Product)
    requires product.originalPrice == Some(0)
    ensures NumberSlot(product.originalPrice) == StrayZero
    ensures OriginalPriceShown(product) == None
  {
  }

  /** The discount badge of the card, as intended. */
  function DiscountBadge(product: Product): (r: Option<int>)
    ensures r.Some? <==> product.discount.Some? && product.discount.value != 0
  {
    ShownValue(product.discount)
  }

  /** The struck-through original price of the card, as intended. */
  function OriginalPriceShown(product: Product): (r: Option<int>)
    ensures r.Some? <==> product.originalPrice.Some? && product.originalPrice.value != 0
  {
    ShownValue(product.originalPrice)
  }
}
