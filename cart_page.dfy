/** The cart page: the amount payable, which quantity buttons are enabled, the stock warning,
    and the two confirmation dialogs (remove one entry, clear the cart). */
module CartPage {
  import opened Wrappers
  import opened Types
  import opened CartContext

  /** The fixed delivery fee, in toman. */
  const DeliveryFee: int := 50000

  /** Every entry has a nonnegative price and quantity. */
  predicate NonNegative(items: seq<CartItem>) {
    forall i :: 0 <= i < |items| ==> items[i].product.price >= 0 && items[i].quantity >= 0
  }

  /** `finalPrice`: the products' total plus delivery when the cart holds something, else 0.
      With nonnegative prices, the amount payable is 0 exactly when the cart is empty and
      otherwise covers at least the delivery fee. */
  function FinalPrice(items: seq<CartItem>): (r: int)
    ensures items == [] ==> r == 0
    ensures NonNegative(items) && items != [] ==> r >= DeliveryFee
  {
    TotalsBounds(items);
    if |items| > 0 then TotalPrice(items) + DeliveryFee else 0
  }

  /** Adding a product that is not yet in the cart raises the amount payable by its price, plus
      the delivery fee when the cart was empty. */
  lemma FinalPriceOfAdd(items: seq<CartItem>, product: Product)
    requires !HasId(items, product.id)
    ensures FinalPrice(Added(items, product)) ==
            FinalPrice(items) + product.price + (if items == [] then DeliveryFee else 0)
  {
    AddAbsentTotals(items, product);
  }

  /** The minus button of a row is disabled at quantity 1 or below. */
  predicate MinusDisabled(item: CartItem) {
    item.quantity <= 1
  }

  /** The plus button of a row is disabled once the quantity reaches the stock; the warning
      "at most `stock` available" is shown under the same condition. */
  predicate AtStockLimit(item: CartItem) {
    item.quantity >= item.product.stock
  }

  /** The minus button is disabled exactly when pressing it would change nothing. */
  lemma MinusDisabledIffNoop(items: seq<CartItem>, k: int)
    requires DistinctIds(items) && 0 <= k < |items|
    ensures MinusDisabled(items[k]) <==> Decreased(items, items[k].Id()) == items
  {
    if !MinusDisabled(items[k]) {
      assert Decreased(items, items[k].Id())[k] != items[k];
    }
  }

  /** For a quantity within stock, the plus button is disabled exactly when pressing it would
      change nothing. */
  lemma PlusDisabledIffNoop(items: seq<CartItem>, k: int)
    requires DistinctIds(items) && 0 <= k < |items| && items[k].quantity <= items[k].product.stock
    ensures AtStockLimit(items[k]) <==> Increased(items, items[k].Id()) == items
  {
    if !AtStockLimit(items[k]) {
      assert Increased(items, items[k].Id())[k] != items[k];
    }
  }

  /** The row amounts the page lists, added up from the first row to the last. */
  function RowsTotal(items: seq<CartItem>): int {
    if items == [] then 0 else Amount(items[0]) + RowsTotal(items[1..])
  }

  /** The row amounts (`price * quantity` on each row) add up to the products' total shown in
      the summary, whichever end the sum starts from. */
  lemma {:induction false} RowsAddUpToTotalPrice(items: seq<CartItem>)
    ensures RowsTotal(items) == TotalPrice(items)
  {
    if items != [] {
      RowsAddUpToTotalPrice(items[1..]);
      TotalsConcat([items[0]], items[1..]);
      assert [items[0]] + items[1..] == items;
      assert [items[0]][..0] == [];
    }
  }

  /** The "price × quantity" breakdown under a row is shown only for quantities above 1. */
  predicate ShowUnitBreakdown(item: CartItem) {
    item.quantity > 1
  }

  /** The breakdown is shown exactly on the rows whose minus button is enabled. */
  lemma BreakdownIffMinusEnabled(item: CartItem)
    ensures ShowUnitBreakdown(item) <==> !MinusDisabled(item)
  {
  }

  /** The page's dialog state. */
  class CartPageState {
    var showClearModal: bool
    var showRemoveModal: bool
    var itemToRemove: Option<string>

    constructor ()
      ensures !showClearModal && !showRemoveModal && itemToRemove == None
    {
      showClearModal := false;
      showRemoveModal := false;
      itemToRemove := None;
    }

    /** The trash button of a row: remember its id and open the remove dialog. */
    method RequestRemove(id: string)
      modifies this
      ensures itemToRemove == Some(id) && showRemoveModal
      ensures showClearModal == old(showClearModal)
    {
      itemToRemove := Some(id);
      showRemoveModal := true;
    }

    /** Confirming the remove dialog removes the remembered id, but only when one is set and it
        is not the empty string (which JavaScript treats as false); the dialog always closes and
        forgets the id. */
    method ConfirmRemove(cart: Cart)
      modifies this, cart
      ensures cart.items == (if old(itemToRemove).Some? && old(itemToRemove).value != ""
                             then Removed(old(cart.items), old(itemToRemove).value)
                             else old(cart.items))
      ensures !showRemoveModal && itemToRemove == None
      ensures showClearModal == old(showClearModal)
    {
      if itemToRemove.Some? && itemToRemove.value != "" {
        cart.RemoveFromCart(itemToRemove.value);
      }
      showRemoveModal := false;
      itemToRemove := None;
    }

    /** Cancelling or dismissing the remove dialog closes it and forgets the id, leaving the
        cart alone. */
    method CancelRemove()
      modifies this
      ensures !showRemoveModal && itemToRemove == None
      ensures showClearModal == old(showClearModal)
    {
      showRemoveModal := false;
      itemToRemove := None;
    }

    /** The "clear all" button opens the clear dialog. */
    method RequestClear()
      modifies this
      ensures showClearModal
      ensures showRemoveModal == old(showRemoveModal) && itemToRemove == old(itemToRemove)
    {
      showClearModal := true;
    }

    /** Confirming the clear dialog empties the cart and closes the dialog. */
    method ConfirmClear(cart: Cart)
      modifies this, cart
      ensures cart.items == [] && FinalPrice(cart.items) == 0
      ensures !showClearModal
      ensures showRemoveModal == old(showRemoveModal) && itemToRemove == old(itemToRemove)
    {
      cart.ClearCart();
      showClearModal := false;
    }

    /** Cancelling or dismissing the clear dialog only closes it. */
    method CancelClear()
      modifies this
      ensures !showClearModal
      ensures showRemoveModal == old(showRemoveModal) && itemToRemove == old(itemToRemove)
    {
      showClearModal := false;
    }
  }
}
