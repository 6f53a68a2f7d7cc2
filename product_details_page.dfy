/** The product page: where the product sits in the cart, the add / minus / plus controls and
    what they do to the cart, the stock label, star rows, and the review dialog. */
module ProductDetailsPage {
  import opened Wrappers
  import opened Types
  import opened CartContext
  import ProductCard

  /** `cartItem`: the cart entry for the page's product, if any. */
  function CartItemOf(items: seq<CartItem>, product: Product): (r: Option<CartItem>)
    ensures r.Some? ==> r.value.Id() == product.id && r.value in items
  {
    Find(items, product.id)
  }

  /** `inCart`: the cart holds an entry for the product. */
  predicate InCart(items: seq<CartItem>, product: Product) {
    CartItemOf(items, product).Some?
  }

  /** The product is in the cart exactly when some entry has its id, and then `cartItem` is the
      first such entry. */
  lemma {:induction false} CartItemIsFirstMatch(items: seq<CartItem>, product: Product, k: int)
    requires 0 <= k < |items| && items[k].Id() == product.id
    requires forall j :: 0 <= j < k ==> items[j].Id() != product.id
    ensures InCart(items, product)
    ensures CartItemOf(items, product) == Some(items[k])
  {
    if k > 0 {
      CartItemIsFirstMatch(items[1..], product, k - 1);
    }
  }

  /** `inCart` is exactly "some entry has the product's id". */
  lemma InCartIff(items: seq<CartItem>, product: Product)
    ensures InCart(items, product) <==> HasId(items, product.id)
  {
  }

  /** Out of the cart, the page shows an add button disabled under the same condition as the
      card's, `ProductCard.AddDisabled`. With the add button enabled, adding keeps every cart
      quantity within stock, so the out-of-stock entry that `addToCart` alone allows cannot be
      created from this page. */
  lemma AddEnabledKeepsInStock(items: seq<CartItem>, product: Product)
    requires !InCart(items, product) && !ProductCard.AddDisabled(product) && product.stock >= 0
    requires InStock(items)
    ensures InStock(Added(items, product))
  {
    InCartIff(items, product);
    assert Added(items, product) == items + [CartItem(product, 1)];
  }

  /** The minus control, shown only while the product is in the cart: at quantity 1 it removes
      the entry, otherwise it decreases it. */
  function MinusClicked(items: seq<CartItem>, product: Product): (r: seq<CartItem>)
    requires InCart(items, product)
  {
    if CartItemOf(items, product).value.quantity == 1 then Removed(items, product.id)
    else Decreased(items, product.id)
  }

  /** With distinct ids, the minus control either cuts the entry out (at quantity 1) or lowers
      its quantity by exactly one (above 1), touching no other entry; a quantity below 1 is left
      as it is. Either way one unit leaves the cart when the quantity was at least 1. */
  lemma MinusRemovesOrDecrements(items: seq<CartItem>, product: Product, k: int)
    requires DistinctIds(items) && 0 <= k < |items| && items[k].Id() == product.id
    ensures InCart(items, product)
    ensures items[k].quantity == 1 ==> MinusClicked(items, product) == items[..k] + items[k + 1..]
    ensures items[k].quantity > 1 ==>
              var r := MinusClicked(items, product);
              |r| == |items| && r[k] == items[k].(quantity := items[k].quantity - 1) &&
              forall i :: 0 <= i < |items| && i != k ==> r[i] == items[i]
    ensures items[k].quantity < 1 ==> MinusClicked(items, product) == items
    ensures items[k].quantity >= 1 ==>
              TotalItems(MinusClicked(items, product)) == TotalItems(items) - 1
  {
    FindDistinct(items, k);
    if items[k].quantity == 1 {
      RemovedIsCut(items, k);
      RemoveTotals(items, k);
    } else if items[k].quantity > 1 {
      DecreaseTotals(items, k);
    } else {
      DecreaseAtOneIsNoop(items, product.id);
    }
  }

  /** The plus control is disabled once the entry reaches the page product's stock. */
  predicate PlusDisabled(item: CartItem, product: Product) {
    item.quantity >= product.stock
  }

  /** While the stored entry carries the page's product, an enabled plus control adds exactly
      one unit and one price to the cart. */
  lemma PlusEnabledIncrements(items: seq<CartItem>, product: Product, k: int)
    requires DistinctIds(items) && 0 <= k < |items| && items[k].product == product
    requires !PlusDisabled(items[k], product)
    ensures TotalItems(Increased(items, product.id)) == TotalItems(items) + 1
    ensures TotalPrice(Increased(items, product.id)) == TotalPrice(items) + product.price
  {
    IncreaseTotals(items, k);
  }

  /** The total shown beside the controls: the page product's price times the entry's quantity. */
  function ShownTotal(product: Product, item: CartItem): int {
    product.price * item.quantity
  }

  /** When the entry carries the page's product, the shown total is the entry's share of the
      cart's price total, as the cart page shows it on the row. */
  lemma ShownTotalIsRowAmount(product: Product, item: CartItem)
    requires item.product == product
    ensures ShownTotal(product, item) == Amount(item)
  {
  }

  /** The stock label under the price. */
  datatype StockLabel = OnlyLeft(count: int) | Available | Unavailable

  function StockLabelOf(stock: int): (r: StockLabel)
    ensures r.OnlyLeft? <==> 0 < stock < 5
    ensures r.OnlyLeft? ==> r.count == stock
    ensures r == Available <==> stock >= 5
    ensures r == Unavailable <==> stock <= 0
  {
    if stock > 0 then (if stock < 5 then OnlyLeft(stock) else Available) else Unavailable
  }

  /** The page's label agrees with the card's badges for a nonnegative stock: "only N left"
      with the low-stock badge, "unavailable" with the out-of-stock badge. A negative stock
      reads "unavailable" here while the card shows no badge. */
  lemma StockLabelMatchesCard(product: Product)
    ensures product.stock >= 0 ==>
              (StockLabelOf(product.stock).OnlyLeft? <==> ProductCard.LowStockBadge(product))
    ensures product.stock >= 0 ==>
              (StockLabelOf(product.stock) == Unavailable <==> ProductCard.OutOfStockBadge(product))
    ensures product.stock < 0 ==>
              StockLabelOf(product.stock) == Unavailable &&
              !ProductCard.LowStockBadge(product) && !ProductCard.OutOfStockBadge(product)
  {
  }

  /** `renderStars(rating)`: five stars, star `i` filled when `i < rating`. */
  function RenderStars(rating: int): (r: seq<bool>)
    ensures |r| == 5
  {
    seq(5, i => i < rating)
  }

  /** How many entries are true. */
  function CountFilled(s: seq<bool>): (n: nat)
    ensures n <= |s|
  {
    if s == [] then 0 else (if s[0] then 1 else 0) + CountFilled(s[1..])
  }

  /** A row of stars `i < rating` for `i` from `from` up to 5. */
  function StarsFrom(rating: int, from: nat): seq<bool>
    requires from <= 5
    decreases 5 - from
  {
    if from == 5 then [] else [from < rating] + StarsFrom(rating, from + 1)
  }

  /** The stars from `from` on number the rating past `from`, clamped to what is left. */
  lemma {:induction false} CountStarsFrom(rating: int, from: nat)
    requires from <= 5
    ensures |StarsFrom(rating, from)| == 5 - from
    ensures CountFilled(StarsFrom(rating, from)) ==
            if rating <= from then 0 else if rating >= 5 then 5 - from else rating - from
    decreases 5 - from
  {
    if from < 5 {
      CountStarsFrom(rating, from + 1);
      assert StarsFrom(rating, from)[1..] == StarsFrom(rating, from + 1);
    }
  }

  /** The number of filled stars is the rating clamped to 0..5, and the filled ones come first. */
  lemma FilledStars(rating: int)
    ensures CountFilled(RenderStars(rating)) ==
            if rating <= 0 then 0 else if rating >= 5 then 5 else rating
    ensures forall i, j :: 0 <= i < j < 5 && RenderStars(rating)[j] ==> RenderStars(rating)[i]
  {
    CountStarsFrom(rating, 0);
    var s := StarsFrom(rating, 0);
    assert forall i :: 0 <= i < 5 ==> s[i] == (i < rating) by {
      forall i | 0 <= i < 5
        ensures s[i] == (i < rating)
      {
        StarsFromAt(rating, 0, i);
      }
    }
    assert RenderStars(rating) == s;
  }

  /** Entry `i` of `StarsFrom(rating, from)` is the star at position `from + i`. */
  lemma {:induction false} StarsFromAt(rating: int, from: nat, i: nat)
    requires from + i < 5
    ensures |StarsFrom(rating, from)| == 5 - from
    ensures StarsFrom(rating, from)[i] == (from + i < rating)
    decreases i
  {
    CountStarsFrom(rating, from);
    if i > 0 {
      StarsFromAt(rating, from + 1, i - 1);
      assert StarsFrom(rating, from)[i] == StarsFrom(rating, from + 1)[i - 1];
    }
  }

  /** The stars of the review dialog's picker: the star for value `v` (1 to 5) is filled when
      `v` is at most the chosen rating. */
  function PickerStars(chosen: int): (r: seq<bool>)
    ensures |r| == 5
  {
    seq(5, i => i + 1 <= chosen)
  }

  /** The picker draws the chosen rating exactly as `renderStars` draws a rating. */
  lemma PickerMatchesRenderStars(chosen: int)
    ensures PickerStars(chosen) == RenderStars(chosen)
  {
    assert forall i :: 0 <= i < 5 ==> PickerStars(chosen)[i] == RenderStars(chosen)[i];
  }

  /** The page's dialog state and the review draft. */
  class ProductDetailsState {
    const product: Product
    var showAddedModal: bool
    var showReviewModal: bool
    var reviewRating: int
    var reviewComment: string

    /** The draft rating is one the picker offers. */
    predicate Valid()
      reads this
    {
      1 <= reviewRating <= 5
    }

    constructor (product: Product)
      ensures this.product == product
      ensures !showAddedModal && !showReviewModal
      ensures reviewRating == 5 && reviewComment == ""
      ensures Valid()
    {
      this.product := product;
      showAddedModal := false;
      showReviewModal := false;
      reviewRating := 5;
      reviewComment := "";
    }

    /** `handleAddToCart`: add the page's product and open the "added" dialog. */
    method HandleAddToCart(cart: Cart)
      modifies this, cart
      ensures cart.items == Added(old(cart.items), product)
      ensures showAddedModal
      ensures showReviewModal == old(showReviewModal)
      ensures reviewRating == old(reviewRating) && reviewComment == old(reviewComment)
    {
      cart.AddToCart(product);
      showAddedModal := true;
    }

    /** Either button of the "added" dialog, or dismissing it, closes it. */
    method CloseAdded()
      modifies this
      ensures !showAddedModal
      ensures showReviewModal == old(showReviewModal)
      ensures reviewRating == old(reviewRating) && reviewComment == old(reviewComment)
    {
      showAddedModal := false;
    }

    /** The minus control: at quantity 1 the entry is removed, otherwise decreased. */
    method OnMinusClick(cart: Cart)
      requires InCart(cart.items, product)
      modifies cart
      ensures cart.items == MinusClicked(old(cart.items), product)
    {
      if CartItemOf(cart.items, product).value.quantity == 1 {
        cart.RemoveFromCart(product.id);
      } else {
        cart.DecreaseQuantity(product.id);
      }
    }

    /** The plus control. */
    method OnPlusClick(cart: Cart)
      modifies cart
      ensures cart.items == Increased(old(cart.items), product.id)
    {
      cart.IncreaseQuantity(product.id);
    }

    /** "Write a review" opens the dialog, keeping the draft. */
    method OpenReview()
      requires Valid()
      modifies this
      ensures showReviewModal && Valid()
      ensures showAddedModal == old(showAddedModal)
      ensures reviewRating == old(reviewRating) && reviewComment == old(reviewComment)
    {
      showReviewModal := true;
    }

    /** A star of the picker sets the rating to its value, one of 1 to 5. */
    method PickRating(rating: int)
      requires Valid() && 1 <= rating <= 5
      modifies this
      ensures reviewRating == rating && reviewComment == old(reviewComment) && Valid()
      ensures showReviewModal == old(showReviewModal) && showAddedModal == old(showAddedModal)
    {
      reviewRating := rating;
    }

    /** Typing in the comment box replaces the comment. */
    method EditComment(comment: string)
      requires Valid()
      modifies this
      ensures reviewComment == comment && reviewRating == old(reviewRating) && Valid()
      ensures showReviewModal == old(showReviewModal) && showAddedModal == old(showAddedModal)
    {
      reviewComment := comment;
    }

    /** Submitting or cancelling closes the dialog and resets the draft to rating 5 with no
        comment. */
    method SubmitOrCancelReview()
      modifies this
      ensures !showReviewModal && reviewRating == 5 && reviewComment == "" && Valid()
      ensures showAddedModal == old(showAddedModal)
    {
      showReviewModal := false;
      reviewRating := 5;
      reviewComment := "";
    }

    /** Dismissing the dialog closes it but keeps the draft. */
    method DismissReview()
      requires Valid()
      modifies this
      ensures !showReviewModal && Valid()
      ensures reviewRating == old(reviewRating) && reviewComment == old(reviewComment)
      ensures showAddedModal == old(showAddedModal)
    {
      showReviewModal := false;
    }
  }
}
