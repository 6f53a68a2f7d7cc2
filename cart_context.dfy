/** The shopping-cart store (`CartProvider`): an ordered list of cart entries keyed by product id,
    five operations that replace the list, and two totals derived from it. Each operation is a
    pure function from the previous list to the next one; the `Cart` class holds the list and
    applies them. */
module CartContext {
  import opened Wrappers
  import opened Seqs
  import opened Types

  /** `Math.min`. */
  function Min(a: int, b: int): int {
    if a <= b then a else b
  }

  /** Some entry has the id. */
  predicate HasId(items: seq<CartItem>, id: string) {
    exists i :: 0 <= i < |items| && items[i].Id() == id
  }

  /** No two entries share an id. */
  predicate DistinctIds(items: seq<CartItem>) {
    forall i, j :: 0 <= i < j < |items| ==> items[i].Id() != items[j].Id()
  }

  /** Every entry's quantity lies between 1 and its own stock. */
  predicate InStock(items: seq<CartItem>) {
    forall i :: 0 <= i < |items| ==> 1 <= items[i].quantity <= items[i].product.stock
  }

  /** `items.find(item => item.id === id)`: the first entry with the id, if any. */
  function Find(items: seq<CartItem>, id: string): (r: Option<CartItem>)
    ensures r.None? <==> !HasId(items, id)
    ensures r.Some? ==> exists k :: 0 <= k < |items| && items[k] == r.value && r.value.Id() == id &&
                                   forall j :: 0 <= j < k ==> items[j].Id() != id
  {
    if items == [] then None
    else if items[0].Id() == id then
      assert items[0] == items[0];  // the witness k = 0
      Some(items[0])
    else
      var r := Find(items[1..], id);
      assert forall i :: 0 <= i < |items[1..]| ==> items[1..][i] == items[i + 1];
      r
  }

  /** Where ids are distinct, `Find` returns the one entry with the id. */
  lemma FindDistinct(items: seq<CartItem>, k: int)
    requires DistinctIds(items) && 0 <= k < |items|
    ensures Find(items, items[k].Id()) == Some(items[k])
  {
  }

  /** `items.map(item => item.id === id ? f(item) : item)`. */
  function UpdateWhere(items: seq<CartItem>, id: string, f: CartItem -> CartItem): seq<CartItem> {
    seq(|items|, i requires 0 <= i < |items| => if items[i].Id() == id then f(items[i]) else items[i])
  }

  /** The entry after `addToCart(product)` found it present: its quantity goes up by one but not
      past the stock of the product passed in. */
  function AddOne(product: Product): CartItem -> CartItem {
    (item: CartItem) => item.(quantity := Min(item.quantity + 1, product.stock))
  }

  /** The list after `addToCart(product)`. A present product has its entry's quantity raised,
      clamped to `product.stock`; an absent one is appended with quantity 1, whatever its stock. */
  function Added(items: seq<CartItem>, product: Product): (r: seq<CartItem>)
    ensures HasId(r, product.id)
    ensures HasId(items, product.id) ==> |r| == |items|
    ensures !HasId(items, product.id) ==> r == items + [CartItem(product, 1)]
    ensures forall i :: 0 <= i < |items| && items[i].Id() != product.id ==> r[i] == items[i]
    ensures forall i :: 0 <= i < |items| && items[i].Id() == product.id ==>
              r[i] == items[i].(quantity := Min(items[i].quantity + 1, product.stock))
    ensures forall i :: 0 <= i < |r| ==> r[i].Id() == if i < |items| then items[i].Id() else product.id
    ensures DistinctIds(items) ==> DistinctIds(r)
  {
    if Find(items, product.id).Some? then
      var r := UpdateWhere(items, product.id, AddOne(product));
      var k :| 0 <= k < |items| && items[k].Id() == product.id;
      assert r[k].Id() == product.id;
      r
    else
      var r := items + [CartItem(product, 1)];
      assert r[|items|].Id() == product.id;
      r
  }

  /** The filter `removeFromCart(id)` applies: keep entries whose id differs. */
  function OtherThan(id: string): CartItem -> bool {
    (item: CartItem) => item.Id() != id
  }

  /** The list after `removeFromCart(id)`: every entry with the id is dropped. */
  function Removed(items: seq<CartItem>, id: string): (r: seq<CartItem>)
    ensures !HasId(r, id)
    ensures IsSubsequence(r, items)
    ensures forall i :: 0 <= i < |items| && items[i].Id() != id ==> items[i] in r
    ensures !HasId(items, id) ==> r == items
    ensures DistinctIds(items) ==> DistinctIds(r)
  {
    FilterKeepsDistinctIds(OtherThan(id), items);
    FilterMembership(OtherThan(id), items);
    Filter(OtherThan(id), items)
  }

  /** Filtering a list with distinct ids leaves the ids distinct. */
  lemma {:induction false} FilterKeepsDistinctIds(f: CartItem -> bool, items: seq<CartItem>)
    ensures DistinctIds(items) ==> DistinctIds(Filter(f, items))
  {
    if items != [] && DistinctIds(items) {
      FilterKeepsDistinctIds(f, items[1..]);
      FilterMembership(f, items[1..]);
      var rest := Filter(f, items[1..]);
      forall j | 0 <= j < |rest|
        ensures rest[j].Id() != items[0].Id()
      {
        var k :| 0 <= k < |items[1..]| && items[1..][k] == rest[j];
        assert items[k + 1] == rest[j];
      }
    }
  }

  /** The entry after `increaseQuantity`: one more, but not past its own stock. */
  function IncreaseOne(item: CartItem): CartItem {
    item.(quantity := Min(item.quantity + 1, item.product.stock))
  }

  /** The list after `increaseQuantity(id)`: the entry's quantity becomes min(quantity + 1, stock). */
  function Increased(items: seq<CartItem>, id: string): (r: seq<CartItem>)
    ensures |r| == |items|
    ensures forall i :: 0 <= i < |items| ==>
              r[i] == if items[i].Id() == id then items[i].(quantity := Min(items[i].quantity + 1, items[i].product.stock)) else items[i]
    ensures forall i :: 0 <= i < |items| ==> r[i].product == items[i].product
    ensures DistinctIds(items) ==> DistinctIds(r)
    ensures InStock(items) ==> InStock(r)
  {
    UpdateWhere(items, id, IncreaseOne)
  }

  /** The entry after `decreaseQuantity`: one fewer when above 1; at 1 it stays (it is not removed). */
  function DecreaseOne(item: CartItem): CartItem {
    if item.quantity > 1 then item.(quantity := item.quantity - 1) else item
  }

  /** The list after `decreaseQuantity(id)`. */
  function Decreased(items: seq<CartItem>, id: string): (r: seq<CartItem>)
    ensures |r| == |items|
    ensures forall i :: 0 <= i < |items| ==>
              r[i] == if items[i].Id() == id && items[i].quantity > 1 then items[i].(quantity := items[i].quantity - 1) else items[i]
    ensures forall i :: 0 <= i < |items| ==> r[i].product == items[i].product
    ensures DistinctIds(items) ==> DistinctIds(r)
    ensures InStock(items) ==> InStock(r)
  {
    var r := UpdateWhere(items, id, DecreaseOne);
    assert forall i :: 0 <= i < |items| ==> r[i] == if items[i].Id() == id then DecreaseOne(items[i]) else items[i];
    r
  }

  /** `items.reduce((sum, item) => sum + item.quantity, 0)`. */
  function TotalItems(items: seq<CartItem>): int {
    if items == [] then 0 else TotalItems(items[..|items| - 1]) + items[|items| - 1].quantity
  }

  /** What one entry contributes to the price total: its unit price times its quantity. */
  function Amount(item: CartItem): int {
    item.product.price * item.quantity
  }

  /** `items.reduce((sum, item) => sum + item.price * item.quantity, 0)`. */
  function TotalPrice(items: seq<CartItem>): int {
    if items == [] then 0
    else TotalPrice(items[..|items| - 1]) + Amount(items[|items| - 1])
  }

  /** Every entry counts at least once, so a cart whose quantities are all at least 1 holds at
      least as many items as entries; with nonnegative prices and quantities the price total is
      nonnegative. */
  lemma {:induction false} TotalsBounds(items: seq<CartItem>)
    ensures (forall i :: 0 <= i < |items| ==> items[i].quantity >= 1) ==> TotalItems(items) >= |items|
    ensures (forall i :: 0 <= i < |items| ==> items[i].product.price >= 0 && items[i].quantity >= 0) ==> TotalPrice(items) >= 0
  {
    if items != [] {
      var init := items[..|items| - 1];
      TotalsBounds(init);
      assert forall i :: 0 <= i < |init| ==> init[i] == items[i];
      var last := items[|items| - 1];
      if last.product.price >= 0 && last.quantity >= 0 {
        assert Amount(last) >= 0;
      }
    }
  }

  /** Both totals are sums: the total of a concatenation is the sum of the parts' totals. */
  lemma {:induction false} TotalsConcat(a: seq<CartItem>, b: seq<CartItem>)
    ensures TotalItems(a + b) == TotalItems(a) + TotalItems(b)
    ensures TotalPrice(a + b) == TotalPrice(a) + TotalPrice(b)
  {
    if b == [] {
      assert a + b == a;
    } else {
      assert (a + b)[..|a + b| - 1] == a + b[..|b| - 1];
      TotalsConcat(a, b[..|b| - 1]);
    }
  }

  /** Lists that differ in one entry only have totals that differ by that entry's share. */
  lemma {:induction false} TotalsChangeAt(a: seq<CartItem>, b: seq<CartItem>, k: int)
    requires |a| == |b| && 0 <= k < |a|
    requires forall i :: 0 <= i < |a| && i != k ==> a[i] == b[i]
    ensures TotalItems(b) == TotalItems(a) - a[k].quantity + b[k].quantity
    ensures TotalPrice(b) == TotalPrice(a) - Amount(a[k]) + Amount(b[k])
  {
    var n := |a|;
    if k == n - 1 {
      assert a[..n - 1] == b[..n - 1];
    } else {
      TotalsChangeAt(a[..n - 1], b[..n - 1], k);
    }
  }

  /** Adding an absent product appends one entry of quantity 1: one more item, and the product's
      price more. */
  lemma AddAbsentTotals(items: seq<CartItem>, product: Product)
    requires !HasId(items, product.id)
    ensures TotalItems(Added(items, product)) == TotalItems(items) + 1
    ensures TotalPrice(Added(items, product)) == TotalPrice(items) + product.price
  {
    assert Added(items, product)[..|items|] == items;
  }

  /** With distinct ids, updating the entry at `k` leaves every other entry as it was. */
  lemma UpdateOnlyAt(items: seq<CartItem>, k: int, f: CartItem -> CartItem)
    requires DistinctIds(items) && 0 <= k < |items|
    ensures var r := UpdateWhere(items, items[k].Id(), f);
            |r| == |items| && r[k] == f(items[k]) &&
            forall i :: 0 <= i < |items| && i != k ==> r[i] == items[i]
  {
    var r := UpdateWhere(items, items[k].Id(), f);
    forall i | 0 <= i < |items| && i != k
      ensures r[i] == items[i]
    {
      assert items[i].Id() != items[k].Id();
    }
  }

  /** One more unit of the same product adds its price to the entry's amount. */
  lemma AmountStep(a: CartItem, b: CartItem)
    requires b.product == a.product && b.quantity == a.quantity + 1
    ensures Amount(b) == Amount(a) + a.product.price
  {
  }

  /** With distinct ids, increasing an entry below its stock adds exactly one item and one price. */
  lemma IncreaseTotals(items: seq<CartItem>, k: int)
    requires DistinctIds(items) && 0 <= k < |items| && items[k].quantity < items[k].product.stock
    ensures TotalItems(Increased(items, items[k].Id())) == TotalItems(items) + 1
    ensures TotalPrice(Increased(items, items[k].Id())) == TotalPrice(items) + items[k].product.price
  {
    UpdateOnlyAt(items, k, IncreaseOne);
    var r := UpdateWhere(items, items[k].Id(), IncreaseOne);
    assert r[k] == items[k].(quantity := items[k].quantity + 1);
    TotalsChangeAt(items, r, k);
    AmountStep(items[k], r[k]);
  }

  /** With distinct ids, decreasing an entry above 1 removes exactly one item and one price. */
  lemma DecreaseTotals(items: seq<CartItem>, k: int)
    requires DistinctIds(items) && 0 <= k < |items| && items[k].quantity > 1
    ensures TotalItems(Decreased(items, items[k].Id())) == TotalItems(items) - 1
    ensures TotalPrice(Decreased(items, items[k].Id())) == TotalPrice(items) - items[k].product.price
  {
    UpdateOnlyAt(items, k, DecreaseOne);
    var r := UpdateWhere(items, items[k].Id(), DecreaseOne);
    assert r[k] == items[k].(quantity := items[k].quantity - 1);
    TotalsChangeAt(items, r, k);
    AmountStep(r[k], items[k]);
  }

  /** With distinct ids, removing the id of entry `k` cuts exactly that entry out. */
  lemma RemovedIsCut(items: seq<CartItem>, k: int)
    requires DistinctIds(items) && 0 <= k < |items|
    ensures Removed(items, items[k].Id()) == items[..k] + items[k + 1..]
  {
    var f := OtherThan(items[k].Id());
    var pre, post := items[..k], items[k + 1..];
    assert Filter(f, pre) == pre by {
      assert forall i :: 0 <= i < |pre| ==> f(pre[i]);
    }
    assert Filter(f, post) == post by {
      assert forall i :: 0 <= i < |post| ==> post[i] == items[k + 1 + i] && f(post[i]);
    }
    SplitAt(items, k);
    FilterConcat(f, pre + [items[k]], post);
    FilterConcat(f, pre, [items[k]]);
  }

  lemma SplitAt(items: seq<CartItem>, k: int)
    requires 0 <= k < |items|
    ensures items == items[..k] + [items[k]] + items[k + 1..]
  {
  }

  /** With distinct ids, removing entry `k` takes exactly its quantity and its amount off the totals. */
  lemma RemoveTotals(items: seq<CartItem>, k: int)
    requires DistinctIds(items) && 0 <= k < |items|
    ensures TotalItems(Removed(items, items[k].Id())) == TotalItems(items) - items[k].quantity
    ensures TotalPrice(Removed(items, items[k].Id())) == TotalPrice(items) - Amount(items[k])
  {
    var pre, post := items[..k], items[k + 1..];
    RemovedIsCut(items, k);
    SplitAt(items, k);
    TotalsConcat(pre + [items[k]], post);
    TotalsConcat(pre, [items[k]]);
    TotalsConcat(pre, post);
  }

  /** `increaseQuantity` at the stock ceiling changes nothing, so repeating it is harmless. */
  lemma IncreaseAtStockIsNoop(items: seq<CartItem>, id: string)
    requires forall i :: 0 <= i < |items| && items[i].Id() == id ==> items[i].quantity == items[i].product.stock
    ensures Increased(items, id) == items
  {
  }

  /** `decreaseQuantity` at quantity 1 changes nothing: the entry stays and repeating is harmless. */
  lemma DecreaseAtOneIsNoop(items: seq<CartItem>, id: string)
    requires forall i :: 0 <= i < |items| && items[i].Id() == id ==> items[i].quantity <= 1
    ensures Decreased(items, id) == items
    ensures HasId(items, id) ==> HasId(Decreased(items, id), id)
  {
  }

  /** Adding keeps every quantity between 1 and its stock when the product is in stock and is
      the same record as the one already in the cart. */
  lemma AddKeepsInStock(items: seq<CartItem>, product: Product)
    requires InStock(items) && product.stock >= 1
    requires forall i :: 0 <= i < |items| && items[i].Id() == product.id ==> items[i].product == product
    ensures InStock(Added(items, product))
  {
  }

  /** The bound is not unconditional: adding an absent product whose stock is 0 yields an entry
      with quantity 1 above its stock, and increasing it then drops the quantity to 0. */
  lemma AddOutOfStock(items: seq<CartItem>, product: Product)
    requires !HasId(items, product.id) && product.stock == 0
    ensures !InStock(Added(items, product))
    ensures Increased(Added(items, product), product.id)[|items|].quantity == 0
  {
    var r := Added(items, product);
    assert r[|items|] == CartItem(product, 1);
  }

  /** The provider's state. Every operation replaces `items` with a new list. */
  class Cart {
    var items: seq<CartItem>

    /** The initial list is whatever was saved; reading and parsing it is outside this model. */
    constructor (saved: seq<CartItem>)
      ensures items == saved
    {
      items := saved;
    }

    method AddToCart(product: Product)
      modifies this
      ensures items == Added(old(items), product)
      ensures DistinctIds(old(items)) ==> DistinctIds(items)
    {
      items := Added(items, product);
    }

    method RemoveFromCart(id: string)
      modifies this
      ensures items == Removed(old(items), id)
      ensures DistinctIds(old(items)) ==> DistinctIds(items)
    {
      items := Removed(items, id);
    }

    method IncreaseQuantity(id: string)
      modifies this
      ensures items == Increased(old(items), id)
      ensures DistinctIds(old(items)) ==> DistinctIds(items)
      ensures InStock(old(items)) ==> InStock(items)
    {
      items := Increased(items, id);
    }

    method DecreaseQuantity(id: string)
      modifies this
      ensures items == Decreased(old(items), id)
      ensures DistinctIds(old(items)) ==> DistinctIds(items)
      ensures InStock(old(items)) ==> InStock(items)
    {
      items := Decreased(items, id);
    }

    method ClearCart()
      modifies this
      ensures items == [] && TotalItems(items) == 0 && TotalPrice(items) == 0
    {
      items := [];
    }
  }
}
