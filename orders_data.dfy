/** The sample order history (`mockOrders`) and the helper that builds its line items from the
    catalogue. */
module OrdersData {
  import opened Wrappers
  import opened Types
  import opened CartContext
  import ProductsData
  import CartPage

  /** `products.find(p => p.id === id)`. */
  function FindProduct(products: seq<Product>, id: string): (r: Option<Product>)
    ensures r.None? <==> forall i :: 0 <= i < |products| ==> products[i].id != id
    ensures r.Some? ==> exists k :: 0 <= k < |products| && products[k] == r.value && r.value.id == id &&
                                   forall j :: 0 <= j < k ==> products[j].id != id
  {
    if products == [] then None
    else if products[0].id == id then
      assert products[0] == products[0];  // the witness k = 0
      Some(products[0])
    else
      var r := FindProduct(products[1..], id);
      assert forall i :: 0 <= i < |products[1..]| ==> products[1..][i] == products[i + 1];
      r
  }

  /** `createCartItem(productId, quantity)` over a catalogue: the first product with the id,
      every field copied, with the given quantity; when there is none it throws, which is the
      error here. */
  function CreateCartItemFrom(products: seq<Product>, productId: string, quantity: int)
    : (r: Result<CartItem, string>)
    ensures r.Err? <==> forall i :: 0 <= i < |products| ==> products[i].id != productId
    ensures r.Err? ==> r.error == "Product " + productId + " not found"
    ensures r.Ok? ==> r.value.quantity == quantity && r.value.Id() == productId &&
                      exists k :: 0 <= k < |products| && products[k] == r.value.product &&
                                  forall j :: 0 <= j < k ==> products[j].id != productId
  {
    match FindProduct(products, productId)
    case None => Err("Product " + productId + " not found")
    case Some(product) => Ok(CartItem(product, quantity))
  }

  /** The first product carrying an id is the one `find` returns. */
  lemma FindFirst(products: seq<Product>, id: string, k: int)
    requires 0 <= k < |products| && products[k].id == id
    requires forall j :: 0 <= j < k ==> products[j].id != id
    ensures FindProduct(products, id) == Some(products[k])
  {
    var r := FindProduct(products, id);
    var k' :| 0 <= k' < |products| && products[k'] == r.value && r.value.id == id &&
              forall j :: 0 <= j < k' ==> products[j].id != id;
    assert k' == k;
  }

  /** The ids and unit prices of the catalogue, in order. */
  lemma CatalogueFacts()
    ensures |P| == 8
    ensures P[0].id == "1" && P[1].id == "2" && P[2].id == "3" && P[3].id == "4"
    ensures P[4].id == "5" && P[5].id == "6" && P[6].id == "7" && P[7].id == "8"
    ensures P[0].price == 15500000 && P[1].price == 22000000 && P[2].price == 4500000
    ensures P[3].price == 2800000 && P[4].price == 1800000 && P[5].price == 12500000
    ensures P[6].price == 3200000 && P[7].price == 18500000
  {
  }

  /** `createCartItem` as the order data uses it, over the catalogue. */
  function CreateCartItem(productId: string, quantity: int): Result<CartItem, string> {
    CreateCartItemFrom(ProductsData.MockProducts, productId, quantity)
  }

  /** An id the catalogue does not have makes `createCartItem` throw. */
  lemma CreateCartItemUnknown(quantity: int)
    ensures CreateCartItem("9", quantity) == Err("Product " + "9" + " not found")
  {
    CatalogueFacts();
    assert forall i :: 0 <= i < |P| ==> P[i].id[0] != '9';
  }

  const P := ProductsData.MockProducts

  const MockOrders: seq<Order> := [
    Order(
      id := "1", orderNumber := "ORD-2024-001", status := Delivered,
      items := [CartItem(P[0], 1), CartItem(P[2], 1)],
      subtotal := 20000000, deliveryFee := 50000, totalPrice := 20050000,
      address := 0, paymentMethod := Online,
      createdAt := "2024-11-15T10:30:00Z",
      confirmedAt := Some("2024-11-15T11:00:00Z"),
      shippedAt := Some("2024-11-16T09:00:00Z"),
      deliveredAt := Some("2024-11-18T14:30:00Z"),
      cancelledAt := None,
      trackingCode := Some("TRK-98765432"),
      notes := None),
    Order(
      id := "2", orderNumber := "ORD-2024-002", status := Shipped,
      items := [CartItem(P[1], 1)],
      subtotal := 22000000, deliveryFee := 50000, totalPrice := 22050000,
      address := 0, paymentMethod := CashOnDelivery,
      createdAt := "2024-11-20T14:20:00Z",
      confirmedAt := Some("2024-11-20T15:00:00Z"),
      shippedAt := Some("2024-11-21T10:00:00Z"),
      deliveredAt := None,
      cancelledAt := None,
      trackingCode := Some("TRK-87654321"),
      notes := None),
    Order(
      id := "3", orderNumber := "ORD-2024-003", status := Preparing,
      items := [CartItem(P[3], 2), CartItem(P[4], 1)],
      subtotal := 7400000, deliveryFee := 50000, totalPrice := 7450000,
      address := 1, paymentMethod := Online,
      createdAt := "2024-11-22T09:15:00Z",
      confirmedAt := Some("2024-11-22T10:00:00Z"),
      shippedAt := None,
      deliveredAt := None,
      cancelledAt := None,
      trackingCode := None,
      notes := None),
    Order(
      id := "4", orderNumber := "ORD-2024-004", status := Confirmed,
      items := [CartItem(P[5], 1), CartItem(P[6], 1)],
      subtotal := 15700000, deliveryFee := 50000, totalPrice := 15750000,
      address := 0, paymentMethod := Online,
      createdAt := "2024-11-23T08:00:00Z",
      confirmedAt := Some("2024-11-23T08:30:00Z"),
      shippedAt := None,
      deliveredAt := None,
      cancelledAt := None,
      trackingCode := None,
      notes := None),
    Order(
      id := "5", orderNumber := "ORD-2024-005", status := Pending,
      items := [CartItem(P[7], 1)],
      subtotal := 18500000, deliveryFee := 50000, totalPrice := 18550000,
      address := 2, paymentMethod := CashOnDelivery,
      createdAt := "2024-11-23T11:00:00Z",
      confirmedAt := None,
      shippedAt := None,
      deliveredAt := None,
      cancelledAt := None,
      trackingCode := None,
      notes := None),
    Order(
      id := "6", orderNumber := "ORD-2024-006", status := Cancelled,
      items := [CartItem(P[0], 1)],
      subtotal := 15500000, deliveryFee := 50000, totalPrice := 15550000,
      address := 0, paymentMethod := Online,
      createdAt := "2024-11-10T16:00:00Z",
      confirmedAt := Some("2024-11-10T16:30:00Z"),
      shippedAt := None,
      deliveredAt := None,
      cancelledAt := Some("2024-11-11T10:00:00Z"),
      trackingCode := None,
      notes := Some("لغو شده به درخواست مشتری"))
  ]

  /** `createCartItem` finds every catalogue product by its id, since the ids are distinct. */
  lemma CreatesEveryProduct(k: int, quantity: int)
    requires 0 <= k < |P|
    ensures CreateCartItem(P[k].id, quantity) == Ok(CartItem(P[k], quantity))
  {
    CatalogueFacts();
    assert forall j :: 0 <= j < k ==> P[j].id[0] != P[k].id[0];
    FindFirst(P, P[k].id, k);
  }

  /** Each line item of the sample orders is what `createCartItem` builds for the product id and
      quantity the order lists. */
  lemma MockItemsAreCreated()
    ensures CreateCartItem("1", 1) == Ok(MockOrders[0].items[0])
    ensures CreateCartItem("3", 1) == Ok(MockOrders[0].items[1])
    ensures CreateCartItem("2", 1) == Ok(MockOrders[1].items[0])
    ensures CreateCartItem("4", 2) == Ok(MockOrders[2].items[0])
    ensures CreateCartItem("5", 1) == Ok(MockOrders[2].items[1])
    ensures CreateCartItem("6", 1) == Ok(MockOrders[3].items[0])
    ensures CreateCartItem("7", 1) == Ok(MockOrders[3].items[1])
    ensures CreateCartItem("8", 1) == Ok(MockOrders[4].items[0])
    ensures CreateCartItem("1", 1) == Ok(MockOrders[5].items[0])
  {
    CatalogueFacts();
    CreatesEveryProduct(0, 1);
    CreatesEveryProduct(2, 1);
    CreatesEveryProduct(1, 1);
    CreatesEveryProduct(3, 2);
    CreatesEveryProduct(4, 1);
    CreatesEveryProduct(5, 1);
    CreatesEveryProduct(6, 1);
    CreatesEveryProduct(7, 1);
  }

  /** The price total of one or two entries. */
  lemma TotalPriceOfFew(a: CartItem, b: CartItem)
    ensures TotalPrice([a]) == Amount(a)
    ensures TotalPrice([a, b]) == Amount(a) + Amount(b)
  {
    assert [a][..0] == [];
    assert [a, b][..1] == [a];
  }

  /** An order's amounts agree: the total is the subtotal plus the delivery fee, the subtotal
      is the price total of its items, and the fee is the cart page's fixed fee. */
  predicate Consistent(order: Order) {
    order.totalPrice == order.subtotal + order.deliveryFee &&
    order.subtotal == TotalPrice(order.items) &&
    order.deliveryFee == CartPage.DeliveryFee
  }

  /** Every sample order is consistent. */
  lemma MockOrdersConsistent()
    ensures forall i :: 0 <= i < |MockOrders| ==> Consistent(MockOrders[i])
  {
    CatalogueFacts();
    var o := MockOrders;
    TotalPriceOfFew(o[0].items[0], o[0].items[1]);
    TotalPriceOfFew(o[1].items[0], o[1].items[0]);
    TotalPriceOfFew(o[2].items[0], o[2].items[1]);
    TotalPriceOfFew(o[3].items[0], o[3].items[1]);
    TotalPriceOfFew(o[4].items[0], o[4].items[0]);
    TotalPriceOfFew(o[5].items[0], o[5].items[0]);
    assert Consistent(MockOrders[0]);
    assert Consistent(MockOrders[1]);
    assert Consistent(MockOrders[2]);
    assert Consistent(MockOrders[3]);
    assert Consistent(MockOrders[4]);
    assert Consistent(MockOrders[5]);
  }
}
