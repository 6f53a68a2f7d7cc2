/** The records of the storefront: catalogue products, cart entries, orders and navigation tabs. */
module Types {
  import opened Wrappers

  /** A catalogue product. Prices are whole toman; `rating` is the only fractional field. */
  datatype Product = Product(
    id: string,
    name: string,
    price: int,
    originalPrice: Option<int>,
    image: string,
    category: string,
    description: string,
    stock: int,
    discount: Option<int>,
    rating: Option<real>,
    reviewCount: Option<int>)

  /** A cart entry: every field of the product it was made from, plus a quantity. Spreading
      `{ ...item, quantity: q }` is `item.(quantity := q)`. */
  datatype CartItem = CartItem(product: Product, quantity: int) {
    function Id(): string { product.id }
  }

  datatype OrderStatus = Pending | Confirmed | Preparing | Shipped | Delivered | Cancelled

  /** The keys of `orderStatusMap`, in declaration order. */
  const AllStatuses: seq<OrderStatus> := [Pending, Confirmed, Preparing, Shipped, Delivered, Cancelled]

  datatype PaymentMethod = Online | CashOnDelivery

  /** An order. `address` indexes the address table, whose contents are not part of this model. */
  datatype Order = Order(
    id: string,
    orderNumber: string,
    status: OrderStatus,
    items: seq<CartItem>,
    subtotal: int,
    deliveryFee: int,
    totalPrice: int,
    address: nat,
    paymentMethod: PaymentMethod,
    createdAt: string,
    confirmedAt: Option<string>,
    shippedAt: Option<string>,
    deliveredAt: Option<string>,
    cancelledAt: Option<string>,
    trackingCode: Option<string>,
    notes: Option<string>)

  datatype NavigationTab = ProductsTab | CartTab | ProfileTab | OrdersTab

  datatype Province = Province(id: string, name: string, isActive: bool)

  datatype City = City(id: string, name: string, provinceId: string, isActive: bool)
}
