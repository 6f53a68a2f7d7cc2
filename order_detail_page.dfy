/** The order detail page. It declares its own order shape, with four statuses of its own
    (pending, processing, delivered, cancelled), and decides from the status which actions
    (cancel, return) it offers. */
module OrderDetailPage {
  import opened Wrappers
  import Types
  import CartContext
  import CartPage
  import OrdersData

  /** The page's own status set, distinct from the six statuses of the order history. */
  datatype LocalStatus = Pending | Processing | Delivered | Cancelled

  /** One line of the order. */
  datatype OrderLine = OrderLine(id: string, productName: string, productImage: string, quantity: int, price: int)

  /** The order as this page declares it. */
  datatype DetailOrder = DetailOrder(
    id: string,
    date: string,
    status: LocalStatus,
    items: seq<OrderLine>,
    totalPrice: int,
    deliveryFee: int,
    trackingCode: Option<string>)

  /** The status icon; the page draws a different one per status. */
  datatype Icon = ClockIcon | PackageIcon | CheckCircleIcon | XCircleIcon

  /** What `getStatusConfig` returns. */
  datatype StatusConfig = StatusConfig(icon: Icon, text: string, color: string, borderColor: string)

  /** `getStatusConfig(status)`: a configuration for each of the four statuses. */
  function GetStatusConfig(s: LocalStatus): StatusConfig {
    match s
    case Pending => StatusConfig(ClockIcon, "در انتظار پردازش", "bg-yellow-100 text-yellow-600", "border-yellow-200")
    case Processing => StatusConfig(PackageIcon, "در حال پردازش", "bg-blue-100 text-blue-600", "border-blue-200")
    case Delivered => StatusConfig(CheckCircleIcon, "تحویل داده شد", "bg-green-100 text-green-600", "border-green-200")
    case Cancelled => StatusConfig(XCircleIcon, "لغو شده", "bg-red-100 text-red-600", "border-red-200")
  }

  /** Different statuses get different configurations, each with its own icon and colours. */
  lemma StatusConfigInjective(s: LocalStatus, t: LocalStatus)
    ensures s != t ==> GetStatusConfig(s).icon != GetStatusConfig(t).icon
    ensures s != t ==> GetStatusConfig(s).color != GetStatusConfig(t).color
  {
    if s != t {
      assert GetStatusConfig(s).color[3] != GetStatusConfig(t).color[3];
    }
  }

  /** `canCancel`: the order can still be cancelled while pending or processing. */
  predicate CanCancel(s: LocalStatus) {
    s == Pending || s == Processing
  }

  /** `canReturn`: only a delivered order can be returned. */
  predicate CanReturn(s: LocalStatus) {
    s == Delivered
  }

  /** Cancel and return are never both offered, and a cancelled order is offered neither. */
  lemma ActionsExclusive(s: LocalStatus)
    ensures !(CanCancel(s) && CanReturn(s))
    ensures s == Cancelled ==> !CanCancel(s) && !CanReturn(s)
  {
  }

  /** The warning box and the bottom action bar appear when some action is offered. */
  predicate ShowActions(s: LocalStatus) {
    CanCancel(s) || CanReturn(s)
  }

  /** Some action is offered for every status except cancelled. */
  lemma ShowActionsIffNotCancelled(s: LocalStatus)
    ensures ShowActions(s) <==> s != Cancelled
  {
  }

  /** The delivery timeline card is drawn only for an order being processed. */
  predicate ShowDeliveryTimeline(s: LocalStatus) {
    s == Processing
  }

  /** An order whose delivery timeline is drawn can still be cancelled. */
  lemma TimelineOrderIsCancellable(s: LocalStatus)
    ensures ShowDeliveryTimeline(s) ==> CanCancel(s) && !CanReturn(s)
  {
  }

  /** The amount on a line: unit price times quantity. */
  function LineAmount(line: OrderLine): int {
    line.price * line.quantity
  }

  /** The line amounts the page lists, added up. */
  function LinesTotal(lines: seq<OrderLine>): (r: int)
    ensures (forall i :: 0 <= i < |lines| ==> lines[i].price >= 0 && lines[i].quantity >= 0) ==> r >= 0
  {
    if lines == [] then 0 else LineAmount(lines[0]) + LinesTotal(lines[1..])
  }

  /** The total in the price summary: the order's `totalPrice`, shown as the products' total,
      with the delivery fee added on top. */
  function GrandTotal(order: DetailOrder): (r: int)
    ensures order.totalPrice == LinesTotal(order.items) ==> r == LinesTotal(order.items) + order.deliveryFee
  {
    order.totalPrice + order.deliveryFee
  }

  /** A cart entry as a line of this page: the product's id, name, image and unit price, and the
      entry's quantity. */
  function LineOf(item: Types.CartItem): (l: OrderLine)
    ensures LineAmount(l) == CartContext.Amount(item)
  {
    OrderLine(item.product.id, item.product.name, item.product.image, item.quantity, item.product.price)
  }

  function LinesOf(items: seq<Types.CartItem>): (r: seq<OrderLine>)
    ensures |r| == |items|
    ensures forall i :: 0 <= i < |items| ==> r[i] == LineOf(items[i])
  {
    if items == [] then [] else [LineOf(items[0])] + LinesOf(items[1..])
  }

  /** The lines made from cart entries add up to the cart's price total. */
  lemma {:induction false} LinesOfTotal(items: seq<Types.CartItem>)
    ensures LinesTotal(LinesOf(items)) == CartContext.TotalPrice(items)
  {
    if items != [] {
      LinesOfTotal(items[1..]);
      CartContext.TotalsConcat([items[0]], items[1..]);
      assert [items[0]] + items[1..] == items;
      assert [items[0]][..0] == [];
      assert LinesOf(items)[1..] == LinesOf(items[1..]);
    }
  }

  /** The order this page expects for a cart being checked out: `totalPrice` is the products'
      total and the fee is the cart page's. */
  function CheckoutOrder(id: string, date: string, items: seq<Types.CartItem>): DetailOrder {
    DetailOrder(id, date, Pending, LinesOf(items), CartContext.TotalPrice(items), CartPage.DeliveryFee, None)
  }

  /** For a non-empty cart, the grand total of its order is what the cart page asked to pay,
      and the listed lines add up to the products' total. */
  lemma CheckoutGrandTotalIsFinalPrice(id: string, date: string, items: seq<Types.CartItem>)
    requires items != []
    ensures LinesTotal(CheckoutOrder(id, date, items).items) == CheckoutOrder(id, date, items).totalPrice
    ensures GrandTotal(CheckoutOrder(id, date, items)) == CartPage.FinalPrice(items)
  {
    LinesOfTotal(items);
  }

  /** An order of the history (`types/order.ts`) shown here as is, with its status mapped: its
      `totalPrice` already includes the fee. */
  function DetailOf(o: Types.Order, status: LocalStatus): DetailOrder {
    DetailOrder(o.id, o.createdAt, status, LinesOf(o.items), o.totalPrice, o.deliveryFee, o.trackingCode)
  }

  /** Such an order's lines still add up to its subtotal, but the grand total counts the
      delivery fee twice: subtotal plus two fees, one fee above the amount actually charged. */
  lemma HistoryOrderFeeCountedTwice(o: Types.Order, status: LocalStatus)
    requires OrdersData.Consistent(o)
    ensures LinesTotal(DetailOf(o, status).items) == o.subtotal
    ensures GrandTotal(DetailOf(o, status)) == o.subtotal + 2 * CartPage.DeliveryFee
    ensures GrandTotal(DetailOf(o, status)) == o.totalPrice + CartPage.DeliveryFee
  {
    LinesOfTotal(o.items);
  }

  /** The page's modal state for one order. */
  class OrderDetailState {
    const order: DetailOrder
    var showCancelModal: bool
    var showReturnModal: bool
    var cancelReason: string
    var returnReason: string

    constructor (order: DetailOrder)
      ensures this.order == order
      ensures !showCancelModal && !showReturnModal && cancelReason == "" && returnReason == ""
    {
      this.order := order;
      showCancelModal := false;
      showReturnModal := false;
      cancelReason := "";
      returnReason := "";
    }

    /** The cancel button, drawn only for a cancellable order, opens the cancel dialog. */
    method OpenCancel()
      requires CanCancel(order.status)
      modifies this
      ensures showCancelModal
      ensures showReturnModal == old(showReturnModal)
      ensures cancelReason == old(cancelReason) && returnReason == old(returnReason)
    {
      showCancelModal := true;
    }

    /** Typing in the cancel dialog's text area. */
    method EditCancelReason(text: string)
      modifies this
      ensures cancelReason == text
      ensures showCancelModal == old(showCancelModal) && showReturnModal == old(showReturnModal)
      ensures returnReason == old(returnReason)
    {
      cancelReason := text;
    }

    /** `handleCancelOrder`: the dialog closes and the reason is cleared. */
    method HandleCancelOrder()
      modifies this
      ensures !showCancelModal && cancelReason == ""
      ensures showReturnModal == old(showReturnModal) && returnReason == old(returnReason)
    {
      showCancelModal := false;
      cancelReason := "";
    }

    /** Dismissing the cancel dialog closes it and keeps the reason typed so far. */
    method DismissCancel()
      modifies this
      ensures !showCancelModal
      ensures showReturnModal == old(showReturnModal)
      ensures cancelReason == old(cancelReason) && returnReason == old(returnReason)
    {
      showCancelModal := false;
    }

    /** The return button, drawn only for a delivered order, opens the return dialog. */
    method OpenReturn()
      requires CanReturn(order.status)
      modifies this
      ensures showReturnModal
      ensures showCancelModal == old(showCancelModal)
      ensures cancelReason == old(cancelReason) && returnReason == old(returnReason)
    {
      showReturnModal := true;
    }

    /** Typing in the return dialog's text area. */
    method EditReturnReason(text: string)
      modifies this
      ensures returnReason == text
      ensures showCancelModal == old(showCancelModal) && showReturnModal == old(showReturnModal)
      ensures cancelReason == old(cancelReason)
    {
      returnReason := text;
    }

    /** `handleReturnOrder`: the dialog closes and the reason is cleared; an empty reason is
        accepted too, since nothing checks the field. */
    method HandleReturnOrder()
      modifies this
      ensures !showReturnModal && returnReason == ""
      ensures showCancelModal == old(showCancelModal) && cancelReason == old(cancelReason)
    {
      showReturnModal := false;
      returnReason := "";
    }

    /** Dismissing the return dialog closes it and keeps the reason typed so far. */
    method DismissReturn()
      modifies this
      ensures !showReturnModal
      ensures showCancelModal == old(showCancelModal)
      ensures cancelReason == old(cancelReason) && returnReason == old(returnReason)
    {
      showReturnModal := false;
    }
  }
}
