/** The order history page: the status filter and its per-status counts, the five-step order
    timeline (or the cancellation notice), and the order detail drawer. */
module OrdersPage {
  import opened Wrappers
  import opened Seqs
  import opened Types
  import OrdersData

  /** The selected filter: every order, or one status. */
  datatype StatusFilter = AllOrders | Only(status: OrderStatus)

  /** The predicate `order.status === s`. */
  function WithStatus(s: OrderStatus): Order -> bool {
    (order: Order) => order.status == s
  }

  /** The filter's test: `selectedStatus === 'all' || order.status === selectedStatus`. */
  function Keeps(f: StatusFilter): Order -> bool {
    match f
    case AllOrders => (order: Order) => true
    case Only(s) => WithStatus(s)
  }

  /** `filteredOrders`: the orders the filter keeps, in their original order. */
  function FilteredOrders(orders: seq<Order>, f: StatusFilter): (r: seq<Order>)
    ensures IsSubsequence(r, orders)
    ensures f.AllOrders? ==> r == orders
  {
    Filter(Keeps(f), orders)
  }

  /** With one status selected, an order is listed exactly when it is one of the orders and has
      that status. */
  lemma FilteredByStatus(orders: seq<Order>, s: OrderStatus)
    ensures forall i :: 0 <= i < |FilteredOrders(orders, Only(s))| ==>
              FilteredOrders(orders, Only(s))[i] in orders &&
              FilteredOrders(orders, Only(s))[i].status == s
    ensures forall i :: 0 <= i < |orders| && orders[i].status == s ==>
              orders[i] in FilteredOrders(orders, Only(s))
  {
    FilterMembership(WithStatus(s), orders);
  }

  /** `statusCounts[s]`: how many orders have status `s`. */
  function StatusCount(orders: seq<Order>, s: OrderStatus): (r: nat)
    ensures r <= |orders|
  {
    |Filter(WithStatus(s), orders)|
  }

  /** The count shown beside a filter button: every order for "all", else the status count. */
  function CountOf(orders: seq<Order>, f: StatusFilter): (r: nat)
    ensures f.AllOrders? ==> r == |orders|
  {
    match f
    case AllOrders => |orders|
    case Only(s) => StatusCount(orders, s)
  }

  /** Whatever is selected, the count beside it is the length of the list shown. */
  lemma CountIsListedLength(orders: seq<Order>, f: StatusFilter)
    ensures CountOf(orders, f) == |FilteredOrders(orders, f)|
  {
  }

  /** The six status counts add up to the count of all orders: every order has exactly one of
      the six statuses. */
  lemma {:induction false} StatusCountsSum(orders: seq<Order>)
    ensures StatusCount(orders, Pending) + StatusCount(orders, Confirmed) +
            StatusCount(orders, Preparing) + StatusCount(orders, Shipped) +
            StatusCount(orders, Delivered) + StatusCount(orders, Cancelled) == |orders|
  {
    if orders != [] {
      StatusCountsSum(orders[1..]);
    }
  }

  /** Every status occurs in the sample history. */
  lemma MockHasEveryStatus(s: OrderStatus)
    ensures StatusCount(OrdersData.MockOrders, s) >= 1
  {
    var o := OrdersData.MockOrders;
    assert o[0].status == Delivered && o[1].status == Shipped && o[2].status == Preparing;
    assert o[3].status == Confirmed && o[4].status == Pending && o[5].status == Cancelled;
    FilterMembership(WithStatus(s), o);
  }

  /** The sample history holds six orders, one of each status. */
  lemma MockCountsAreOne(s: OrderStatus)
    ensures StatusCount(OrdersData.MockOrders, s) == 1
  {
    var o := OrdersData.MockOrders;
    MockHasEveryStatus(Pending);
    MockHasEveryStatus(Confirmed);
    MockHasEveryStatus(Preparing);
    MockHasEveryStatus(Shipped);
    MockHasEveryStatus(Delivered);
    MockHasEveryStatus(Cancelled);
    StatusCountsSum(o);
  }

  /** The page shows its "no orders yet" screen only for an empty history, and its "nothing
      found" message when the filter keeps nothing. */
  predicate ShowEmptyHistory(orders: seq<Order>) {
    |orders| == 0
  }

  predicate ShowNoMatch(orders: seq<Order>, f: StatusFilter) {
    |FilteredOrders(orders, f)| == 0
  }

  /** With "all" selected, a history that has orders never shows "nothing found". */
  lemma AllFilterFindsSomething(orders: seq<Order>)
    requires !ShowEmptyHistory(orders)
    ensures !ShowNoMatch(orders, AllOrders)
  {
  }

  /** The chip naming the selected status is shown whenever a single status is selected. */
  predicate ShowFilterChip(f: StatusFilter) {
    f.Only?
  }

  /** One entry of `orderStatusMap`. */
  datatype StatusInfo = StatusInfo(title: string, color: string, bgColor: string, icon: string)

  /** `orderStatusMap[s]`. */
  function StatusInfoOf(s: OrderStatus): StatusInfo {
    match s
    case Pending => StatusInfo("در انتظار تایید", "text-yellow-600", "bg-yellow-100", "⏱️")
    case Confirmed => StatusInfo("تایید شده", "text-blue-600", "bg-blue-100", "✅")
    case Preparing => StatusInfo("در حال آماده‌سازی", "text-purple-600", "bg-purple-100", "📦")
    case Shipped => StatusInfo("ارسال شده", "text-indigo-600", "bg-indigo-100", "🚚")
    case Delivered => StatusInfo("تحویل داده شده", "text-green-600", "bg-green-100", "✓")
    case Cancelled => StatusInfo("لغو شده", "text-red-600", "bg-red-100", "✕")
  }

  /** Different statuses get different badges: the map is one-to-one. */
  lemma StatusInfoInjective(s: OrderStatus, t: OrderStatus)
    ensures s != t ==> StatusInfoOf(s) != StatusInfoOf(t)
  {
    if s != t {
      assert StatusInfoOf(s).color[5] != StatusInfoOf(t).color[5];
    }
  }

  /** `statusOrder`: the five statuses of the delivery path, in order. */
  const StatusOrder: seq<OrderStatus> := [Pending, Confirmed, Preparing, Shipped, Delivered]

  /** `currentIndex`: the position of the order's status on the delivery path, -1 for a status
      that is not on it. */
  function CurrentIndex(order: Order): (r: int)
    ensures -1 <= r < |StatusOrder|
  {
    IndexOf(StatusOrder, order.status)
  }

  /** Every status except cancelled is on the path, at its own position. */
  lemma CurrentIndexCases(order: Order)
    ensures CurrentIndex(order) == -1 <==> order.status == Cancelled
    ensures CurrentIndex(order) != -1 ==> StatusOrder[CurrentIndex(order)] == order.status
  {
  }

  /** One timeline step: its title and the date the order records for it. */
  datatype Step = Step(key: OrderStatus, title: string, date: Option<string>)

  /** `steps`: the preparing step shows the order's creation date, like the first step. */
  function Steps(order: Order): (r: seq<Step>)
    ensures |r| == |StatusOrder|
    ensures forall i :: 0 <= i < |r| ==> r[i].key == StatusOrder[i]
  {
    [ Step(Pending, "ثبت سفارش", Some(order.createdAt)),
      Step(Confirmed, "تایید شده", order.confirmedAt),
      Step(Preparing, "آماده‌سازی", Some(order.createdAt)),
      Step(Shipped, "ارسال شده", order.shippedAt),
      Step(Delivered, "تحویل داده شده", order.deliveredAt) ]
  }

  /** The preparing step reuses the creation date rather than a date of its own. */
  lemma PreparingStepShowsCreatedAt(order: Order)
    ensures Steps(order)[2].key == Preparing && Steps(order)[2].date == Some(order.createdAt)
    ensures Steps(order)[2].date == Steps(order)[0].date
  {
  }

  /** JavaScript truthiness of an optional string: present and not empty. */
  predicate Truthy(v: Option<string>) {
    v.Some? && v.value != ""
  }

  /** One rendered step: its title, whether it is ticked, whether it is ringed as the current
      step, and the date printed under it. */
  datatype StepView = StepView(title: string, completed: bool, current: bool, shownDate: Option<string>)

  /** What `OrderTimeline` renders: for a cancelled order a notice with the cancellation date and
      the notes when those are truthy, otherwise the five steps. */
  datatype Timeline =
    | CancelledNotice(cancelledAt: Option<string>, notes: Option<string>)
    | StepsView(steps: seq<StepView>)

  /** A step's rendering: completed at or before the current index, current at it, and its date
      printed when it is truthy and the step is completed. */
  function ViewStep(step: Step, index: int, current: int): StepView {
    StepView(step.title, index <= current, index == current,
             if Truthy(step.date) && index <= current then step.date else None)
  }

  function OrderTimeline(order: Order): (r: Timeline)
    ensures r.CancelledNotice? <==> order.status == Cancelled
    ensures r.StepsView? ==> |r.steps| == |StatusOrder|
  {
    if order.status == Cancelled then
      CancelledNotice(if Truthy(order.cancelledAt) then order.cancelledAt else None,
                      if Truthy(order.notes) then order.notes else None)
    else
      var steps := Steps(order);
      var current := CurrentIndex(order);
      StepsView(seq(|steps|, i requires 0 <= i < |steps| => ViewStep(steps[i], i, current)))
  }

  /** The cancellation notice prints the date and the notes exactly when they are truthy. */
  lemma CancelledNoticeShowsTruthy(order: Order)
    requires order.status == Cancelled
    ensures OrderTimeline(order).cancelledAt.Some? <==> Truthy(order.cancelledAt)
    ensures OrderTimeline(order).notes.Some? <==> Truthy(order.notes)
    ensures OrderTimeline(order).cancelledAt.Some? ==> OrderTimeline(order).cancelledAt == order.cancelledAt
    ensures OrderTimeline(order).notes.Some? ==> OrderTimeline(order).notes == order.notes
  {
  }

  /** For an order on the delivery path, the ticked steps are exactly those up to its status,
      and exactly one step, the one of its status, is current. */
  lemma TimelineProgress(order: Order)
    requires order.status != Cancelled
    ensures 0 <= CurrentIndex(order) < |StatusOrder|
    ensures forall i :: 0 <= i < |OrderTimeline(order).steps| ==>
              (OrderTimeline(order).steps[i].completed <==> i <= CurrentIndex(order))
    ensures forall i :: 0 <= i < |OrderTimeline(order).steps| ==>
              (OrderTimeline(order).steps[i].current <==> StatusOrder[i] == order.status)
  {
    CurrentIndexCases(order);
  }

  /** A date is printed under a step only when the step is ticked and the order has a truthy
      date for it, and then it is that date. */
  lemma StepDateShownOnlyWhenCompleted(order: Order, i: int)
    requires order.status != Cancelled && 0 <= i < |StatusOrder|
    ensures OrderTimeline(order).steps[i].shownDate.Some? <==>
              OrderTimeline(order).steps[i].completed && Truthy(Steps(order)[i].date)
    ensures OrderTimeline(order).steps[i].shownDate.Some? ==>
              OrderTimeline(order).steps[i].shownDate == Steps(order)[i].date
  {
  }

  /** The page's state: the selected filter, the filter drawer, and the order detail drawer with
      the order it shows. */
  class OrdersPageState {
    var selectedStatus: StatusFilter
    var isFilterOpen: bool
    var selectedOrder: Option<Order>
    var isOrderDetailOpen: bool

    constructor ()
      ensures selectedStatus == AllOrders && !isFilterOpen
      ensures selectedOrder == None && !isOrderDetailOpen
    {
      selectedStatus := AllOrders;
      isFilterOpen := false;
      selectedOrder := None;
      isOrderDetailOpen := false;
    }

    /** The orders listed for the current filter. */
    function Listed(): (r: seq<Order>)
      reads this
      ensures IsSubsequence(r, OrdersData.MockOrders)
    {
      FilteredOrders(OrdersData.MockOrders, selectedStatus)
    }

    /** The header's filter button opens the drawer. */
    method OpenFilter()
      modifies this
      ensures isFilterOpen
      ensures selectedStatus == old(selectedStatus)
      ensures selectedOrder == old(selectedOrder) && isOrderDetailOpen == old(isOrderDetailOpen)
    {
      isFilterOpen := true;
    }

    /** Dismissing the filter drawer closes it and keeps the filter. */
    method CloseFilter()
      modifies this
      ensures !isFilterOpen
      ensures selectedStatus == old(selectedStatus)
      ensures selectedOrder == old(selectedOrder) && isOrderDetailOpen == old(isOrderDetailOpen)
    {
      isFilterOpen := false;
    }

    /** A button in the filter drawer ("all" or one status) selects its filter and closes the
        drawer; the list then shows what that filter keeps. */
    method SelectFilter(f: StatusFilter)
      modifies this
      ensures selectedStatus == f && !isFilterOpen
      ensures Listed() == FilteredOrders(OrdersData.MockOrders, f)
      ensures selectedOrder == old(selectedOrder) && isOrderDetailOpen == old(isOrderDetailOpen)
    {
      selectedStatus := f;
      isFilterOpen := false;
    }

    /** The cross on the filter chip goes back to every order. */
    method ClearFilterChip()
      modifies this
      ensures selectedStatus == AllOrders && Listed() == OrdersData.MockOrders
      ensures isFilterOpen == old(isFilterOpen)
      ensures selectedOrder == old(selectedOrder) && isOrderDetailOpen == old(isOrderDetailOpen)
    {
      selectedStatus := AllOrders;
    }

    /** `handleOrderClick`: remember the order and open the detail drawer. */
    method HandleOrderClick(order: Order)
      modifies this
      ensures selectedOrder == Some(order) && isOrderDetailOpen
      ensures selectedStatus == old(selectedStatus) && isFilterOpen == old(isFilterOpen)
    {
      selectedOrder := Some(order);
      isOrderDetailOpen := true;
    }

    /** Closing the detail drawer closes it and forgets the order. */
    method CloseOrderDetail()
      modifies this
      ensures selectedOrder == None && !isOrderDetailOpen
      ensures selectedStatus == old(selectedStatus) && isFilterOpen == old(isFilterOpen)
    {
      isOrderDetailOpen := false;
      selectedOrder := None;
    }
  }
}
