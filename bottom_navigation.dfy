/** The bottom tab bar: four tabs in a fixed order, the active one highlighted, and a count
    badge on the cart tab. */
module BottomNavigation {
  import opened Types
  import opened Text

  /** One tab: its id and its caption. */
  datatype NavigationItem = NavigationItem(id: NavigationTab, title: string)

  /** `navigationItems`: products, cart, orders, profile. */
  const NavigationItems: seq<NavigationItem> := [
    NavigationItem(ProductsTab, "محصولات"),
    NavigationItem(CartTab, "سبد خرید"),
    NavigationItem(OrdersTab, "سفارشات"),
    NavigationItem(ProfileTab, "پروفایل")
  ]

  /** Every tab appears exactly once. */
  lemma EveryTabOnce(tab: NavigationTab)
    ensures exists i :: 0 <= i < |NavigationItems| && NavigationItems[i].id == tab
    ensures forall i, j :: 0 <= i < j < |NavigationItems| ==> NavigationItems[i].id != NavigationItems[j].id
  {
    var ids := [ProductsTab, CartTab, OrdersTab, ProfileTab];
    assert forall i :: 0 <= i < 4 ==> NavigationItems[i].id == ids[i];
    assert tab in ids;
  }

  /** `showBadge`: only on the cart tab, and only with something in the cart. */
  predicate ShowBadge(item: NavigationItem, totalItems: int) {
    item.id == CartTab && totalItems > 0
  }

  /** `totalItems > 99 ? '99+' : totalItems`. */
  function BadgeText(totalItems: int): (r: string)
    ensures r == "99+" <==> totalItems > 99
  {
    if totalItems > 99 then "99+" else ToDecimal(totalItems)
  }

  /** Up to 99 the badge reads as the exact count. */
  lemma BadgeShowsCount(totalItems: int)
    requires totalItems <= 99
    ensures BadgeText(totalItems) == ToDecimal(totalItems)
    ensures ParseDecimal(BadgeText(totalItems)) == totalItems
  {
    DecimalRoundTrip(totalItems);
  }

  /** A shown badge is one to three characters long. */
  lemma BadgeIsShort(item: NavigationItem, totalItems: int)
    requires ShowBadge(item, totalItems)
    ensures 1 <= |BadgeText(totalItems)| <= 3
  {
  }

  /** The tab drawn as active: the one whose id is `activeTab`. */
  predicate IsActive(item: NavigationItem, activeTab: NavigationTab) {
    item.id == activeTab
  }

  /** Whatever the active tab, exactly one tab in the bar is drawn active. */
  lemma ExactlyOneActive(activeTab: NavigationTab)
    ensures exists i :: 0 <= i < |NavigationItems| && IsActive(NavigationItems[i], activeTab) &&
              forall j :: 0 <= j < |NavigationItems| && j != i ==> !IsActive(NavigationItems[j], activeTab)
  {
    EveryTabOnce(activeTab);
  }

  /** The id handed to `onTabChange` when a tab is clicked. */
  function TabClick(item: NavigationItem): (r: NavigationTab)
    ensures IsActive(item, r)
  {
    item.id
  }

  /** Once the clicked tab's id becomes the active tab, that tab and no other is drawn active. */
  lemma ClickedTabBecomesActive(i: int)
    requires 0 <= i < |NavigationItems|
    ensures forall j :: 0 <= j < |NavigationItems| ==>
              (IsActive(NavigationItems[j], TabClick(NavigationItems[i])) <==> j == i)
  {
    EveryTabOnce(NavigationItems[i].id);
  }
}
