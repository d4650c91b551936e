/**
 * The order list screen (src/screens/OrdersScreen.tsx): the filter tabs and their counts, the
 * status routing switch, the drop-off marker rule, and the local updates that the accept,
 * decline and update-status handlers make to the `orders` state.
 */
module OrdersScreen {
  import opened Wrappers
  import opened Orders
  import opened Seqs
  import opened Navigation
  import Api

  /** The courier whose orders the screen loads (line 37). */
  const CourierName: string := "Judas"

  datatype FilterType = Pending | Active | Complete | Other

  /** The status test that each filter tab applies to the list (lines 162-179). */
  predicate InFilter(f: FilterType, s: OrderStatus)
  {
    match f
    case Pending => Is(s, "ReadyForPickup")
    case Active => OneOf(s, ["Assigned", "Pickup", "OnTheWay"])
    case Complete => OneOf(s, ["Completed", "Delivered"])
    case Other => OneOf(s, ["Cancelled", "DeliveryFailed"])
  }

  /** The tab a status belongs to, by cases on the status: an independent statement of the tabs. */
  function TabOf(s: OrderStatus): Option<FilterType>
  {
    match s
    case ReadyForPickup => Some(Pending)
    case Assigned => Some(Active)
    case Pickup => Some(Active)
    case OnTheWay => Some(Active)
    case Delivered => Some(Complete)
    case Completed => Some(Complete)
    case Cancelled => Some(Other)
    case DeliveryFailed => Some(Other)
    case Unrecognized(_) => None
    case Undefined => None
  }

  /**
   * The filter tests agree with `TabOf`: every declared status lies in exactly one filter
   * and an unrecognized or missing status in none.
   */
  lemma InFilterIsTabOf(f: FilterType, s: OrderStatus)
    ensures InFilter(f, s) <==> TabOf(s) == Some(f)
    ensures TabOf(s).Some? <==> Declared(s)
  {
  }

  /** `getFilteredOrders()` for the given active filter. */
  function FilteredOrders(f: FilterType, orders: seq<Order>): (r: seq<Order>)
    ensures SubsequenceOf(r, orders)
    ensures forall i :: 0 <= i < |r| ==> TabOf(r[i].orderStatus) == Some(f)
  {
    var r := Filter(orders, (o: Order) => InFilter(f, o.orderStatus));
    assert forall i :: 0 <= i < |r| ==> InFilter(f, r[i].orderStatus);
    forall i | 0 <= i < |r| ensures TabOf(r[i].orderStatus) == Some(f) {
      InFilterIsTabOf(f, r[i].orderStatus);
    }
    r
  }

  /** An order is listed under a tab exactly when it is in the list and its status belongs to that tab. */
  lemma FilteredOrdersExact(f: FilterType, orders: seq<Order>, o: Order)
    ensures o in FilteredOrders(f, orders) <==> o in orders && TabOf(o.orderStatus) == Some(f)
  {
    FilterMembership(orders, (o: Order) => InFilter(f, o.orderStatus), o);
    InFilterIsTabOf(f, o.orderStatus);
  }

  /** The status test behind each badge count (lines 215-229); 'Complete' tests only 'Completed'. */
  predicate CountedIn(f: FilterType, s: OrderStatus)
  {
    match f
    case Pending => Is(s, "ReadyForPickup")
    case Active => OneOf(s, ["Assigned", "Pickup", "OnTheWay"])
    case Complete => Is(s, "Completed")
    case Other => OneOf(s, ["Cancelled", "DeliveryFailed"])
  }

  /**
   * `getFilterCount(filter)` (lines 215-229): the orders whose status the tab's badge counts; never
   * more than the orders, and none for an empty list.
   */
  function FilterCount(f: FilterType, orders: seq<Order>): (n: nat)
    ensures n <= |orders|
    ensures orders == [] ==> n == 0
  {
    Count(orders, (o: Order) => CountedIn(f, o.orderStatus))
  }

  /** The number of orders that have the given status. */
  function CountStatus(orders: seq<Order>, s: OrderStatus): nat
  {
    Count(orders, (o: Order) => o.orderStatus == s)
  }

  /**
   * The badge count equals the number of listed orders for Pending, Active and Other; for
   * Complete it misses the Delivered orders, which the list itself shows.
   */
  lemma FilterCountVersusList(f: FilterType, orders: seq<Order>)
    ensures f != Complete ==> FilterCount(f, orders) == |FilteredOrders(f, orders)|
    ensures f == Complete ==>
      FilterCount(f, orders) + CountStatus(orders, Delivered) == |FilteredOrders(f, orders)|
    ensures FilterCount(f, orders) <= |FilteredOrders(f, orders)|
  {
    var listed := (o: Order) => InFilter(f, o.orderStatus);
    var counted := (o: Order) => CountedIn(f, o.orderStatus);
    if f != Complete {
      FilterExtensional(orders, counted, listed);
    } else {
      var delivered := (o: Order) => o.orderStatus == Delivered;
      forall o: Order ensures listed(o) == (counted(o) || delivered(o)) {
        IsDeclared(o.orderStatus, Delivered);
        IsDeclared(o.orderStatus, Completed);
      }
      forall o: Order ensures !(counted(o) && delivered(o)) {
        IsDeclared(o.orderStatus, Completed);
      }
      FilterDisjointUnion(orders, counted, delivered, listed);
    }
  }

  /** The four lists together hold every order whose status is declared, each exactly once. */
  lemma {:induction false} FiltersPartition(orders: seq<Order>)
    ensures |FilteredOrders(Pending, orders)| + |FilteredOrders(Active, orders)|
          + |FilteredOrders(Complete, orders)| + |FilteredOrders(Other, orders)|
         == Count(orders, (o: Order) => Declared(o.orderStatus))
  {
    if orders != [] {
      FiltersPartition(orders[1..]);
      var s := orders[0].orderStatus;
      InFilterIsTabOf(Pending, s);
      InFilterIsTabOf(Active, s);
      InFilterIsTabOf(Complete, s);
      InFilterIsTabOf(Other, s);
    }
  }

  /** With only declared statuses, the list lengths of the four tabs sum to the number of orders. */
  lemma FiltersCoverDeclared(orders: seq<Order>)
    requires forall i :: 0 <= i < |orders| ==> Declared(orders[i].orderStatus)
    ensures |FilteredOrders(Pending, orders)| + |FilteredOrders(Active, orders)|
          + |FilteredOrders(Complete, orders)| + |FilteredOrders(Other, orders)| == |orders|
  {
    FiltersPartition(orders);
    FilterAll(orders, (o: Order) => Declared(o.orderStatus));
  }

  /**
   * `navigateBasedOnStatus(order)`'s switch: `None` selects the order (the accept/decline
   * prompt), `Some(screen)` navigates there with the order (lines 349-378).
   */
  function RouteFor(s: OrderStatus): (r: Option<Screen>)
    ensures r.None? <==> s == ReadyForPickup
    ensures !Declared(s) ==> r == Some(OrderDetailsScreen)
    ensures r == Some(OrderCompleteScreen) <==> s == Delivered
    ensures r == Some(OrderReceipt) <==> s == Completed
  {
    if Is(s, "ReadyForPickup") then None
    else if Is(s, "Assigned") then Some(OrderDetailsScreen)
    else if Is(s, "Pickup") then Some(OrderStartScreen)
    else if Is(s, "OnTheWay") then Some(OrderDropoffScreen)
    else if Is(s, "Delivered") then Some(OrderCompleteScreen)
    else if Is(s, "Completed") then Some(OrderReceipt)
    else Some(OrderDetailsScreen)
  }

  /** The routing table, status by status. */
  lemma RouteTable()
    ensures RouteFor(ReadyForPickup) == None
    ensures RouteFor(Assigned) == Some(OrderDetailsScreen)
    ensures RouteFor(Pickup) == Some(OrderStartScreen)
    ensures RouteFor(OnTheWay) == Some(OrderDropoffScreen)
    ensures RouteFor(Delivered) == Some(OrderCompleteScreen)
    ensures RouteFor(Completed) == Some(OrderReceipt)
    ensures RouteFor(Cancelled) == Some(OrderDetailsScreen)
    ensures RouteFor(DeliveryFailed) == Some(OrderDetailsScreen)
  {
  }

  /**
   * Whether the map shows a drop-off marker for an order (lines 301-304): for every declared
   * status except ReadyForPickup and Cancelled, and for no other status.
   */
  predicate ShowsDropoffMarker(s: OrderStatus)
    ensures ShowsDropoffMarker(s) <==> Declared(s) && s != ReadyForPickup && s != Cancelled
  {
    OneOf(s, ["Assigned", "Pickup", "OnTheWay", "Delivered", "DeliveryFailed", "Completed"])
  }

  /** `orders.find(o => o.id === id)`: the first order with that id. */
  function FindById(orders: seq<Order>, id: string): (r: Option<Order>)
    ensures r.Some? <==> exists i :: 0 <= i < |orders| && orders[i].id == id
    ensures r.Some? ==> exists i :: 0 <= i < |orders| && orders[i] == r.value && r.value.id == id
                          && forall j :: 0 <= j < i ==> orders[j].id != id
  {
    if orders == [] then None
    else if orders[0].id == id then Some(orders[0])
    else
      var r := FindById(orders[1..], id);
      assert r.Some? ==> exists i :: 1 <= i < |orders| && orders[i] == r.value && r.value.id == id
                            && forall j :: 0 <= j < i ==> orders[j].id != id by {
        if r.Some? {
          var k :| 0 <= k < |orders| - 1 && orders[1..][k] == r.value && r.value.id == id
                   && forall j :: 0 <= j < k ==> orders[1..][j].id != id;
          assert orders[k + 1] == r.value;
        }
      }
      r
  }

  /** `orders.map(o => o.id === id ? { ...o, orderStatus: s } : o)`. */
  function MarkStatus(orders: seq<Order>, id: string, s: OrderStatus): (r: seq<Order>)
    ensures |r| == |orders|
    ensures forall i :: 0 <= i < |orders| && orders[i].id != id ==> r[i] == orders[i]
    ensures forall i :: 0 <= i < |orders| && orders[i].id == id ==> r[i] == orders[i].(orderStatus := s)
  {
    if orders == [] then []
    else [if orders[0].id == id then orders[0].(orderStatus := s) else orders[0]]
         + MarkStatus(orders[1..], id, s)
  }

  /** `orders.map(o => o.id === id ? { ...o, status: s } : o)`: writes the stray `status` property. */
  function MarkStatusField(orders: seq<Order>, id: string, s: OrderStatus): (r: seq<Order>)
    ensures |r| == |orders|
    ensures forall i :: 0 <= i < |orders| ==> r[i].orderStatus == orders[i].orderStatus && r[i].id == orders[i].id
    ensures forall i :: 0 <= i < |orders| && orders[i].id == id ==> r[i] == orders[i].(status := Some(s))
    ensures forall i :: 0 <= i < |orders| && orders[i].id != id ==> r[i] == orders[i]
  {
    if orders == [] then []
    else [if orders[0].id == id then orders[0].(status := Some(s)) else orders[0]]
         + MarkStatusField(orders[1..], id, s)
  }

  /** Marking an id that no order carries leaves the list as it was. */
  lemma MarkStatusAbsent(orders: seq<Order>, id: string, s: OrderStatus)
    requires forall i :: 0 <= i < |orders| ==> orders[i].id != id
    ensures MarkStatus(orders, id, s) == orders
  {
  }

  /** The PATCH an accept or decline sends: the order id, the new status and the event time. */
  datatype StatusPatch = StatusPatch(orderId: string, orderStatus: OrderStatus, time: int)

  /** What a handler asks of the outside world besides changing screen state. */
  datatype Effects = Effects(request: Option<StatusPatch>, navigate: Option<Navigate>, alert: Option<string>)

  const NoEffects := Effects(None, None, None)

  class OrdersScreenState {
    var orders: seq<Order>
    var activeFilter: FilterType
    var selectedOrderId: Option<string>

    /** The initial state: no orders, the Pending tab, no order selected (lines 34, 38, 44). */
    constructor ()
      ensures orders == [] && activeFilter == Pending && selectedOrderId == None
    {
      orders := [];
      activeFilter := Pending;
      selectedOrderId := None;
    }

    /** `loadOrders()`: the rider's orders replace the list; a failed fetch leaves it as it was. */
    method LoadOrders(response: Fetch<seq<Order>>)
      modifies this`orders
      ensures var fetched := Api.FetchOrders(CourierName, response);
              orders == if fetched.Ok? then fetched.value else old(orders)
    {
      var fetched := Api.FetchOrders(CourierName, response);
      if fetched.Ok? {
        orders := fetched.value;
      }
    }

    /** Pressing a filter tab makes it the active filter (line 195). */
    method SetActiveFilter(f: FilterType)
      modifies this`activeFilter
      ensures activeFilter == f
    {
      activeFilter := f;
    }

    /**
     * The list the screen shows under the active tab (lines 162-179, 418): the orders, in their
     * order, whose status belongs to the active tab, and every such order.
     */
    function Visible(): (r: seq<Order>)
      reads this
      ensures SubsequenceOf(r, orders)
      ensures forall i :: 0 <= i < |r| ==> TabOf(r[i].orderStatus) == Some(activeFilter)
      ensures forall o :: o in orders && TabOf(o.orderStatus) == Some(activeFilter) ==> o in r
    {
      var r := FilteredOrders(activeFilter, orders);
      assert forall o :: o in orders && TabOf(o.orderStatus) == Some(activeFilter) ==> o in r by {
        forall o | o in orders && TabOf(o.orderStatus) == Some(activeFilter) ensures o in r {
          FilteredOrdersExact(activeFilter, orders, o);
        }
      }
      r
    }

    /** `handleAcceptOrder(orderId)` at time `now`, given the outcome of its PATCH (lines 78-114). */
    method HandleAcceptOrder(orderId: string, now: int, response: Fetch<()>) returns (e: Effects)
      modifies this`orders
      ensures FindById(old(orders), orderId).None? ==> e == NoEffects && orders == old(orders)
      ensures FindById(old(orders), orderId).Some? ==>
        e.request == Some(StatusPatch(orderId, Assigned, now))
      ensures FindById(old(orders), orderId).Some? && response.Answered? && response.ok ==>
        && orders == MarkStatus(old(orders), orderId, Assigned)
        && e.navigate == Some(WithOrder(OrderDetailsScreen,
                                        FindById(old(orders), orderId).value.(orderStatus := Assigned)))
        && e.alert == None
      ensures response.Answered? && !response.ok ==> orders == old(orders) && e.navigate == None && e.alert == None
      ensures response.Failed? ==> orders == old(orders) && e.navigate == None
      ensures FindById(old(orders), orderId).Some? && response.Failed? ==>
        e.alert == Some("Failed to accept order. Please try again.")
    {
      var orderToUpdate := FindById(orders, orderId);
      if orderToUpdate.None? {
        return NoEffects;
      }
      var request := Some(StatusPatch(orderId, Assigned, now));
      match response {
        case Failed(_) =>
          e := Effects(request, None, Some("Failed to accept order. Please try again."));
        case Answered(ok, _) =>
          if ok {
            orders := MarkStatus(orders, orderId, Assigned);
            e := Effects(request, Some(WithOrder(OrderDetailsScreen, orderToUpdate.value.(orderStatus := Assigned))), None);
          } else {
            e := Effects(request, None, None);
          }
      }
    }

    /** `handleDeclineOrder(orderId)` at time `now`, given the outcome of its PATCH (lines 116-144). */
    method HandleDeclineOrder(orderId: string, now: int, response: Fetch<()>) returns (e: Effects)
      modifies this`orders
      ensures e.request == Some(StatusPatch(orderId, Cancelled, now)) && e.navigate == None
      ensures orders == if response.Answered? && response.ok then MarkStatus(old(orders), orderId, Cancelled)
                        else old(orders)
      ensures e.alert == if response.Failed? then Some("Failed to decline order. Please try again.") else None
    {
      var request := Some(StatusPatch(orderId, Cancelled, now));
      match response {
        case Failed(_) =>
          e := Effects(request, None, Some("Failed to decline order. Please try again."));
        case Answered(ok, _) =>
          if ok {
            orders := MarkStatus(orders, orderId, Cancelled);
          }
          e := Effects(request, None, None);
      }
    }

    /** `handleUpdateStatus(orderId, newStatus)` (lines 146-159): no request, and no `orderStatus` changes. */
    method HandleUpdateStatus(orderId: string, newStatus: OrderStatus)
      modifies this`orders
      ensures orders == MarkStatusField(old(orders), orderId, newStatus)
      ensures |orders| == |old(orders)|
      ensures forall i :: 0 <= i < |orders| ==> orders[i].orderStatus == old(orders)[i].orderStatus
    {
      orders := MarkStatusField(orders, orderId, newStatus);
    }

    /** `navigateBasedOnStatus(order)`: select the order for the prompt, or navigate (lines 346-379). */
    method NavigateBasedOnStatus(order: Order) returns (nav: Option<Navigate>)
      modifies this`selectedOrderId
      ensures RouteFor(order.orderStatus).None? ==> selectedOrderId == Some(order.id) && nav == None
      ensures RouteFor(order.orderStatus).Some? ==>
        selectedOrderId == old(selectedOrderId) && nav == Some(WithOrder(RouteFor(order.orderStatus).value, order))
    {
      var route := RouteFor(order.orderStatus);
      if route.None? {
        selectedOrderId := Some(order.id);
        nav := None;
      } else {
        nav := Some(WithOrder(route.value, order));
      }
    }

    /** Pressing an order's pickup marker selects it only when it is ReadyForPickup (lines 311-315). */
    method PressPickupMarker(order: Order)
      modifies this`selectedOrderId
      ensures selectedOrderId == if order.orderStatus == ReadyForPickup then Some(order.id) else old(selectedOrderId)
    {
      if Is(order.orderStatus, "ReadyForPickup") {
        selectedOrderId := Some(order.id);
      }
    }

    /**
     * The card's modal is open exactly when its order is the selected one (line 427), so at most
     * one order id has its modal open at a time.
     */
    predicate IsModalVisible(order: Order)
      reads this
      ensures IsModalVisible(order) ==> forall other: Order :: selectedOrderId == Some(other.id) ==> other.id == order.id
    {
      selectedOrderId == Some(order.id)
    }

    /** The card's `setIsModalVisible(visible)` callback (lines 428-434). */
    method SetModalVisible(order: Order, visible: bool)
      modifies this`selectedOrderId
      ensures IsModalVisible(order) == visible
      ensures selectedOrderId == if visible then Some(order.id) else None
    {
      if visible {
        selectedOrderId := Some(order.id);
      } else {
        selectedOrderId := None;
      }
    }
  }
}
