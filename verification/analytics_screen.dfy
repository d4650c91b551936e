/**
 * The earnings screen (src/screens/AnalyticsScreen.tsx): the summary figures, the chart
 * buckets, the date filter applied when orders load, and the filter and range-picker state.
 * Dates are millisecond timestamps; `isSameDay` and the week and month bounds of date-fns
 * are supplied by the caller.
 */
module AnalyticsScreen {
  import opened Wrappers
  import opened Orders
  import opened Seqs
  import Api

  /** The courier whose orders the screen loads (line 117). */
  const CourierName: string := "Judas"

  /** Milliseconds in an hour (line 134). */
  const MillisPerHour: int := 1000 * 60 * 60

  /** `Number(order.deliveryPrice || 0)`. */
  function PriceOf(o: Order): int
  {
    match o.deliveryPrice
    case None => 0
    case Some(p) => p
  }

  predicate IsDelivered(o: Order)
  {
    Is(o.orderStatus, "Delivered")
  }

  /** The hours from creation to completion of a Delivered order, when it has a completion time. */
  function HoursOf(o: Order): real
  {
    match o.orderCompletedTime
    case None => 0.0
    case Some(done) => (done - o.createdAt) as real / MillisPerHour as real
  }

  /** `Math.round(x)`: the nearest integer, halves rounded up. */
  function Round(x: real): int
  {
    (x + 0.5).Floor
  }

  datatype Summary = Summary(totalEarnings: int, totalOrders: nat, totalHours: int, averageDeliveryTime: real)

  /** The earnings the screen reports: delivery prices of the Delivered orders. */
  function Earnings(orders: seq<Order>): int
  {
    Sum(Filter(orders, IsDelivered), PriceOf)
  }

  /** The unrounded hours of the Delivered orders. */
  function DeliveredHours(orders: seq<Order>): real
  {
    SumReal(Filter(orders, IsDelivered))
  }

  function SumReal(orders: seq<Order>): real
  {
    if orders == [] then 0.0 else HoursOf(orders[0]) + SumReal(orders[1..])
  }

  /**
   * `calculateAnalytics(filteredOrders)` (lines 119-145): earnings over Delivered orders, the
   * number of orders whatever their status, rounded hours, and the hours per order (zero for
   * no orders).
   */
  function CalculateAnalytics(orders: seq<Order>): (a: Summary)
    ensures a.totalEarnings == Earnings(orders)
    ensures a.totalOrders == |orders|
    ensures a.totalHours == Round(DeliveredHours(orders))
    ensures |orders| == 0 ==> a.averageDeliveryTime == 0.0 && a.totalEarnings == 0 && a.totalHours == 0
    ensures |orders| > 0 ==> a.averageDeliveryTime * |orders| as real == DeliveredHours(orders)
  {
    var hours := DeliveredHours(orders);
    Summary(Earnings(orders), |orders|, Round(hours),
            if |orders| != 0 then hours / |orders| as real else 0.0)
  }

  /** Earnings of two lists together are the sum of their earnings. */
  lemma EarningsAppend(xs: seq<Order>, ys: seq<Order>)
    ensures Earnings(xs + ys) == Earnings(xs) + Earnings(ys)
  {
    FilterAppend(xs, ys, IsDelivered);
    SumAppend(Filter(xs, IsDelivered), Filter(ys, IsDelivered), PriceOf);
  }

  /** Orders that are not Delivered contribute nothing to the earnings. */
  lemma {:induction false} EarningsIgnoreUndelivered(orders: seq<Order>)
    requires forall i :: 0 <= i < |orders| ==> orders[i].orderStatus != Delivered
    ensures Earnings(orders) == 0
  {
    forall i | 0 <= i < |orders| ensures !IsDelivered(orders[i]) {
      IsDeclared(orders[i].orderStatus, Delivered);
    }
    FilterNone(orders, IsDelivered);
  }

  /** The earnings of a single Delivered order are its delivery price, missing counted as zero. */
  lemma EarningsOfDelivered(o: Order)
    requires o.orderStatus == Delivered
    ensures Earnings([o]) == if o.deliveryPrice.Some? then o.deliveryPrice.value else 0
  {
    assert IsDelivered(o);
    assert [o][1..] == [];
    assert Filter([o], IsDelivered) == [o];
    assert Sum([o], PriceOf) == PriceOf(o) + Sum([o][1..], PriceOf);
  }

  /** The four chart bars (lines 147-178). */
  datatype ChartCounts = ChartCounts(pending: nat, active: nat, complete: nat, failed: nat)

  predicate PendingBar(o: Order) { Is(o.orderStatus, "ReadyForPickup") }
  predicate ActiveBar(o: Order) { OneOf(o.orderStatus, ["Assigned", "Picked Up", "OnTheWay"]) }
  predicate CompleteBar(o: Order) { Is(o.orderStatus, "Delivered") }
  predicate FailedBar(o: Order) { OneOf(o.orderStatus, ["Cancelled", "DeliveryFailed"]) }

  /**
   * `getChartData(filteredOrders)`'s data (lines 147-178): each bar counts at most the orders,
   * and the Complete bar counts exactly the Delivered orders.
   */
  function ChartData(orders: seq<Order>): (c: ChartCounts)
    ensures c.pending <= |orders| && c.active <= |orders| && c.complete <= |orders| && c.failed <= |orders|
    ensures c.complete == Count(orders, (o: Order) => o.orderStatus == Delivered)
  {
    FilterExtensional(orders, CompleteBar, (o: Order) => o.orderStatus == Delivered);
    ChartCounts(Count(orders, PendingBar), Count(orders, ActiveBar),
                Count(orders, CompleteBar), Count(orders, FailedBar))
  }

  /** The bar a declared status is counted in, by cases: Pickup and Completed are in none. */
  function BarOf(s: OrderStatus): Option<nat>
  {
    match s
    case ReadyForPickup => Some(0)
    case Assigned => Some(1)
    case OnTheWay => Some(1)
    case Delivered => Some(2)
    case Cancelled => Some(3)
    case DeliveryFailed => Some(3)
    case Unrecognized(raw) => if raw == "Picked Up" then Some(1) else None
    case _ => None
  }

  /** The bar tests agree with `BarOf`. */
  lemma BarOfAgrees(o: Order)
    ensures PendingBar(o) <==> BarOf(o.orderStatus) == Some(0)
    ensures ActiveBar(o) <==> BarOf(o.orderStatus) == Some(1)
    ensures CompleteBar(o) <==> BarOf(o.orderStatus) == Some(2)
    ensures FailedBar(o) <==> BarOf(o.orderStatus) == Some(3)
  {
  }

  predicate InSomeBar(o: Order)
  {
    BarOf(o.orderStatus).Some?
  }

  /**
   * The bars together count each order at most once: their sum is the number of orders
   * that fall in a bar, so at most the number of orders.
   */
  lemma {:induction false} ChartBarsSum(orders: seq<Order>)
    ensures var c := ChartData(orders);
      c.pending + c.active + c.complete + c.failed == Count(orders, InSomeBar)
    ensures var c := ChartData(orders);
      c.pending + c.active + c.complete + c.failed <= |orders|
  {
    if orders != [] {
      ChartBarsSum(orders[1..]);
      BarOfAgrees(orders[0]);
    }
  }

  /** Pickup and Completed orders are shown in no bar. */
  lemma UnchartedStatuses()
    ensures BarOf(Pickup).None? && BarOf(Completed).None?
  {
  }

  datatype FilterKind = Daily | Weekly | Monthly | RangeFilter

  /** An inclusive date range, as timestamps. */
  datatype DateRange = DateRange(start: int, end: int)

  predicate InRange(r: DateRange, t: int)
  {
    r.start <= t <= r.end
  }

  /**
   * The list `loadOrders()` keeps from the fetched orders (lines 184-224): the orders created
   * on the selected day for the daily filter; otherwise the orders created within the date
   * range, or none when there is no range.
   */
  function SelectOrders(kind: FilterKind, dateRange: Option<DateRange>, selectedDate: int,
                        sameDay: (int, int) -> bool, fetched: seq<Order>): (r: seq<Order>)
    ensures SubsequenceOf(r, fetched)
    ensures kind != Daily && dateRange.None? ==> r == []
    ensures kind != Daily && dateRange.Some? ==>
      forall i :: 0 <= i < |r| ==> InRange(dateRange.value, r[i].createdAt)
    ensures kind == Daily ==> forall i :: 0 <= i < |r| ==> sameDay(r[i].createdAt, selectedDate)
  {
    if kind == Daily then Filter(fetched, (o: Order) => sameDay(o.createdAt, selectedDate))
    else if dateRange.Some? then Filter(fetched, (o: Order) => InRange(dateRange.value, o.createdAt))
    else []
  }

  /** The weekly, monthly and range filters keep exactly the orders created within the range, both ends included. */
  lemma SelectOrdersInRange(kind: FilterKind, r: DateRange, selectedDate: int, sameDay: (int, int) -> bool,
                            fetched: seq<Order>, o: Order)
    requires kind != Daily
    ensures o in SelectOrders(kind, Some(r), selectedDate, sameDay, fetched)
            <==> o in fetched && r.start <= o.createdAt <= r.end
  {
    FilterMembership(fetched, (o: Order) => InRange(r, o.createdAt), o);
  }

  /** The daily filter keeps exactly the orders created on the selected day. */
  lemma SelectOrdersDaily(dateRange: Option<DateRange>, selectedDate: int, sameDay: (int, int) -> bool,
                          fetched: seq<Order>, o: Order)
    ensures o in SelectOrders(Daily, dateRange, selectedDate, sameDay, fetched)
            <==> o in fetched && sameDay(o.createdAt, selectedDate)
  {
    FilterMembership(fetched, (o: Order) => sameDay(o.createdAt, selectedDate), o);
  }

  /** A range whose start lies after its end selects nothing. */
  lemma InvertedRangeSelectsNothing(kind: FilterKind, r: DateRange, selectedDate: int,
                                    sameDay: (int, int) -> bool, fetched: seq<Order>)
    requires kind != Daily && r.start > r.end
    ensures SelectOrders(kind, Some(r), selectedDate, sameDay, fetched) == []
  {
    FilterNone(fetched, (o: Order) => InRange(r, o.createdAt));
  }

  /** `handleStartDateConfirm(date)`'s new range: the picked start, the old end or else the picked date (lines 48-54). */
  function StartConfirmed(current: Option<DateRange>, date: int): (r: DateRange)
    ensures r.start == date
    ensures r.end == if current.Some? then current.value.end else date
  {
    DateRange(date, if current.Some? then current.value.end else date)
  }

  /** `handleEndDateConfirm(date)`'s new range: the old start or else the picked date, and the picked end (lines 56-62). */
  function EndConfirmed(current: Option<DateRange>, date: int): (r: DateRange)
    ensures r.end == date
    ensures r.start == if current.Some? then current.value.start else date
  {
    DateRange(if current.Some? then current.value.start else date, date)
  }

  /** Confirming a start and then an end on an empty picker yields exactly the two picked dates. */
  lemma PickBothEnds(a: int, b: int)
    ensures EndConfirmed(Some(StartConfirmed(None, a)), b) == DateRange(a, b)
    ensures StartConfirmed(Some(EndConfirmed(None, b)), a) == DateRange(a, b)
  {
  }

  class AnalyticsScreenState {
    var orders: seq<Order>
    var selectedDate: int
    var filterType: FilterKind
    var dateRange: Option<DateRange>

    /** The initial state at time `now`: daily filter on today, no range, no orders (lines 111-116). */
    constructor (now: int)
      ensures orders == [] && selectedDate == now && filterType == Daily && dateRange == None
    {
      orders := [];
      selectedDate := now;
      filterType := Daily;
      dateRange := None;
    }

    /**
     * The figures the screen shows for its current list (lines 119-145, 279): earnings of the
     * Delivered orders, every order counted, rounded delivered hours, and their average.
     */
    function Figures(): (a: Summary)
      reads this
      ensures a.totalEarnings == Earnings(orders)
      ensures a.totalOrders == |orders|
      ensures a.totalHours == Round(DeliveredHours(orders))
      ensures |orders| == 0 ==> a.averageDeliveryTime == 0.0
      ensures |orders| > 0 ==> a.averageDeliveryTime * |orders| as real == DeliveredHours(orders)
    {
      CalculateAnalytics(orders)
    }

    /**
     * `loadOrders()` (lines 180-231): the rider's fetched orders, narrowed by the current
     * filter, replace the list; when the fetch throws the list stays as it was.
     */
    method LoadOrders(response: Fetch<seq<Order>>, sameDay: (int, int) -> bool)
      modifies this`orders
      ensures var fetched := Api.FetchOrders(CourierName, response);
        orders == if fetched.Ok? then SelectOrders(filterType, dateRange, selectedDate, sameDay, fetched.value)
                  else old(orders)
    {
      var fetched := Api.FetchOrders(CourierName, response);
      if fetched.Ok? {
        orders := SelectOrders(filterType, dateRange, selectedDate, sameDay, fetched.value);
      }
    }

    /**
     * `handleFilterChange(kind)` at time `now` (lines 242-267); `week` and `month` are the
     * bounds date-fns gives for the week and the month containing `now`.
     */
    method HandleFilterChange(kind: FilterKind, now: int, week: DateRange, month: DateRange)
      modifies this`filterType, this`dateRange, this`selectedDate
      ensures filterType == kind
      ensures dateRange == match kind
                           case Weekly => Some(week)
                           case Monthly => Some(month)
                           case Daily => None
                           case RangeFilter => old(dateRange)
      ensures selectedDate == if kind == Daily then now else old(selectedDate)
    {
      filterType := kind;
      match kind {
        case Weekly => dateRange := Some(week);
        case Monthly => dateRange := Some(month);
        case Daily =>
          dateRange := None;
          selectedDate := now;
        case RangeFilter =>
      }
    }

    /** The day picker's `onDateChange` (line 334). */
    method SelectDate(date: int)
      modifies this`selectedDate
      ensures selectedDate == date
    {
      selectedDate := date;
    }

    /** The range picker's start-date confirmation, passed on to `setDateRange`. */
    method ConfirmStartDate(date: int)
      modifies this`dateRange
      ensures dateRange == Some(StartConfirmed(old(dateRange), date))
    {
      dateRange := Some(StartConfirmed(dateRange, date));
    }

    /** The range picker's end-date confirmation, passed on to `setDateRange`. */
    method ConfirmEndDate(date: int)
      modifies this`dateRange
      ensures dateRange == Some(EndConfirmed(old(dateRange), date))
    {
      dateRange := Some(EndConfirmed(dateRange, date));
    }
  }
}
