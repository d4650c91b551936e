/**
 * The analytics service (src/services/analytics.ts): the courier and date filter applied to
 * the fetched records and the figures computed from them. Dates are timestamps.
 */
module AnalyticsService {
  import opened Wrappers
  import opened Orders
  import opened Seqs

  /** The untyped record fields the service reads: `courierName`, `date`, `status`, `amount`, `deliveryTime`. */
  datatype Record = Record(
    courierName: string,
    date: int,
    status: OrderStatus,
    amount: Option<int>,
    deliveryTime: Option<int>
  )

  /** The `DateRange` argument (src/types/analytics.ts), as timestamps. */
  datatype DateRange = DateRange(startDate: int, endDate: int)

  /** The figures returned (src/types/analytics.ts, `AnalyticsData`). */
  datatype AnalyticsData = AnalyticsData(
    totalEarnings: int,
    totalOrders: nat,
    totalHours: nat,
    successfulDeliveries: nat,
    failedDeliveries: nat,
    averageDeliveryTime: real
  )

  /** The record filter of `fetchAnalytics` (lines 24-29). */
  predicate Selected(courierName: string, range: DateRange, r: Record)
  {
    r.courierName == courierName && range.startDate <= r.date && r.date <= range.endDate
  }

  predicate SuccessfulDelivery(r: Record) { Is(r.status, "Delivered") }
  predicate FailedDelivery(r: Record) { Is(r.status, "DeliveryFailed") }

  /** `order.amount || 0`. */
  function AmountOf(r: Record): int
  {
    match r.amount
    case None => 0
    case Some(a) => a
  }

  /** `.filter(order => order.deliveryTime)`: a present, non-zero delivery time. */
  predicate HasDeliveryTime(r: Record)
  {
    r.deliveryTime.Some? && r.deliveryTime.value != 0
  }

  function DeliveryTimeOf(r: Record): int
  {
    match r.deliveryTime
    case None => 0
    case Some(t) => t
  }

  /** `Math.round(n * 0.5)`: half of `n`, halves rounded up. */
  function HalfHours(n: nat): (h: nat)
    ensures h == (n + 1) / 2
  {
    var x := (n as real) * 0.5 + 0.5;
    assert x == ((n + 1) as real) / 2.0;
    HalfFloor(n + 1);
    x.Floor
  }

  /** `(m / 2).Floor` on reals is integer division by two. */
  lemma HalfFloor(m: nat)
    ensures ((m as real) / 2.0).Floor == m / 2
  {
    var q := m / 2;
    assert m == 2 * q || m == 2 * q + 1;
    assert (q as real) <= (m as real) / 2.0 < (q + 1) as real;
  }

  /** `totalDeliveryTime / ordersWithTime.length`, or zero when no record carries a delivery time. */
  function AverageDeliveryTime(records: seq<Record>): (avg: real)
    ensures Count(records, HasDeliveryTime) == 0 ==> avg == 0.0
    ensures Count(records, HasDeliveryTime) > 0 ==>
      avg * Count(records, HasDeliveryTime) as real
      == Sum(Filter(records, HasDeliveryTime), DeliveryTimeOf) as real
  {
    var times := Filter(records, HasDeliveryTime);
    if |times| != 0 then Sum(times, DeliveryTimeOf) as real / |times| as real else 0.0
  }

  /** Delivered and DeliveryFailed are exclusive, so their counts never exceed the record count. */
  lemma OutcomesBounded(records: seq<Record>)
    ensures Count(records, SuccessfulDelivery) + Count(records, FailedDelivery) <= |records|
  {
    var both := (r: Record) => SuccessfulDelivery(r) || FailedDelivery(r);
    FilterDisjointUnion(records, SuccessfulDelivery, FailedDelivery, both);
  }

  /**
   * `calculateAnalytics(orders)` (lines 38-68): Delivered and DeliveryFailed counts, the sum of
   * all amounts, the record count, half an hour per record, and the mean of the present
   * delivery times (zero when none is present).
   */
  function CalculateAnalytics(records: seq<Record>): (a: AnalyticsData)
    ensures a.totalOrders == |records|
    ensures a.successfulDeliveries == Count(records, SuccessfulDelivery)
    ensures a.failedDeliveries == Count(records, FailedDelivery)
    ensures a.totalHours == (|records| + 1) / 2
  {
    AnalyticsData(Sum(records, AmountOf), |records|, HalfHours(|records|),
                  Count(records, SuccessfulDelivery), Count(records, FailedDelivery), AverageDeliveryTime(records))
  }

  /** Earnings sum every record's amount, a missing one as zero; the average is over timed records. */
  lemma CalculateAnalyticsTotals(records: seq<Record>)
    ensures CalculateAnalytics(records).totalEarnings == Sum(records, AmountOf)
    ensures CalculateAnalytics(records).averageDeliveryTime == AverageDeliveryTime(records)
  {
  }

  /**
   * `fetchAnalytics(courierName, dateRange)` (lines 4-36): a failed fetch rethrows, a non-ok
   * response throws before any figure is computed, otherwise the figures of the selected records.
   */
  function FetchAnalytics(courierName: string, range: DateRange, response: Fetch<seq<Record>>)
    : (r: Result<AnalyticsData>)
    ensures response.Failed? ==> r == Err(response.message)
    ensures response.Answered? && !response.ok ==> r == Err("Failed to fetch analytics")
    ensures response.Answered? && response.ok ==>
      r == Ok(CalculateAnalytics(Filter(response.body, (x: Record) => Selected(courierName, range, x))))
  {
    match response
    case Failed(message) => Err(message)
    case Answered(ok, body) =>
      if !ok then Err("Failed to fetch analytics")
      else Ok(CalculateAnalytics(Filter(body, (x: Record) => Selected(courierName, range, x))))
  }

  /** The figures cover exactly the records of the courier dated within the range, both ends included. */
  lemma FetchAnalyticsSelects(courierName: string, range: DateRange, body: seq<Record>, x: Record)
    ensures x in Filter(body, (x: Record) => Selected(courierName, range, x))
            <==> x in body && x.courierName == courierName && range.startDate <= x.date <= range.endDate
  {
    FilterMembership(body, (x: Record) => Selected(courierName, range, x), x);
  }

  /** Successes and failures together never exceed the orders the service reports. */
  lemma ReportedOutcomesBounded(records: seq<Record>)
    ensures var a := CalculateAnalytics(records);
      a.successfulDeliveries + a.failedDeliveries <= a.totalOrders
  {
    OutcomesBounded(records);
  }

  /** The number of orders the service reports never exceeds the number fetched. */
  lemma FetchAnalyticsBounded(courierName: string, range: DateRange, body: seq<Record>)
    ensures FetchAnalytics(courierName, range, Answered(true, body)).value.totalOrders <= |body|
  {
  }
}
