/** The admin's analytics page, `src/pages/Admin/AdminAnalytics.tsx`: the
    four chart series `generateChartData` derives from the server's totals. */
module AdminAnalytics {
  import opened Common

  /** The fields of `AdminStats` the charts read; a field the server left
      out, or sent as 0 or not-a-number, is `None` (`|| 0` reads all three
      as 0). */
  datatype AdminStats = AdminStats(
    totalParcels: Option<real>,
    pendingParcels: Option<real>,
    inTransitParcels: Option<real>,
    deliveredParcels: Option<real>,
    cancelledParcels: Option<real>,
    totalRevenue: Option<real>,
    averageDeliveryTime: Option<real>,
    deliverySuccessRate: Option<real>)

  datatype TrendPoint = TrendPoint(month: string, delivered: real, pending: real, cancelled: real)
  datatype RevenuePoint = RevenuePoint(month: string, revenue: real, parcels: real)
  datatype StatusSlice = StatusSlice(name: string, value: real, color: string)
  datatype PerformancePoint = PerformancePoint(date: string, deliveryTime: real, successRate: real, customerSatisfaction: real)

  datatype ChartData = ChartData(
    deliveryTrends: seq<TrendPoint>,
    revenueData: seq<RevenuePoint>,
    statusData: seq<StatusSlice>,
    performanceData: seq<PerformancePoint>)

  const MONTHS: seq<string> := ["Jan", "Feb", "Mar", "Apr", "May", "Jun"]

  /** The fixed customer-satisfaction figure. */
  const CUSTOMER_SATISFACTION: real := 90.0

  /** The statistics the charts read, one per field of `AdminStats`. */
  datatype Stat = TotalParcels | PendingParcels | InTransitParcels | DeliveredParcels
                | CancelledParcels | TotalRevenue | AverageDeliveryTime | DeliverySuccessRate

  /** The field of `stats` that `f` names. */
  function Pick(stats: AdminStats, f: Stat): Option<real> {
    match f
    case TotalParcels => stats.totalParcels
    case PendingParcels => stats.pendingParcels
    case InTransitParcels => stats.inTransitParcels
    case DeliveredParcels => stats.deliveredParcels
    case CancelledParcels => stats.cancelledParcels
    case TotalRevenue => stats.totalRevenue
    case AverageDeliveryTime => stats.averageDeliveryTime
    case DeliverySuccessRate => stats.deliverySuccessRate
  }

  /** `stats?.field || 0`. */
  function Field(stats: Option<AdminStats>, f: Stat): (v: real)
    ensures stats.None? ==> v == 0.0
    ensures stats.Some? && Pick(stats.value, f).None? ==> v == 0.0
    ensures stats.Some? && Pick(stats.value, f).Some? ==> v == Pick(stats.value, f).value
  {
    if stats.None? then 0.0 else Pick(stats.value, f).GetOr(0.0)
  }

  /** `generateChartData`. The three monthly series have one point per
      month, January to June in order, and every point carries the same
      totals: nothing varies by month. Each figure is the statistic its
      label names, read through `|| 0`. The status series has four slices
      in a fixed order with fixed colours. */
  function GenerateChartData(stats: Option<AdminStats>): (c: ChartData)
    ensures |c.deliveryTrends| == 6 && |c.revenueData| == 6 && |c.performanceData| == 6
    ensures forall i :: 0 <= i < 6 ==>
      c.deliveryTrends[i].month == MONTHS[i] && c.revenueData[i].month == MONTHS[i] && c.performanceData[i].date == MONTHS[i]
    ensures forall i, j :: 0 <= i < 6 && 0 <= j < 6 ==>
      c.deliveryTrends[i].delivered == c.deliveryTrends[j].delivered
      && c.deliveryTrends[i].pending == c.deliveryTrends[j].pending
      && c.deliveryTrends[i].cancelled == c.deliveryTrends[j].cancelled
      && c.revenueData[i].revenue == c.revenueData[j].revenue
      && c.revenueData[i].parcels == c.revenueData[j].parcels
    ensures forall i :: 0 <= i < 6 ==>
      && c.deliveryTrends[i].delivered == Field(stats, DeliveredParcels)
      && c.deliveryTrends[i].pending == Field(stats, PendingParcels)
      && c.deliveryTrends[i].cancelled == Field(stats, CancelledParcels)
      && c.revenueData[i].revenue == Field(stats, TotalRevenue)
      && c.revenueData[i].parcels == Field(stats, TotalParcels)
      && c.performanceData[i].deliveryTime == Field(stats, AverageDeliveryTime)
      && c.performanceData[i].successRate == Field(stats, DeliverySuccessRate)
    ensures forall i :: 0 <= i < 6 ==> c.performanceData[i].customerSatisfaction == CUSTOMER_SATISFACTION
    ensures |c.statusData| == 4
    ensures c.statusData[0] == StatusSlice("Delivered", Field(stats, DeliveredParcels), "#10b981")
    ensures c.statusData[1] == StatusSlice("In Transit", Field(stats, InTransitParcels), "#3b82f6")
    ensures c.statusData[2] == StatusSlice("Pending", Field(stats, PendingParcels), "#f59e0b")
    ensures c.statusData[3] == StatusSlice("Cancelled", Field(stats, CancelledParcels), "#ef4444")
  {
    var delivered := Field(stats, DeliveredParcels);
    var pending := Field(stats, PendingParcels);
    var cancelled := Field(stats, CancelledParcels);
    var revenue := Field(stats, TotalRevenue);
    var parcels := Field(stats, TotalParcels);
    var deliveryTime := Field(stats, AverageDeliveryTime);
    var successRate := Field(stats, DeliverySuccessRate);
    ChartData(
      seq(6, i requires 0 <= i < 6 => TrendPoint(MONTHS[i], delivered, pending, cancelled)),
      seq(6, i requires 0 <= i < 6 => RevenuePoint(MONTHS[i], revenue, parcels)),
      [ StatusSlice("Delivered", delivered, "#10b981"),
        StatusSlice("In Transit", Field(stats, InTransitParcels), "#3b82f6"),
        StatusSlice("Pending", pending, "#f59e0b"),
        StatusSlice("Cancelled", cancelled, "#ef4444") ],
      seq(6, i requires 0 <= i < 6 =>
        PerformancePoint(MONTHS[i], deliveryTime, successRate, CUSTOMER_SATISFACTION)))
  }

  /** Every figure a chart draws from statistic `f`, in every month and in
      the status slices. */
  function FiguresOf(c: ChartData, f: Stat): (r: seq<real>)
    requires |c.deliveryTrends| == 6 && |c.revenueData| == 6 && |c.performanceData| == 6 && |c.statusData| == 4
  {
    match f
    case DeliveredParcels =>
      seq(6, i requires 0 <= i < 6 => c.deliveryTrends[i].delivered) + [c.statusData[0].value]
    case PendingParcels =>
      seq(6, i requires 0 <= i < 6 => c.deliveryTrends[i].pending) + [c.statusData[2].value]
    case CancelledParcels =>
      seq(6, i requires 0 <= i < 6 => c.deliveryTrends[i].cancelled) + [c.statusData[3].value]
    case InTransitParcels => [c.statusData[1].value]
    case TotalRevenue => seq(6, i requires 0 <= i < 6 => c.revenueData[i].revenue)
    case TotalParcels => seq(6, i requires 0 <= i < 6 => c.revenueData[i].parcels)
    case AverageDeliveryTime => seq(6, i requires 0 <= i < 6 => c.performanceData[i].deliveryTime)
    case DeliverySuccessRate => seq(6, i requires 0 <= i < 6 => c.performanceData[i].successRate)
  }

  /** A statistic the server left out, or sent as 0 or not-a-number, is
      drawn as 0 everywhere it is used; one it sent is drawn as itself. */
  lemma MissingStatDrawnAsZero(stats: Option<AdminStats>, f: Stat)
    ensures var c := GenerateChartData(stats);
      FiguresOf(c, f) != []
      && (stats.None? || Pick(stats.value, f).None? ==> forall x :: x in FiguresOf(c, f) ==> x == 0.0)
      && (stats.Some? && Pick(stats.value, f).Some? ==>
            forall x :: x in FiguresOf(c, f) ==> x == Pick(stats.value, f).value)
  {
  }

  /** The status slices and the delivery trend agree: every month shows the
      delivered, pending and cancelled totals of the matching slices. */
  lemma TrendsAgreeWithSlices(stats: Option<AdminStats>, i: int)
    requires 0 <= i < 6
    ensures var c := GenerateChartData(stats);
      && c.deliveryTrends[i].delivered == c.statusData[0].value
      && c.deliveryTrends[i].pending == c.statusData[2].value
      && c.deliveryTrends[i].cancelled == c.statusData[3].value
  {
  }

  /** Without stats every figure is 0 except the fixed satisfaction. */
  lemma ChartDataWithoutStats()
    ensures var c := GenerateChartData(None);
      && (forall i :: 0 <= i < 6 ==>
        c.deliveryTrends[i] == TrendPoint(MONTHS[i], 0.0, 0.0, 0.0)
        && c.revenueData[i] == RevenuePoint(MONTHS[i], 0.0, 0.0)
        && c.performanceData[i] == PerformancePoint(MONTHS[i], 0.0, 0.0, CUSTOMER_SATISFACTION))
      && (forall k :: 0 <= k < 4 ==> c.statusData[k].value == 0.0)
  {
    var c := GenerateChartData(None);
    forall i | 0 <= i < 6
      ensures c.deliveryTrends[i] == TrendPoint(MONTHS[i], 0.0, 0.0, 0.0)
      ensures c.revenueData[i] == RevenuePoint(MONTHS[i], 0.0, 0.0)
      ensures c.performanceData[i] == PerformancePoint(MONTHS[i], 0.0, 0.0, CUSTOMER_SATISFACTION)
    {
      TrendsAgreeWithSlices(None, i);
    }
  }
}
