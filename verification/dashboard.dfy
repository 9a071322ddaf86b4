/**
 * The dashboard's live simulation: every 2.5 seconds the headline metrics, the last month of the
 * revenue chart, the notification feed, the consolidated KPIs, the subsidiary bar chart and the
 * last point of the user-growth chart move by random amounts within fixed floors and ceilings.
 *
 * Each `Math.random()` call is a parameter: a real in [0, 1). Figures are exact reals, where
 * JavaScript has doubles.
 */
module Dashboard {
  import opened Types
  import opened Seqs
  import Fixtures

  /** A value `Math.random()` can return. */
  predicate Unit(x: real)
  {
    0.0 <= x < 1.0
  }

  function Max(a: real, b: real): real { if a >= b then a else b }
  function Min(a: real, b: real): real { if a <= b then a else b }
  function MaxInt(a: int, b: int): int { if a >= b then a else b }

  // The headline metrics.

  datatype Metrics = Metrics(revenue: real, users: int, subscriptions: int, activity: real)

  const InitialMetrics: Metrics := Metrics(1205102.0, 245301, 45219, 88.3)

  /** The activity gauge is clamped to this range. */
  const ActivityFloor: real := 80.0
  const ActivityCeiling: real := 99.9

  /**
   * Revenue grows by less than 500, users by 0 to 9, subscriptions by 0 to 4; activity moves by
   * at most 0.1 and is clamped into [80, 99.9] whatever it was before.
   */
  function MetricsTick(m: Metrics, rRevenue: real, rUsers: real, rSubs: real, rActivity: real): (r: Metrics)
    requires Unit(rRevenue) && Unit(rUsers) && Unit(rSubs) && Unit(rActivity)
    ensures m.revenue <= r.revenue < m.revenue + 500.0
    ensures m.users <= r.users <= m.users + 9
    ensures m.subscriptions <= r.subscriptions <= m.subscriptions + 4
    ensures ActivityFloor <= r.activity <= ActivityCeiling
    ensures ActivityFloor + 0.1 <= m.activity <= ActivityCeiling - 0.1 ==>
      m.activity - 0.1 <= r.activity <= m.activity + 0.1
  {
    Metrics(
      m.revenue + rRevenue * 500.0,
      m.users + (rUsers * 10.0).Floor,
      m.subscriptions + (rSubs * 5.0).Floor,
      Min(ActivityCeiling, Max(ActivityFloor, m.activity + (rActivity - 0.5) * 0.2)))
  }

  // The revenue chart.

  /** The figure every subsidiary column of the last month stays above. */
  const ChartFloor: real := 1000.0

  /** A column of the last month after one tick. */
  function Jitter(v: real, r: real): (w: real)
    requires Unit(r)
    ensures Jittered(v, w)
  {
    Max(ChartFloor, v + (r - 0.5) * 200.0)
  }

  /** `w` is at least the floor, and within 100 of `v` when `v` is well above the floor. */
  predicate Jittered(v: real, w: real)
  {
    w >= ChartFloor && (v >= ChartFloor + 100.0 ==> v - 100.0 <= w < v + 100.0)
  }

  /**
   * Every column of the last month except `name` and `amt` moves by less than 100 either way and
   * never below 1000; the earlier months are untouched. An empty chart is left as it is.
   */
  function ChartTick(rows: seq<ChartRow>, rs: seq<real>): (r: seq<ChartRow>)
    requires |rs| == 5 && forall i :: 0 <= i < 5 ==> Unit(rs[i])
    ensures |r| == |rows|
    ensures |rows| > 0 ==> r[..|rows| - 1] == rows[..|rows| - 1]
    ensures |rows| > 0 ==>
      var last, next := rows[|rows| - 1], r[|rows| - 1];
      next.name == last.name && next.amt == last.amt
      && Jittered(last.beok, next.beok) && Jittered(last.words, next.words)
      && Jittered(last.voidAi, next.voidAi) && Jittered(last.escan, next.escan)
      && Jittered(last.ebok, next.ebok)
    ensures |rows| == 0 ==> r == rows
  {
    if |rows| == 0 then rows
    else
      var last := rows[|rows| - 1];
      var next := last.(
        beok := Jitter(last.beok, rs[0]), words := Jitter(last.words, rs[1]),
        voidAi := Jitter(last.voidAi, rs[2]), escan := Jitter(last.escan, rs[3]),
        ebok := Jitter(last.ebok, rs[4]));
      rows[..|rows| - 1] + [next]
  }

  // The notification feed.

  /** A feed entry: its id, the subsidiary's screen it names, and when it arrived. */
  datatype Notification = Notification(id: string, view: View, timestamp: string)

  /** The subsidiaries a random notification may come from, in the order the draw picks them. */
  const NotifyingViews: seq<View> := [BeokView, WordsView, VoidAiView, EscanView, EbokView]

  /** The feed keeps at most this many entries. */
  const FeedLength: nat := 4

  /** `createRandomNotification`: one of the five subsidiaries, stamped with the time. */
  function NewNotification(rPick: real, stamp: string): (n: Notification)
    requires Unit(rPick)
    ensures n.id == "notif-" + stamp && n.timestamp == "Just now" && n.view in NotifyingViews
  {
    var i := (rPick * 5.0).Floor;
    Notification("notif-" + stamp, NotifyingViews[i], "Just now")
  }

  /** With probability 0.4 a new entry goes on top and the feed is cut to four. */
  function FeedTick(feed: seq<Notification>, rShow: real, rPick: real, stamp: string): (r: seq<Notification>)
    requires Unit(rShow) && Unit(rPick)
    ensures rShow <= 0.6 ==> r == feed
    ensures rShow > 0.6 ==>
      |r| == (if |feed| < FeedLength then |feed| + 1 else FeedLength)
      && r[0] == NewNotification(rPick, stamp)
      && r[1..] == feed[..|r| - 1]
  {
    if rShow > 0.6 then Take([NewNotification(rPick, stamp)] + feed, FeedLength) else feed
  }

  // The consolidated KPIs.

  datatype Kpis = Kpis(userGrowth: real, conversionRate: real, avgOrderValue: real)

  const InitialKpis: Kpis := Kpis(7.8, 4.2, 102.5)

  /**
   * User growth drifts up by at most 0.055 or down by at most 0.045 and stays at least 5;
   * conversion moves by at most 0.025 and stays at least 2; the average order moves by at most
   * 0.75 and stays at least 80.
   */
  function KpiTick(k: Kpis, rGrowth: real, rConversion: real, rOrder: real): (r: Kpis)
    requires Unit(rGrowth) && Unit(rConversion) && Unit(rOrder)
    ensures r.userGrowth >= 5.0 && r.conversionRate >= 2.0 && r.avgOrderValue >= 80.0
    ensures k.userGrowth >= 5.045 ==> k.userGrowth - 0.045 <= r.userGrowth < k.userGrowth + 0.055
    ensures k.conversionRate >= 2.025 ==> k.conversionRate - 0.025 <= r.conversionRate < k.conversionRate + 0.025
    ensures k.avgOrderValue >= 80.75 ==> k.avgOrderValue - 0.75 <= r.avgOrderValue < k.avgOrderValue + 0.75
  {
    Kpis(
      Max(5.0, k.userGrowth + (rGrowth - 0.45) * 0.1),
      Max(2.0, k.conversionRate + (rConversion - 0.5) * 0.05),
      Max(80.0, k.avgOrderValue + (rOrder - 0.5) * 1.5))
  }

  // The subsidiary bar chart.

  datatype Performance = Performance(name: string, value: int)

  const InitialPerformance: seq<Performance> := [
    Performance("BEOK", 4500), Performance("WORDS", 8900), Performance("VOID_AI", 7200),
    Performance("ESCAN", 6500), Performance("EBOK", 5100)
  ]

  /** The figure no subsidiary bar falls below. */
  const PerformanceFloor: int := 2000

  /** Each bar moves by a whole amount in [-100, 99] and never below 2000; names stay. */
  function PerformanceTick(bars: seq<Performance>, rs: seq<real>): (r: seq<Performance>)
    requires |rs| == |bars| && forall i :: 0 <= i < |rs| ==> Unit(rs[i])
    ensures |r| == |bars|
    ensures forall i :: 0 <= i < |bars| ==> r[i].name == bars[i].name && r[i].value >= PerformanceFloor
    ensures forall i :: 0 <= i < |bars| && bars[i].value >= PerformanceFloor + 100 ==>
      bars[i].value - 100 <= r[i].value <= bars[i].value + 99
  {
    seq(|bars|, i requires 0 <= i < |bars| =>
      bars[i].(value := MaxInt(PerformanceFloor, bars[i].value + BarChange(rs[i]))))
  }

  /** `Math.floor(Math.random() * 200 - 100)`: a whole change in [-100, 99]. */
  function BarChange(r: real): (c: int)
    requires Unit(r)
    ensures -100 <= c <= 99
  {
    (r * 200.0 - 100.0).Floor
  }

  // The user-growth chart.

  /** The last point gains 0 to 499 users; the rest of the series is untouched. */
  function UserGrowthTick(points: seq<UserGrowthPoint>, r: real): (s: seq<UserGrowthPoint>)
    requires Unit(r)
    ensures |s| == |points|
    ensures |points| > 0 ==>
      (s[..|points| - 1] == points[..|points| - 1]
       && s[|points| - 1].name == points[|points| - 1].name
       && points[|points| - 1].users <= s[|points| - 1].users <= points[|points| - 1].users + 499)
    ensures |points| == 0 ==> s == points
  {
    if |points| == 0 then points
    else
      var last := points[|points| - 1];
      points[..|points| - 1] + [last.(users := last.users + (r * 500.0).Floor)]
  }

  // The whole tick.

  datatype DashboardState = DashboardState(
    metrics: Metrics, chart: seq<ChartRow>, feed: seq<Notification>, kpis: Kpis,
    bars: seq<Performance>, userGrowth: seq<UserGrowthPoint>)

  const Initial: DashboardState :=
    DashboardState(InitialMetrics, Fixtures.ChartData, [], InitialKpis, InitialPerformance, Fixtures.InitialUserGrowth)

  /**
   * The random numbers one tick uses, in the order the interval callback draws them. The three
   * draws a new notification makes for its message amounts, before the draw that picks its
   * subsidiary, are left out along with the message texts.
   */
  datatype TickDraws = TickDraws(
    revenue: real, users: real, subscriptions: real, activity: real,
    chart: seq<real>, show: real, pick: real, stamp: string,
    growth: real, conversion: real, order: real, bars: seq<real>, userGrowth: real)

  predicate ValidDraws(d: TickDraws, s: DashboardState)
  {
    Unit(d.revenue) && Unit(d.users) && Unit(d.subscriptions) && Unit(d.activity)
    && |d.chart| == 5 && (forall i :: 0 <= i < 5 ==> Unit(d.chart[i]))
    && Unit(d.show) && Unit(d.pick) && Unit(d.growth) && Unit(d.conversion) && Unit(d.order)
    && |d.bars| == |s.bars| && (forall i :: 0 <= i < |d.bars| ==> Unit(d.bars[i]))
    && Unit(d.userGrowth)
  }

  function Tick(s: DashboardState, d: TickDraws): DashboardState
    requires ValidDraws(d, s)
  {
    DashboardState(
      MetricsTick(s.metrics, d.revenue, d.users, d.subscriptions, d.activity),
      ChartTick(s.chart, d.chart),
      FeedTick(s.feed, d.show, d.pick, d.stamp),
      KpiTick(s.kpis, d.growth, d.conversion, d.order),
      PerformanceTick(s.bars, d.bars),
      UserGrowthTick(s.userGrowth, d.userGrowth))
  }

  /** What every tick keeps: the gauges within their ranges, the floors respected, the feed short. */
  predicate WithinBounds(s: DashboardState)
  {
    ActivityFloor <= s.metrics.activity <= ActivityCeiling
    && |s.feed| <= FeedLength
    && s.kpis.userGrowth >= 5.0 && s.kpis.conversionRate >= 2.0 && s.kpis.avgOrderValue >= 80.0
    && (forall i :: 0 <= i < |s.bars| ==> s.bars[i].value >= PerformanceFloor)
  }

  /** The simulation starts within bounds. */
  lemma InitialWithinBounds()
    ensures WithinBounds(Initial)
  {
  }

  lemma TickKeepsBounds(s: DashboardState, d: TickDraws)
    requires WithinBounds(s) && ValidDraws(d, s)
    ensures WithinBounds(Tick(s, d))
  {
  }

  /** Ticks one after another, each with its own draws. */
  predicate ValidRun(s: DashboardState, ds: seq<TickDraws>)
    decreases |ds|
  {
    |ds| == 0 || (ValidDraws(ds[0], s) && ValidRun(Tick(s, ds[0]), ds[1..]))
  }

  function Run(s: DashboardState, ds: seq<TickDraws>): DashboardState
    requires ValidRun(s, ds)
    decreases |ds|
  {
    if |ds| == 0 then s else Run(Tick(s, ds[0]), ds[1..])
  }

  /**
   * However long the dashboard runs, the gauges stay within their bounds, the bar chart keeps its
   * subsidiaries, and revenue, users and subscriptions never fall.
   */
  lemma {:induction false} RunKeepsBounds(s: DashboardState, ds: seq<TickDraws>)
    requires WithinBounds(s) && ValidRun(s, ds)
    ensures WithinBounds(Run(s, ds))
    ensures |Run(s, ds).bars| == |s.bars|
    ensures Run(s, ds).metrics.revenue >= s.metrics.revenue
    ensures Run(s, ds).metrics.users >= s.metrics.users
    ensures Run(s, ds).metrics.subscriptions >= s.metrics.subscriptions
    decreases |ds|
  {
    if |ds| > 0 {
      TickKeepsBounds(s, ds[0]);
      RunKeepsBounds(Tick(s, ds[0]), ds[1..]);
    }
  }
}
