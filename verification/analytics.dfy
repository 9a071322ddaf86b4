/**
 * The group-wide analytics page: monthly revenue summed over the subsidiaries, the estimated
 * year-to-date revenue, the top performer of the last month, and the subscription and user totals.
 * Amounts are exact reals; the chart figures are whole numbers, so no rounding arises.
 */
module Analytics {
  import opened Types
  import opened Seqs
  import opened Sorting
  import Fixtures

  /** The revenue columns of a chart row, one per subsidiary. */
  datatype Subsidiary = BeokKey | WordsKey | VoidAiKey | EscanKey | EbokKey

  /** The subsidiaries in the order the page lists them. */
  const Subsidiaries: seq<Subsidiary> := [BeokKey, WordsKey, VoidAiKey, EscanKey, EbokKey]

  function KeyName(k: Subsidiary): string
  {
    match k
    case BeokKey => "BEOK"
    case WordsKey => "WORDS"
    case VoidAiKey => "VOID_AI"
    case EscanKey => "ESCAN"
    case EbokKey => "EBOK"
  }

  function RevenueOf(row: ChartRow, k: Subsidiary): real
  {
    match k
    case BeokKey => row.beok
    case WordsKey => row.words
    case VoidAiKey => row.voidAi
    case EscanKey => row.escan
    case EbokKey => row.ebok
  }

  /** `reduce((acc, sub) => acc + month[sub], 0)` over the given columns, left to right. */
  function SumOver(row: ChartRow, keys: seq<Subsidiary>): real
    decreases |keys|
  {
    if |keys| == 0 then 0.0 else SumOver(row, keys[..|keys| - 1]) + RevenueOf(row, keys[|keys| - 1])
  }

  /** A month's group revenue: the five subsidiaries' figures, without the `amt` column. */
  function MonthTotal(row: ChartRow): (r: real)
    ensures r == row.beok + row.words + row.voidAi + row.escan + row.ebok
  {
    var keys := Subsidiaries;
    assert keys[..1][..0] == [];
    assert SumOver(row, keys[..1]) == row.beok;
    assert keys[..2][..1] == keys[..1];
    assert SumOver(row, keys[..2]) == row.beok + row.words;
    assert keys[..3][..2] == keys[..2];
    assert SumOver(row, keys[..3]) == row.beok + row.words + row.voidAi;
    assert keys[..4][..3] == keys[..3];
    assert SumOver(row, keys[..4]) == row.beok + row.words + row.voidAi + row.escan;
    assert keys[..4] == keys[..5][..4] && keys[..5] == keys;
    SumOver(row, keys)
  }

  /** Changing the `amt` column or the month's name leaves its total alone. */
  lemma MonthTotalIgnoresAmt(row: ChartRow, amt: real, name: string)
    ensures MonthTotal(row.(amt := amt, name := name)) == MonthTotal(row)
  {
  }

  datatype MonthRevenue = MonthRevenue(name: string, revenue: real)

  /** The total-revenue series: one point per month, named as the month. */
  function TotalRevenueData(rows: seq<ChartRow>): (r: seq<MonthRevenue>)
    ensures |r| == |rows|
    ensures forall i :: 0 <= i < |rows| ==> r[i].name == rows[i].name
    ensures forall i :: 0 <= i < |rows| ==>
      r[i].revenue == rows[i].beok + rows[i].words + rows[i].voidAi + rows[i].escan + rows[i].ebok
  {
    Map(rows, (row: ChartRow) => MonthRevenue(row.name, MonthTotal(row)))
  }

  /** The sum of a series' revenue. */
  function SeriesSum(s: seq<MonthRevenue>): real
    decreases |s|
  {
    if |s| == 0 then 0.0 else SeriesSum(s[..|s| - 1]) + s[|s| - 1].revenue
  }

  /**
   * The estimated year-to-date revenue: the last month's group revenue times the number of months.
   * The page reads the last month without checking that there is one.
   */
  function YearToDate(rows: seq<ChartRow>): (r: real)
    requires |rows| > 0
    ensures r == TotalRevenueData(rows)[|rows| - 1].revenue * |rows| as real
  {
    MonthTotal(rows[|rows| - 1]) * |rows| as real
  }

  /** A series whose every point is `v` sums to `v` times its length. */
  lemma {:induction false} SteadySeriesSum(s: seq<MonthRevenue>, v: real)
    requires forall i :: 0 <= i < |s| ==> s[i].revenue == v
    ensures SeriesSum(s) == v * |s| as real
    decreases |s|
  {
    if |s| > 0 {
      SteadySeriesSum(s[..|s| - 1], v);
    }
  }

  /** When every month earned what the last one did, the estimate is the true sum of the months. */
  lemma YearToDateExactForSteadyMonths(rows: seq<ChartRow>)
    requires |rows| > 0
    requires forall i :: 0 <= i < |rows| ==> MonthTotal(rows[i]) == MonthTotal(rows[|rows| - 1])
    ensures YearToDate(rows) == SeriesSum(TotalRevenueData(rows))
  {
    SteadySeriesSum(TotalRevenueData(rows), MonthTotal(rows[|rows| - 1]));
  }

  /** A subsidiary's last-month figure, as the page pairs them before sorting. */
  datatype SubRevenue = SubRevenue(name: string, revenue: real)

  function RevenueBySub(row: ChartRow): (r: seq<SubRevenue>)
    ensures |r| == |Subsidiaries|
    ensures forall i :: 0 <= i < |r| ==>
      r[i].name == KeyName(Subsidiaries[i]) && r[i].revenue == RevenueOf(row, Subsidiaries[i])
  {
    Map(Subsidiaries, (k: Subsidiary) => SubRevenue(KeyName(k), RevenueOf(row, k)))
  }

  function RevenueKey(x: SubRevenue): KeyValue
  {
    Num(x.revenue)
  }

  /** The position of the earliest largest figure. */
  function BestIndex(s: seq<SubRevenue>): (i: nat)
    requires |s| > 0
    ensures i < |s|
    ensures forall j :: 0 <= j < |s| ==> s[j].revenue <= s[i].revenue
    ensures forall j :: 0 <= j < i ==> s[j].revenue < s[i].revenue
    decreases |s|
  {
    if |s| == 1 then 0
    else
      var b := BestIndex(s[1..]) + 1;
      if s[0].revenue >= s[b].revenue then 0 else b
  }

  /**
   * The top performer: the first subsidiary after sorting last month's figures largest first.
   * The sort is stable, so a tie goes to the subsidiary listed first.
   */
  function TopPerformer(row: ChartRow): (r: SubRevenue)
  {
    Sort(RevenueBySub(row), RevenueKey, Descending)[0]
  }

  /** The first row a filter keeps is the first row satisfying it. */
  lemma {:induction false} FilterFirst<T(!new)>(s: seq<T>, f: T -> bool, i: nat)
    requires i < |s| && f(s[i])
    requires forall j :: 0 <= j < i ==> !f(s[j])
    ensures |Filter(s, f)| > 0 && Filter(s, f)[0] == s[i]
    decreases i
  {
    if i > 0 {
      FilterFirst(s[1..], f, i - 1);
    }
  }

  /** After sorting largest first, the head carries the largest figure. */
  lemma HeadIsLargest(s: seq<SubRevenue>, t: seq<SubRevenue>, b: nat)
    requires b < |s| && forall j :: 0 <= j < |s| ==> s[j].revenue <= s[b].revenue
    requires multiset(t) == multiset(s) && Sorted(t, RevenueKey, Descending) && |t| > 0
    ensures t[0].revenue == s[b].revenue
  {
    assert s[b] in multiset(t);
    var k :| 0 <= k < |t| && t[k] == s[b];
    assert t[0] in multiset(s);
    var m :| 0 <= m < |s| && s[m] == t[0];
    if k > 0 {
      assert InOrder(RevenueKey(t[0]), RevenueKey(t[k]), Descending);
      InOrderMeaning(RevenueKey(t[0]), RevenueKey(t[k]), Descending);
    }
  }

  /** The top performer is the earliest subsidiary with the largest last-month figure. */
  lemma TopPerformerIsEarliestBest(row: ChartRow)
    ensures TopPerformer(row) == RevenueBySub(row)[BestIndex(RevenueBySub(row))]
  {
    var s := RevenueBySub(row);
    var t := Sort(s, RevenueKey, Descending);
    var b := BestIndex(s);
    var k := Num(s[b].revenue);
    var f := HasKeyValue(RevenueKey, k);
    HeadIsLargest(s, t, b);
    assert f(t[0]);
    FilterFirst(t, f, 0);
    assert f(s[b]) by { assert RevenueKey(s[b]) == k; }
    forall j | 0 <= j < b ensures !f(s[j]) {
      assert s[j].revenue < s[b].revenue;
      assert RevenueKey(s[j]) != k;
    }
    FilterFirst(s, f, b);
    SortStable(s, RevenueKey, Descending, k);
  }

  /** The subscription count as shown on the page: free, pro and business subscribers of the last month. */
  function TotalSubscriptions(rows: seq<SubscriptionRow>): (r: int)
    requires |rows| > 0
    ensures r == rows[|rows| - 1].free + rows[|rows| - 1].pro + rows[|rows| - 1].business
  {
    var last := rows[|rows| - 1];
    last.free + last.pro + last.business
  }

  /** The user count as shown on the page: the last point of the user-growth series. */
  function TotalUsers(points: seq<UserGrowthPoint>): (r: int)
    requires |points| > 0
    ensures r == points[|points| - 1].users
  {
    points[|points| - 1].users
  }

  /**
   * The page's subscription and user counts are not sums over the series: months before the
   * last one never change them.
   */
  lemma TotalsIgnoreEarlierMonths(earlier: seq<SubscriptionRow>, rows: seq<SubscriptionRow>,
                                  before: seq<UserGrowthPoint>, points: seq<UserGrowthPoint>)
    requires |rows| > 0 && |points| > 0
    ensures TotalSubscriptions(earlier + rows) == TotalSubscriptions(rows)
    ensures TotalUsers(before + points) == TotalUsers(points)
  { }

  /** The figures the page shows for the shipped chart data. */
  lemma FixtureFigures()
    ensures YearToDate(Fixtures.ChartData) == 129430.0
    ensures TotalSubscriptions(Fixtures.SubscriptionGrowthData) == 42800
    ensures TotalUsers(Fixtures.InitialUserGrowth) == 245301
  {
  }

  /** A month in which ESCAN earned strictly the most is topped by ESCAN. */
  lemma EscanTops(row: ChartRow)
    requires row.beok < row.escan && row.words < row.escan && row.voidAi < row.escan && row.ebok < row.escan
    ensures TopPerformer(row) == SubRevenue("ESCAN", row.escan)
  {
    var s := RevenueBySub(row);
    TopPerformerIsEarliestBest(row);
    var b := BestIndex(s);
    assert s[3] == SubRevenue("ESCAN", row.escan);
    assert s[3].revenue <= s[b].revenue;
    assert b == 3;
  }

  /** ESCAN tops the last month of the shipped chart with 5100. */
  lemma FixtureTopPerformer()
    ensures TopPerformer(Fixtures.ChartData[|Fixtures.ChartData| - 1]) == SubRevenue("ESCAN", 5100.0)
  {
    EscanTops(Fixtures.ChartData[|Fixtures.ChartData| - 1]);
  }
}
