/** The dashboard page: the five most recent requests, the quick figures with
    their fallbacks, the trend arrow, the equipment rows per category, and the
    scrapped rate. */
module Dashboard {
  import opened Options
  import opened Seqs
  import opened Domain
  import opened Forms

  // ---------------------------------------------------------------------
  // Recent requests

  /** `requests.slice(0, 5)`. */
  function RecentRequests(requests: seq<Request>): (r: seq<Request>)
    ensures |r| == if |requests| < 5 then |requests| else 5
    ensures forall i :: 0 <= i < |r| ==> r[i] == requests[i]
  {
    if |requests| < 5 then requests else requests[..5]
  }

  /** The recent list is a prefix of the requests and keeps all of a short list. */
  lemma RecentRequestsArePrefix(requests: seq<Request>)
    ensures RecentRequests(requests) <= requests
    ensures |requests| <= 5 ==> RecentRequests(requests) == requests
  {
  }

  // ---------------------------------------------------------------------
  // Quick figures

  /** The `quickStats` object. */
  datatype QuickStats = QuickStats(todayRequests: Value, thisWeekRequests: Value, avgResolutionTime: Value)

  const InitialQuickStats := QuickStats(Num(0), Num(0), Str("2.3 days"))

  /** The figures taken from the statistics answer: each one falls back to
      its placeholder whenever the answer's value is falsy. */
  function QuickStatsOf(statistics: Form): (q: QuickStats)
    ensures q.todayRequests == OrElse(Field(statistics, "today"), Num(12))
    ensures q.thisWeekRequests == OrElse(Field(statistics, "this_week"), Num(45))
    ensures q.avgResolutionTime == OrElse(Field(statistics, "avg_resolution"), Str("2.3 days"))
  {
    QuickStats(
      OrElse(Field(statistics, "today"), Num(12)),
      OrElse(Field(statistics, "this_week"), Num(45)),
      OrElse(Field(statistics, "avg_resolution"), Str("2.3 days")))
  }

  /** An answer that reports no request today, or leaves the figures out, is
      shown with the placeholders; a non-zero count is shown as it is. */
  lemma ZeroShowsPlaceholder(statistics: Form, n: int)
    requires n != 0
    ensures QuickStatsOf(statistics["today" := Num(0)]).todayRequests == Num(12)
    ensures QuickStatsOf(map[]) == QuickStats(Num(12), Num(45), Str("2.3 days"))
    ensures QuickStatsOf(statistics["this_week" := Num(n)]).thisWeekRequests == Num(n)
  {
  }

  // ---------------------------------------------------------------------
  // Trend arrow

  const UpArrow: string := "\U{2197}\U{FE0F}"
  const DownArrow: string := "\U{2198}\U{FE0F}"
  const RightArrow: string := "\U{27A1}\U{FE0F}"

  /** `getTrendIcon`: nothing without a trend, else the arrow of the trend,
      level for any trend other than "up" and "down". */
  function TrendIcon(trend: Value): (icon: string)
    ensures icon == "" <==> !Truthy(trend)
    ensures icon == UpArrow <==> trend == Str("up")
    ensures icon == DownArrow <==> trend == Str("down")
    ensures icon == RightArrow <==> Truthy(trend) && trend != Str("up") && trend != Str("down")
  {
    if !Truthy(trend) then ""
    else if trend == Str("up") then UpArrow
    else if trend == Str("down") then DownArrow
    else RightArrow
  }

  // ---------------------------------------------------------------------
  // Equipment by category

  function CategoryOf(e: Equipment): string
  {
    e.category
  }

  /** A row of the category list. */
  datatype CategoryRow = CategoryRow(category: string, count: nat)

  /** The categories of `rows`, in order. */
  function RowCategories(rows: seq<CategoryRow>): seq<string>
  {
    if rows == [] then [] else [rows[0].category] + RowCategories(rows[1..])
  }

  /** Some equipment is of category `c`. */
  function HasEquipment(equipment: seq<Equipment>): string -> bool
  {
    (c: string) => |WithKey(equipment, CategoryOf, c)| > 0
  }

  /** The rows for the categories `categories`, in that order: one per
      category that some equipment has. */
  function CategoryRows(equipment: seq<Equipment>, categories: seq<string>): (rows: seq<CategoryRow>)
    ensures |rows| <= |categories|
    ensures RowCategories(rows) == Filter(categories, HasEquipment(equipment))
    ensures forall i :: 0 <= i < |rows| ==>
      rows[i].category in categories && rows[i].count > 0 &&
      rows[i].count == |WithKey(equipment, CategoryOf, rows[i].category)|
    ensures forall c :: c in categories && |WithKey(equipment, CategoryOf, c)| > 0 ==>
      CategoryRow(c, |WithKey(equipment, CategoryOf, c)|) in rows
  {
    if categories == [] then []
    else
      var c := categories[0];
      var count := |WithKey(equipment, CategoryOf, c)|;
      var rest := CategoryRows(equipment, categories[1..]);
      if count > 0 then
        assert ([CategoryRow(c, count)] + rest)[1..] == rest;
        [CategoryRow(c, count)] + rest
      else rest
  }

  /** The counts shown, added up. */
  function TotalShown(rows: seq<CategoryRow>): nat
  {
    if rows == [] then 0 else rows[0].count + TotalShown(rows[1..])
  }

  /** Leaving out the empty categories does not change the total. */
  lemma {:induction false} TotalShownIsSumOfCounts(equipment: seq<Equipment>, categories: seq<string>)
    ensures TotalShown(CategoryRows(equipment, categories)) == SumOfCounts(equipment, CategoryOf, categories)
  {
    if categories != [] {
      TotalShownIsSumOfCounts(equipment, categories[1..]);
      var rest := CategoryRows(equipment, categories[1..]);
      var count := |WithKey(equipment, CategoryOf, categories[0])|;
      if count > 0 {
        assert ([CategoryRow(categories[0], count)] + rest)[1..] == rest;
      }
    }
  }

  /** Rows for distinct categories never count more than the equipment,
      and count all of it exactly when every category is among them. */
  lemma RowsCountAtMostAll(equipment: seq<Equipment>, categories: seq<string>)
    requires Distinct(categories)
    ensures TotalShown(CategoryRows(equipment, categories)) <= |equipment|
    ensures TotalShown(CategoryRows(equipment, categories)) == |equipment| <==>
      forall i :: 0 <= i < |equipment| ==> equipment[i].category in categories
  {
    TotalShownIsSumOfCounts(equipment, categories);
    SumOfCountsBound(equipment, CategoryOf, categories);
  }

  /** The dashboard's rows, for the declared categories, never count more
      than the equipment; they count all of it exactly when every category is
      a declared one. */
  lemma ShownCountsBound(equipment: seq<Equipment>)
    ensures TotalShown(CategoryRows(equipment, CategoryCodes)) <= |equipment|
    ensures TotalShown(CategoryRows(equipment, CategoryCodes)) == |equipment| <==>
      forall i :: 0 <= i < |equipment| ==> equipment[i].category in CategoryCodes
  {
    CodesAreDistinct();
    RowsCountAtMostAll(equipment, CategoryCodes);
  }

  // ---------------------------------------------------------------------
  // Scrapped rate

  function IsScrapped(e: Equipment): bool
  {
    e.isScrapped
  }

  /** `Math.round(scrapped / total * 100) || 0`: the percentage of scrapped
      equipment rounded half up, and 0 for an empty list (0 / 0 is NaN). */
  function ScrappedRate(equipment: seq<Equipment>): (rate: nat)
    ensures |equipment| == 0 ==> rate == 0
    ensures rate <= 100
    ensures |Filter(equipment, IsScrapped)| == 0 ==> rate == 0
    ensures |equipment| > 0 && |Filter(equipment, IsScrapped)| == |equipment| ==> rate == 100
    ensures |equipment| > 0 ==>
      2 * |equipment| * rate <= 200 * |Filter(equipment, IsScrapped)| + |equipment| < 2 * |equipment| * (rate + 1)
  {
    var n := |equipment|;
    var k := |Filter(equipment, IsScrapped)|;
    if n == 0 then 0
    else
      RateBounds(k, n);
      RateIsNearest(k, n);
      (200 * k + n) / (2 * n)
  }

  /** The rounded percentage of `k` out of `n` lies in 0..100, and is 0 for
      none and 100 for all. */
  lemma RateBounds(k: nat, n: nat)
    requires 0 < n && k <= n
    ensures (200 * k + n) / (2 * n) <= 100
    ensures k == 0 ==> (200 * k + n) / (2 * n) == 0
    ensures k == n ==> (200 * k + n) / (2 * n) == 100
  {
    var q := (200 * k + n) / (2 * n);
    var r := (200 * k + n) % (2 * n);
    assert 2 * n * q + r == 200 * k + n && 0 <= r < 2 * n;
    if k == n {
      assert 2 * n * q + r == 2 * n * 100 + n;
    }
  }

  /** The rounded percentage of `k` out of `n` is the integer nearest to
      `100 * k / n`, halves rounded up. */
  lemma RateIsNearest(k: nat, n: nat)
    requires 0 < n
    ensures 2 * n * ((200 * k + n) / (2 * n)) <= 200 * k + n < 2 * n * ((200 * k + n) / (2 * n) + 1)
  {
    var a, b := 200 * k + n, 2 * n;
    assert a == b * (a / b) + a % b;
  }

  // ---------------------------------------------------------------------
  // Page state

  /** The three answers `fetchDashboardData` waits for. */
  datatype DashboardData = DashboardData(statistics: Form, equipment: seq<Equipment>, requests: seq<Request>)

  class Page {
    var stats: Option<Form>
    var equipment: seq<Equipment>
    var recentRequests: seq<Request>
    var loading: bool
    var quickStats: QuickStats

    constructor ()
      ensures stats.None? && equipment == [] && recentRequests == [] && loading
      ensures quickStats == InitialQuickStats
    {
      stats := None;
      equipment := [];
      recentRequests := [];
      loading := true;
      quickStats := InitialQuickStats;
    }

    /** `fetchDashboardData` with the answers, or `None` when a request
        failed: loading ends either way. */
    method FetchDashboardData(response: Option<DashboardData>)
      modifies this
      ensures !loading
      ensures response.Some? ==>
        stats == Some(response.value.statistics) && equipment == response.value.equipment &&
        recentRequests == RecentRequests(response.value.requests) &&
        quickStats == QuickStatsOf(response.value.statistics)
      ensures response.None? ==>
        stats == old(stats) && equipment == old(equipment) &&
        recentRequests == old(recentRequests) && quickStats == old(quickStats)
    {
      if response.Some? {
        stats := Some(response.value.statistics);
        equipment := response.value.equipment;
        recentRequests := RecentRequests(response.value.requests);
        quickStats := QuickStatsOf(response.value.statistics);
      }
      loading := false;
    }
  }
}
