/**
 * The dashboard slice: a fixed table of sample revenue series, one per
 * filter, and the selected filter.
 */
module DashboardSlice {
  import opened Common

  /** One filter's chart: a label and a revenue figure per point. */
  datatype Series = Series(labels: seq<string>, data: seq<int>)

  const DaySeries: Series := Series(
    ["T2", "T3", "T4", "T5", "T6", "T7", "CN"],
    [5000, 6000, 5500, 7000, 8000, 7500, 1000])
  const WeekSeries: Series := Series(
    ["Tuần 1", "Tuần 2", "Tuần 3", "Tuần 4"],
    [30000, 35000, 32000, 40000])
  const MonthSeries: Series := Series(
    ["Tháng 1", "Tháng 2", "Tháng 3", "Tháng 4"],
    [120000, 150000, 140000, 160000])
  const YearSeries: Series := Series(
    ["2021", "2022", "2023", "2024"],
    [1500000, 1700000, 1600000, 1800000])

  const MockData: map<string, Series> :=
    map["day" := DaySeries, "week" := WeekSeries, "month" := MonthSeries, "year" := YearSeries]

  /** The filters the table has a series for. */
  const Filters: set<string> := {"day", "week", "month", "year"}

  /**
   * The table has exactly one series per filter, every series has as many
   * labels as figures, and the lengths are 7, 4, 4 and 4.
   */
  lemma MockDataShape()
    ensures MockData.Keys == Filters
    ensures forall f :: f in MockData ==> |MockData[f].labels| == |MockData[f].data|
    ensures |MockData["day"].data| == 7 && |MockData["week"].data| == 4
    ensures |MockData["month"].data| == 4 && |MockData["year"].data| == 4
  {
  }

  datatype DashboardState = DashboardState(
    revenueData: map<string, Series>,
    selectedFilter: string,
    loading: bool,
    error: Option<string>)

  const Initial: DashboardState := DashboardState(MockData, "day", false, None)

  lemma InitialSelectsDay()
    ensures Initial.selectedFilter == "day" && !Initial.loading && Initial.error.None?
    ensures Initial.revenueData == MockData
  {
  }

  /** Only the selection moves; the table is never modified. */
  function SetSelectedFilter(s: DashboardState, filter: string): (r: DashboardState)
    ensures r.selectedFilter == filter
    ensures r.revenueData == s.revenueData && r.loading == s.loading && r.error == s.error
  {
    s.(selectedFilter := filter)
  }
}
