/**
 * The dashboard screen's derived figures: the total revenue of the selected
 * series, the profit at a fixed 25% of revenue, and the per-point profit
 * series. Figures are exact (`real`), not floating point.
 */
module DashboardView {
  import opened DashboardSlice

  /** The filter buttons, in screen order; each dispatches its own name. */
  const FilterButtons: seq<string> := ["day", "week", "month", "year"]

  /** The profit share of revenue. */
  const ProfitRatio: real := 0.25

  /** Reference sum of a series. */
  function Sum(xs: seq<int>): int {
    if |xs| == 0 then 0 else xs[0] + Sum(xs[1..])
  }

  function SumReal(xs: seq<real>): real {
    if |xs| == 0 then 0.0 else xs[0] + SumReal(xs[1..])
  }

  /** `data.reduce((a, b) => a + b, acc)`: a left fold from `acc`. */
  function FoldAdd(xs: seq<int>, acc: int): (r: int)
    ensures r == acc + Sum(xs)
  {
    if |xs| == 0 then acc
    else FoldAdd(xs[1..], acc + xs[0])
  }

  /** The total revenue of the selected series; 0 for an empty one. */
  function TotalRevenue(s: DashboardState): (total: int)
    requires s.selectedFilter in s.revenueData
    ensures total == Sum(s.revenueData[s.selectedFilter].data)
    ensures s.revenueData[s.selectedFilter].data == [] ==> total == 0
  {
    FoldAdd(s.revenueData[s.selectedFilter].data, 0)
  }

  function TotalProfit(totalRevenue: int): (profit: real)
    ensures 4.0 * profit == totalRevenue as real
  {
    totalRevenue as real * ProfitRatio
  }

  /** `data.map(value => value * 0.25)`. */
  function ProfitSeries(xs: seq<int>): (ps: seq<real>)
    ensures |ps| == |xs|
    ensures forall i :: 0 <= i < |xs| ==> 4.0 * ps[i] == xs[i] as real
  {
    seq(|xs|, i requires 0 <= i < |xs| => xs[i] as real * ProfitRatio)
  }

  /** The per-point profits add up to the profit card's figure. */
  lemma {:induction false} ProfitSeriesSumsToTotal(xs: seq<int>)
    ensures SumReal(ProfitSeries(xs)) == TotalProfit(Sum(xs))
  {
    if |xs| > 0 {
      assert ProfitSeries(xs)[1..] == ProfitSeries(xs[1..]);
      ProfitSeriesSumsToTotal(xs[1..]);
    }
  }

  /** The dashboard state after pressing `presses` in order, from the initial state. */
  function Press(presses: seq<string>): DashboardState
    decreases |presses|
  {
    if |presses| == 0 then Initial
    else SetSelectedFilter(Press(presses[..|presses| - 1]), presses[|presses| - 1])
  }

  /**
   * Whatever buttons are pressed, the table is the sample table and the
   * selected filter has a series in it, so the totals are always defined.
   */
  lemma {:induction false} PressesKeepFilterDefined(presses: seq<string>)
    requires forall i :: 0 <= i < |presses| ==> presses[i] in FilterButtons
    ensures Press(presses).revenueData == MockData
    ensures Press(presses).selectedFilter in Press(presses).revenueData
    decreases |presses|
  {
    if |presses| > 0 {
      PressesKeepFilterDefined(presses[..|presses| - 1]);
    }
  }

  /** On first display: 40 000 revenue for the day view and 10 000 profit. */
  lemma InitialFigures()
    ensures TotalRevenue(Initial) == 40000
    ensures TotalProfit(TotalRevenue(Initial)) == 10000.0
  {
    assert Initial.revenueData[Initial.selectedFilter] == DaySeries;
  }
}
