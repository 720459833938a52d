/** The "Total Rentals" metric shown over the filtered view. */
module Kpi {
  import opened Records
  import opened Filter

  /** Sum of `cnt` over the view (`int(filtered_data['cnt'].sum())`). */
  function TotalRentals(view: seq<Record>): nat
  {
    if view == [] then 0 else view[0].cnt + TotalRentals(view[1..])
  }

  /** Reference definition: walk the whole table and add `cnt` exactly for the
      rows the mask selects. */
  function MaskedCntSum(rows: seq<Record>, lo: int, hi: int, weathers: seq<int>): nat
  {
    if rows == [] then 0
    else (if Selected(rows[0], lo, hi, weathers) then rows[0].cnt else 0)
         + MaskedCntSum(rows[1..], lo, hi, weathers)
  }

  /** Total Rentals equals the sum of `cnt` over exactly the rows that satisfy
      the filter predicate. */
  lemma {:induction false} TotalRentalsIsMaskedSum(rows: seq<Record>, lo: int, hi: int, weathers: seq<int>)
    ensures TotalRentals(FilterRows(rows, lo, hi, weathers)) == MaskedCntSum(rows, lo, hi, weathers)
  {
    if rows != [] {
      TotalRentalsIsMaskedSum(rows[1..], lo, hi, weathers);
    }
  }

  /** With no weather code selected the total is 0. */
  lemma EmptySelectionTotalIsZero(rows: seq<Record>, lo: int, hi: int)
    ensures TotalRentals(FilterRows(rows, lo, hi, [])) == 0
  {
    EmptySelectionKeepsNothing(rows, lo, hi);
  }
}
