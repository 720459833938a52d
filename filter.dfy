/** The sidebar filter: an inclusive hour range and a list of selected
    weather codes narrow the table to the filtered view. */
module Filter {
  import opened Records

  /** `Series.between(lo, hi)` with its default, both bounds included. */
  predicate Between(x: int, lo: int, hi: int)
  {
    lo <= x <= hi
  }

  /** The boolean row mask: hour in `[lo, hi]` and weather code `isin` the selection. */
  predicate Selected(r: Record, lo: int, hi: int, weathers: seq<int>)
  {
    Between(r.hr, lo, hi) && r.weathersit in weathers
  }

  /** The filtered view: the rows the mask keeps, in table order. */
  function FilterRows(rows: seq<Record>, lo: int, hi: int, weathers: seq<int>): (kept: seq<Record>)
    ensures |kept| <= |rows|
    ensures forall r :: r in kept <==> r in rows && Selected(r, lo, hi, weathers)
    ensures IsSubsequence(kept, rows)
  {
    if rows == [] then []
    else
      var rest := FilterRows(rows[1..], lo, hi, weathers);
      assert rows == [rows[0]] + rows[1..];
      if Selected(rows[0], lo, hi, weathers) then
        assert ([rows[0]] + rest)[1..] == rest;
        [rows[0]] + rest
      else
        assert rest != [] ==> rest[0] in rest && rest[0] != rows[0];
        rest
  }

  /** Each row value occurs in the view exactly as often as in the table when the
      mask keeps it, and not at all when the mask drops it. */
  lemma {:induction false} FilterKeepsMultiplicity(rows: seq<Record>, lo: int, hi: int, weathers: seq<int>, x: Record)
    ensures multiset(FilterRows(rows, lo, hi, weathers))[x]
            == if Selected(x, lo, hi, weathers) then multiset(rows)[x] else 0
  {
    if rows != [] {
      FilterKeepsMultiplicity(rows[1..], lo, hi, weathers, x);
      assert rows == [rows[0]] + rows[1..];
    }
  }

  /** An empty weather selection empties the view, whatever the hour range. */
  lemma EmptySelectionKeepsNothing(rows: seq<Record>, lo: int, hi: int)
    ensures FilterRows(rows, lo, hi, []) == []
  {
  }
}
