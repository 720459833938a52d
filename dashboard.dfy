/** One top-to-bottom run of the dashboard script over the loaded table and
    the current sidebar selection: filter, Total Rentals, daily RFM table and
    the scoring stage. */
module Dashboard {
  import opened Records
  import opened Filter
  import opened Kpi
  import opened DailyRfm
  import opened Scoring

  /** A fully scored row of the daily table. */
  datatype ScoredDay = ScoredDay(daily: DailyAggregate, r: int, f: int, m: int, rfm: int, segment: Segment)

  /** Why the segmentation section stops: an equal-width fallback raised, or
      the RFM sum read a column that was never added. */
  datatype SegmentationError = Raised(column: string) | MissingColumn(column: string)

  /** Each sub-score is one of 1..4, RFM_Score is their sum in 3..12, and the
      segment is the one the thresholds give for it. */
  predicate WellScored(s: ScoredDay)
  {
    && 1 <= s.r <= 4 && 1 <= s.f <= 4 && 1 <= s.m <= 4
    && s.rfm == s.r + s.f + s.m && 3 <= s.rfm <= 12
    && s.segment == SegmentOf(s.rfm)
  }

  /** Recency scores reverse the order of Recency; Frequency and Monetary
      scores follow the order of their values. */
  predicate ScoredInOrder(v: seq<ScoredDay>)
  {
    forall i, j :: 0 <= i < |v| && 0 <= j < |v| ==>
      && (v[i].daily.recency <= v[j].daily.recency ==> v[i].r >= v[j].r)
      && (v[i].daily.frequency <= v[j].daily.frequency ==> v[i].f <= v[j].f)
      && (v[i].daily.monetary <= v[j].daily.monetary ==> v[i].m <= v[j].m)
  }

  /** What the scoring stage yields for the daily table `g`. The Frequency
      fallback raising stops it first, then the Monetary one; with both scored,
      a failed Recency binning leaves R_Score to be missed by the RFM sum.
      Otherwise every row keeps its daily values and carries the labelled
      Recency quartile, the Frequency and Monetary scores (quartile or
      equal-width), their sum and its segment. */
  ghost predicate ScoringOutcome(g: seq<DailyAggregate>, lib: Library, result: Result<seq<ScoredDay>, SegmentationError>)
    requires Lawful(lib)
  {
    var q := lib.qcut(Recencies(g));
    var f := QuartilesOrEqualWidth(Frequencies(g), lib);
    var m := QuartilesOrEqualWidth(Monetaries(g), lib);
    if f.None? then result == Err(Raised("Frequency"))
    else if m.None? then result == Err(Raised("Monetary"))
    else if q.BinError? then result == Err(MissingColumn("R_Score"))
    else
      && result.Ok?
      && |result.value| == |g|
      && (forall i :: 0 <= i < |g| ==>
            && result.value[i].daily == g[i]
            && result.value[i].r == RecencyScores(Recencies(g), q.bins)[i]
            && result.value[i].f == f.value[i]
            && result.value[i].m == m.value[i]
            && WellScored(result.value[i]))
      && ScoredInOrder(result.value)
  }

  /** The scoring stage over the daily table `g`. */
  method Segmentation(g: seq<DailyAggregate>, lib: Library) returns (result: Result<seq<ScoredDay>, SegmentationError>)
    requires Lawful(lib)
    ensures ScoringOutcome(g, lib, result)
  {
    var table := new RfmTable(g);
    var caught := table.ScoreRecency(lib);
    var raised := table.ScoreFrequency(lib);
    if raised {
      return Err(Raised("Frequency"));
    }
    raised := table.ScoreMonetary(lib);
    if raised {
      return Err(Raised("Monetary"));
    }
    var missing := table.CombineScores();
    if missing.Some? {
      return Err(MissingColumn(missing.value));
    }
    table.AssignSegments();
    var scored := Assemble(g, table.rScore.value, table.fScore.value, table.mScore.value,
                           table.rfmScore.value, table.segment.value);
    result := Ok(scored);
  }

  /** Puts the score columns of a fully scored table together row by row. */
  function Assemble(g: seq<DailyAggregate>, r: seq<int>, f: seq<int>, m: seq<int>,
                    rfm: seq<int>, seg: seq<Segment>): (v: seq<ScoredDay>)
    requires IsScoreColumn(r, |g|) && IsScoreColumn(f, |g|) && IsScoreColumn(m, |g|)
    requires rfm == SumScores(r, f, m) && seg == Segments(rfm)
    requires ScoresDescend(Recencies(g), r)
    requires ScoresAscend(Frequencies(g), f) && ScoresAscend(Monetaries(g), m)
    ensures |v| == |g|
    ensures forall i :: 0 <= i < |g| ==>
              && v[i].daily == g[i]
              && v[i].r == r[i] && v[i].f == f[i] && v[i].m == m[i]
              && v[i].rfm == rfm[i] && v[i].segment == seg[i]
              && WellScored(v[i])
    ensures ScoredInOrder(v)
  {
    var v := seq(|g|, i requires 0 <= i < |g| => ScoredDay(g[i], r[i], f[i], m[i], rfm[i], seg[i]));
    assert forall i :: 0 <= i < |g| ==> Recencies(g)[i] == g[i].recency;
    assert forall i :: 0 <= i < |g| ==> Frequencies(g)[i] == g[i].frequency;
    assert forall i :: 0 <= i < |g| ==> Monetaries(g)[i] == g[i].monetary;
    v
  }

  /** What one run puts on the page. */
  datatype Page = Page(
    totalRentals: nat,
    daily: seq<DailyAggregate>,
    segmentation: Result<seq<ScoredDay>, SegmentationError>)

  /** One run of the script for the table and the selected hour range and weather codes. */
  method Run(table: seq<Record>, lo: int, hi: int, weathers: seq<int>, lib: Library) returns (page: Page)
    requires Lawful(lib)
    ensures page.totalRentals == MaskedCntSum(table, lo, hi, weathers)
    ensures page.daily == Aggregate(FilterRows(table, lo, hi, weathers))
    ensures SumColumn(page.daily, Sum) == page.totalRentals
    ensures SumColumn(page.daily, Count) == |FilterRows(table, lo, hi, weathers)| <= |table|
    ensures weathers == [] ==> page.totalRentals == 0 && page.daily == []
    ensures ScoringOutcome(page.daily, lib, page.segmentation)
  {
    var view := FilterRows(table, lo, hi, weathers);
    TotalRentalsIsMaskedSum(table, lo, hi, weathers);
    MonetarySumsToTotalRentals(view);
    FrequenciesSumToViewSize(view);
    if weathers == [] {
      EmptySelectionKeepsNothing(table, lo, hi);
    }
    var segmentation := Segmentation(Aggregate(view), lib);
    page := Page(TotalRentals(view), Aggregate(view), segmentation);
  }
}
