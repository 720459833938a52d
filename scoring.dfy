/** The scoring stage: R, F and M quartile scores, their sum, and the segment
    label, added to the daily table one column at a time. */
module Scoring {
  import opened Records
  import opened DailyRfm

  /** Outcome of one binning call of the dataframe library: for each value the
      number (1..4) of the bin it falls in, bins counted from the lowest values
      up, or the ValueError the call raises. */
  datatype Binning = BinError | Bins(bins: seq<int>)

  /** The three binning calls the dashboard makes, taken as given:
      `qcut(values, 4)`, `qcut(values, 4, duplicates='drop')` with four labels,
      and `cut(values, bins=4)`. */
  datatype Library = Library(
    qcut: seq<int> -> Binning,
    qcutDropDuplicates: seq<int> -> Binning,
    cut: seq<int> -> Binning)

  /** What a successful binning call delivers: one bin in 1..4 per value, and a
      value never lands in a higher bin than a value at least as large. */
  predicate OrderedBinning(values: seq<int>, bins: seq<int>)
  {
    && |bins| == |values|
    && (forall i :: 0 <= i < |bins| ==> 1 <= bins[i] <= 4)
    && (forall i, j :: 0 <= i < |values| && 0 <= j < |values| && values[i] <= values[j] ==> bins[i] <= bins[j])
  }

  /** Every call that succeeds delivers an ordered binning of its input. */
  ghost predicate Lawful(lib: Library)
  {
    && (forall v :: lib.qcut(v).Bins? ==> OrderedBinning(v, lib.qcut(v).bins))
    && (forall v :: lib.qcutDropDuplicates(v).Bins? ==> OrderedBinning(v, lib.qcutDropDuplicates(v).bins))
    && (forall v :: lib.cut(v).Bins? ==> OrderedBinning(v, lib.cut(v).bins))
  }

  /** Labels for Recency, lowest bin first: the most recent days score highest. */
  const RECENCY_LABELS: seq<int> := [4, 3, 2, 1]
  /** Labels for Frequency and Monetary, lowest bin first. */
  const ASCENDING_LABELS: seq<int> := [1, 2, 3, 4]

  /** Bin `k` gets `labels[k - 1]`, then `astype(int)`. */
  function ApplyLabels(bins: seq<int>, labels: seq<int>): seq<int>
    requires |labels| == 4
    requires forall i :: 0 <= i < |bins| ==> 1 <= bins[i] <= 4
  {
    seq(|bins|, i requires 0 <= i < |bins| => labels[bins[i] - 1])
  }

  /** A score column for `n` rows: each score one of 1..4. */
  predicate IsScoreColumn(scores: seq<int>, n: int)
  {
    |scores| == n && forall i :: 0 <= i < n ==> 1 <= scores[i] <= 4
  }

  /** A larger value never scores lower. */
  predicate ScoresAscend(values: seq<int>, scores: seq<int>)
    requires |scores| == |values|
  {
    forall i, j :: 0 <= i < |values| && 0 <= j < |values| && values[i] <= values[j] ==> scores[i] <= scores[j]
  }

  /** A smaller value never scores lower. */
  predicate ScoresDescend(values: seq<int>, scores: seq<int>)
    requires |scores| == |values|
  {
    forall i, j :: 0 <= i < |values| && 0 <= j < |values| && values[i] <= values[j] ==> scores[i] >= scores[j]
  }

  /** R_Score from the quartile bins of Recency, labelled 4, 3, 2, 1. */
  function RecencyScores(recency: seq<int>, bins: seq<int>): (scores: seq<int>)
    requires OrderedBinning(recency, bins)
    ensures IsScoreColumn(scores, |recency|)
    ensures ScoresDescend(recency, scores)
  {
    ApplyLabels(bins, RECENCY_LABELS)
  }

  /** F_Score or M_Score from bins of Frequency or Monetary, labelled 1, 2, 3, 4. */
  function AscendingScores(values: seq<int>, bins: seq<int>): (scores: seq<int>)
    requires OrderedBinning(values, bins)
    ensures IsScoreColumn(scores, |values|)
    ensures ScoresAscend(values, scores)
  {
    ApplyLabels(bins, ASCENDING_LABELS)
  }

  /** The try/except of the Frequency and Monetary scores: quartiles (dropping
      duplicate edges); when they raise, four equal-width bins. `None` is the
      equal-width call raising in turn, which nothing catches. */
  function QuartilesOrEqualWidth(values: seq<int>, lib: Library): (scores: Option<seq<int>>)
    requires Lawful(lib)
    ensures scores.None? <==> lib.qcutDropDuplicates(values).BinError? && lib.cut(values).BinError?
    ensures scores.Some? ==> IsScoreColumn(scores.value, |values|) && ScoresAscend(values, scores.value)
    ensures lib.qcutDropDuplicates(values).Bins? ==>
              scores == Some(AscendingScores(values, lib.qcutDropDuplicates(values).bins))
    ensures lib.qcutDropDuplicates(values).BinError? && lib.cut(values).Bins? ==>
              scores == Some(AscendingScores(values, lib.cut(values).bins))
  {
    match lib.qcutDropDuplicates(values)
    case Bins(q) => Some(AscendingScores(values, q))
    case BinError =>
      match lib.cut(values)
      case Bins(c) => Some(AscendingScores(values, c))
      case BinError => None
  }

  /** The customer segments, in the chart's order. */
  datatype Segment = VIP | Regular | ChurnRisk
  {
    function Name(): string
    {
      match this
      case VIP => "VIP"
      case Regular => "Regular"
      case ChurnRisk => "Churn Risk"
    }

    /** Position in the order Churn Risk < Regular < VIP. */
    function Rank(): nat
    {
      match this
      case ChurnRisk => 0
      case Regular => 1
      case VIP => 2
    }
  }

  /** `segment_customer` on a row's RFM_Score. */
  function SegmentOf(score: int): Segment
  {
    if score >= 9 then VIP
    else if score >= 5 then Regular
    else ChurnRisk
  }

  /** The three segments split the scores at the fixed thresholds 5 and 9. */
  lemma SegmentThresholds(score: int)
    ensures SegmentOf(score) == VIP <==> 9 <= score
    ensures SegmentOf(score) == Regular <==> 5 <= score < 9
    ensures SegmentOf(score) == ChurnRisk <==> score < 5
  {
  }

  /** A higher RFM score never lands in a lower segment. */
  lemma SegmentMonotone(a: int, b: int)
    requires a <= b
    ensures SegmentOf(a).Rank() <= SegmentOf(b).Rank()
  {
  }

  /** The boundary scores and the names the table shows. */
  lemma SegmentBoundaries()
    ensures SegmentOf(3) == ChurnRisk && SegmentOf(4) == ChurnRisk
    ensures SegmentOf(5) == Regular && SegmentOf(8) == Regular
    ensures SegmentOf(9) == VIP && SegmentOf(12) == VIP
    ensures VIP.Name() == "VIP" && Regular.Name() == "Regular" && ChurnRisk.Name() == "Churn Risk"
  {
  }

  function Recencies(g: seq<DailyAggregate>): (col: seq<int>)
    ensures |col| == |g|
  {
    seq(|g|, i requires 0 <= i < |g| => g[i].recency)
  }

  function Frequencies(g: seq<DailyAggregate>): (col: seq<int>)
    ensures |col| == |g|
  {
    seq(|g|, i requires 0 <= i < |g| => g[i].frequency as int)
  }

  function Monetaries(g: seq<DailyAggregate>): (col: seq<int>)
    ensures |col| == |g|
  {
    seq(|g|, i requires 0 <= i < |g| => g[i].monetary as int)
  }

  /** The RFM_Score column: the three score columns added row by row. */
  function SumScores(r: seq<int>, f: seq<int>, m: seq<int>): (total: seq<int>)
    requires IsScoreColumn(r, |r|) && IsScoreColumn(f, |r|) && IsScoreColumn(m, |r|)
    ensures |total| == |r|
    ensures forall i :: 0 <= i < |r| ==> 3 <= total[i] <= 12
  {
    seq(|r|, i requires 0 <= i < |r| => r[i] + f[i] + m[i])
  }

  function Segments(rfm: seq<int>): seq<Segment>
  {
    seq(|rfm|, i requires 0 <= i < |rfm| => SegmentOf(rfm[i]))
  }

  /** The daily table while the scoring stage adds its columns; a column that
      has not been added (or whose computation raised) is `None`. */
  class RfmTable {
    const rows: seq<DailyAggregate>
    var rScore: Option<seq<int>>
    var fScore: Option<seq<int>>
    var mScore: Option<seq<int>>
    var rfmScore: Option<seq<int>>
    var segment: Option<seq<Segment>>

    /** Each column present is a proper column for `rows`, scored in its
        direction; RFM_Score and Segment are derived from the columns before them. */
    ghost predicate Valid()
      reads this
    {
      && (rScore.Some? ==> IsScoreColumn(rScore.value, |rows|) && ScoresDescend(Recencies(rows), rScore.value))
      && (fScore.Some? ==> IsScoreColumn(fScore.value, |rows|) && ScoresAscend(Frequencies(rows), fScore.value))
      && (mScore.Some? ==> IsScoreColumn(mScore.value, |rows|) && ScoresAscend(Monetaries(rows), mScore.value))
      && (rfmScore.Some? ==>
            && rScore.Some? && fScore.Some? && mScore.Some?
            && rfmScore.value == SumScores(rScore.value, fScore.value, mScore.value))
      && (segment.Some? ==> rfmScore.Some? && segment.value == Segments(rfmScore.value))
    }

    /** The table as the group-by returns it, with no score columns yet. */
    constructor (g: seq<DailyAggregate>)
      ensures Valid() && rows == g
      ensures rScore.None? && fScore.None? && mScore.None? && rfmScore.None? && segment.None?
    {
      rows := g;
      rScore, fScore, mScore := None, None, None;
      rfmScore, segment := None, None;
    }

    /** Adds R_Score from the quartiles of Recency; when they raise, the error
        is caught (`caught`) and no column is added. */
    method ScoreRecency(lib: Library) returns (caught: bool)
      requires Valid() && Lawful(lib)
      requires rfmScore.None?
      modifies this
      ensures Valid()
      ensures caught <==> lib.qcut(Recencies(rows)).BinError?
      ensures rScore == if caught then old(rScore) else Some(RecencyScores(Recencies(rows), lib.qcut(Recencies(rows)).bins))
      ensures fScore == old(fScore) && mScore == old(mScore)
      ensures rfmScore == old(rfmScore) && segment == old(segment)
    {
      var b := lib.qcut(Recencies(rows));
      caught := b.BinError?;
      if !caught {
        rScore := Some(RecencyScores(Recencies(rows), b.bins));
      }
    }

    /** Adds F_Score; `raised` is the equal-width fallback raising, which ends the run. */
    method ScoreFrequency(lib: Library) returns (raised: bool)
      requires Valid() && Lawful(lib)
      requires rfmScore.None?
      modifies this
      ensures Valid()
      ensures raised <==> QuartilesOrEqualWidth(Frequencies(rows), lib).None?
      ensures fScore == if raised then old(fScore) else QuartilesOrEqualWidth(Frequencies(rows), lib)
      ensures rScore == old(rScore) && mScore == old(mScore)
      ensures rfmScore == old(rfmScore) && segment == old(segment)
    {
      var scores := QuartilesOrEqualWidth(Frequencies(rows), lib);
      raised := scores.None?;
      if !raised {
        fScore := scores;
      }
    }

    /** Adds M_Score; `raised` is the equal-width fallback raising, which ends the run. */
    method ScoreMonetary(lib: Library) returns (raised: bool)
      requires Valid() && Lawful(lib)
      requires rfmScore.None?
      modifies this
      ensures Valid()
      ensures raised <==> QuartilesOrEqualWidth(Monetaries(rows), lib).None?
      ensures mScore == if raised then old(mScore) else QuartilesOrEqualWidth(Monetaries(rows), lib)
      ensures rScore == old(rScore) && fScore == old(fScore)
      ensures rfmScore == old(rfmScore) && segment == old(segment)
    {
      var scores := QuartilesOrEqualWidth(Monetaries(rows), lib);
      raised := scores.None?;
      if !raised {
        mScore := scores;
      }
    }

    /** Adds RFM_Score = R_Score + F_Score + M_Score. Reading a column that was
        never added raises a KeyError naming it (`missing`) and adds nothing. */
    method CombineScores() returns (missing: Option<string>)
      requires Valid()
      modifies this
      ensures Valid()
      ensures missing == (if old(rScore).None? then Some("R_Score")
                          else if old(fScore).None? then Some("F_Score")
                          else if old(mScore).None? then Some("M_Score")
                          else None)
      ensures missing.Some? ==> rfmScore == old(rfmScore)
      ensures missing.None? ==> rfmScore.Some? && forall i :: 0 <= i < |rows| ==>
                3 <= rfmScore.value[i] <= 12
                && rfmScore.value[i] == rScore.value[i] + fScore.value[i] + mScore.value[i]
      ensures rScore == old(rScore) && fScore == old(fScore) && mScore == old(mScore)
      ensures segment == old(segment)
    {
      if rScore.None? {
        missing := Some("R_Score");
      } else if fScore.None? {
        missing := Some("F_Score");
      } else if mScore.None? {
        missing := Some("M_Score");
      } else {
        missing := None;
        rfmScore := Some(SumScores(rScore.value, fScore.value, mScore.value));
      }
    }

    /** Adds Segment by applying `segment_customer` to every row. */
    method AssignSegments()
      requires Valid() && rfmScore.Some?
      modifies this
      ensures Valid()
      ensures segment.Some? && |segment.value| == |rows|
      ensures forall i :: 0 <= i < |rows| ==> segment.value[i] == SegmentOf(rfmScore.value[i])
      ensures rScore == old(rScore) && fScore == old(fScore) && mScore == old(mScore)
      ensures rfmScore == old(rfmScore)
    {
      segment := Some(Segments(rfmScore.value));
    }
  }
}
