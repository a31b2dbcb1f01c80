/**
 The daily-delta transform of SEIR.py (`get_dailynewcases`): a case history
 is a list whose element 0 is a row of dates and whose element 1 is a row of
 cumulative case totals; the transform replaces the cumulative row by the
 daily new cases, editing the caller's list in place.
 */
module DailyCases {
  import opened Results

  /** One element of the case-history list: a row of dates or a row of counts. */
  datatype Row<D> = Dates(days: seq<D>) | Counts(values: seq<int>)

  /** The exceptions the transform raises, in the order it would hit them. */
  datatype CaseError =
    | NoCountRow     // the list has no element at index 1
    | NotCountRow    // element 1 is not a row of counts
    | EmptyCountRow  // the count row has no element 0

  /**
   The daily new counts of a cumulative series: element 0 is kept as it is,
   element k >= 1 is the change from day k - 1 to day k. Nothing is clamped.
   */
  function Deltas(c: seq<int>): (d: seq<int>)
    ensures |d| == |c|
  {
    seq(|c|, k requires 0 <= k < |c| => if k == 0 then c[0] else c[k] - c[k - 1])
  }

  /** Sum of a series, peeling off its last element. */
  function Sum(d: seq<int>): int
  {
    if d == [] then 0 else Sum(d[..|d| - 1]) + d[|d| - 1]
  }

  /** Running totals: element k is the sum of elements 0..k. */
  function PrefixSums(d: seq<int>): (c: seq<int>)
    ensures |c| == |d|
  {
    seq(|d|, k requires 0 <= k < |d| => Sum(d[..k + 1]))
  }

  /** The daily counts of a non-empty series add up to its last total. */
  lemma {:induction false} SumOfDeltas(c: seq<int>)
    requires c != []
    ensures Sum(Deltas(c)) == c[|c| - 1]
  {
    var d := Deltas(c);
    if |c| == 1 {
      assert d[..0] == [];
    } else {
      var p := c[..|c| - 1];
      assert d[..|d| - 1] == Deltas(p);
      SumOfDeltas(p);
    }
  }

  /** Summing the daily counts gives back the cumulative series exactly. */
  lemma {:induction false} PrefixSumsOfDeltas(c: seq<int>)
    ensures PrefixSums(Deltas(c)) == c
  {
    forall k | 0 <= k < |c|
      ensures PrefixSums(Deltas(c))[k] == c[k]
    {
      assert Deltas(c)[..k + 1] == Deltas(c[..k + 1]);
      SumOfDeltas(c[..k + 1]);
    }
  }

  /** Differencing the running totals gives back the daily counts exactly. */
  lemma {:induction false} DeltasOfPrefixSums(d: seq<int>)
    ensures Deltas(PrefixSums(d)) == d
  {
    forall k | 0 <= k < |d|
      ensures Deltas(PrefixSums(d))[k] == d[k]
    {
      var c := PrefixSums(d);
      assert d[..k + 1][..k] == d[..k];
      assert c[k] == Sum(d[..k]) + d[k];
      if k == 0 {
        assert d[..0] == [];
      } else {
        assert c[k - 1] == Sum(d[..k]);
      }
    }
  }

  /**
   Every daily count after the first is non-negative exactly when the
   cumulative series never goes down; a drop shows up as a negative count.
   */
  lemma {:induction false} DeltasNonNegativeIffNonDecreasing(c: seq<int>)
    ensures (forall k :: 1 <= k < |c| ==> Deltas(c)[k] >= 0)
        <==> (forall j, k :: 0 <= j <= k < |c| ==> c[j] <= c[k])
    ensures forall k :: 1 <= k < |c| ==> (c[k] < c[k - 1] <==> Deltas(c)[k] < 0)
  {
    if forall k :: 1 <= k < |c| ==> Deltas(c)[k] >= 0 {
      forall j, k | 0 <= j <= k < |c|
        ensures c[j] <= c[k]
      {
        StepsToOrder(c, j, k);
      }
    }
    if forall j, k :: 0 <= j <= k < |c| ==> c[j] <= c[k] {
      forall k | 1 <= k < |c|
        ensures Deltas(c)[k] >= 0
      {
        assert c[k - 1] <= c[k];
      }
    }
  }

  lemma {:induction false} StepsToOrder(c: seq<int>, j: nat, k: nat)
    requires forall m :: 1 <= m < |c| ==> Deltas(c)[m] >= 0
    requires j <= k < |c|
    ensures c[j] <= c[k]
    decreases k - j
  {
    if j < k {
      StepsToOrder(c, j, k - 1);
      assert Deltas(c)[k] == c[k] - c[k - 1];
    }
  }

  /**
   Builds the list of daily counts (SEIR.py:39-43): element 0 of the
   cumulative row first, then each first difference in turn. An empty row
   has no element 0 to start from.
   */
  method DailyDeltas(c: seq<int>) returns (r: Result<seq<int>, CaseError>)
    ensures c == [] <==> r == Err(EmptyCountRow)
    ensures c != [] ==> r == Ok(Deltas(c))
  {
    if c == [] {
      return Err(EmptyCountRow);
    }
    var diffs := [c[0]];
    for k := 1 to |c|
      invariant |diffs| == k
      invariant diffs[0] == c[0]
      invariant forall j :: 1 <= j < k ==> diffs[j] == c[j] - c[j - 1]
    {
      diffs := diffs + [c[k] - c[k - 1]];
    }
    assert forall j :: 0 <= j < |c| ==> diffs[j] == Deltas(c)[j];
    assert diffs == Deltas(c);
    return Ok(diffs);
  }

  /**
   What the transform does to the whole list: the daily row is appended and
   element 1, the cumulative row, is removed; every other element keeps its
   place, so the list keeps its length.
   */
  function DailyNewCases<D>(rows: seq<Row<D>>): (r: Result<seq<Row<D>>, CaseError>)
    ensures r.Ok? <==> |rows| >= 2 && rows[1].Counts? && rows[1].values != []
    ensures r.Ok? ==> |r.value| == |rows| && r.value[0] == rows[0]
    ensures r.Ok? ==> r.value[|rows| - 1] == Counts(Deltas(rows[1].values))
    ensures r.Ok? ==> forall k :: 2 <= k < |rows| ==> r.value[k - 1] == rows[k]
  {
    if |rows| < 2 then Err(NoCountRow)
    else match rows[1]
      case Dates(_) => Err(NotCountRow)
      case Counts(c) =>
        if c == [] then Err(EmptyCountRow)
        else Ok(rows[..1] + rows[2..] + [Counts(Deltas(c))])
  }

  /**
   On the intended input [dates, cumulative] the result is [dates, daily]:
   the dates are untouched, and summing the daily row gives back the
   cumulative row. A one-day series comes back unchanged.
   */
  lemma TwoRowHistory<D>(dates: seq<D>, c: seq<int>)
    requires c != []
    ensures DailyNewCases([Dates(dates), Counts(c)]).Ok?
    ensures DailyNewCases([Dates(dates), Counts(c)]).value == [Dates(dates), Counts(Deltas(c))]
    ensures PrefixSums(DailyNewCases([Dates(dates), Counts(c)]).value[1].values) == c
    ensures |c| == 1 ==> DailyNewCases([Dates(dates), Counts(c)]).value == [Dates(dates), Counts(c)]
  {
    PrefixSumsOfDeltas(c);
    if |c| == 1 {
      assert Deltas(c)[0] == c[0];
      assert Deltas(c) == c;
    }
  }

  /** The caller's case-history list, which the transform edits in place. */
  class CaseHistory<D> {
    var rows: seq<Row<D>>

    constructor (rows0: seq<Row<D>>)
      ensures rows == rows0
    {
      rows := rows0;
    }

    /**
     `get_dailynewcases` (SEIR.py:30-47): append the daily row, pop element 1,
     and hand back this same list. When it raises, the list is untouched.
     */
    method GetDailyNewCases() returns (r: Result<CaseHistory<D>, CaseError>)
      modifies this
      ensures DailyNewCases(old(rows)).Ok? ==> r == Ok(this) && rows == DailyNewCases(old(rows)).value
      ensures DailyNewCases(old(rows)).Err? ==> r == Err(DailyNewCases(old(rows)).error) && rows == old(rows)
    {
      if |rows| < 2 {
        return Err(NoCountRow);
      }
      match rows[1]
      case Dates(_) =>
        return Err(NotCountRow);
      case Counts(c) =>
        var diff := DailyDeltas(c);
        if diff.Err? {
          return Err(diff.error);
        }
        ghost var before := rows;
        rows := rows + [Counts(diff.value)];  // CaseHistory.append(CaseDiff_arr)
        rows := rows[..1] + rows[2..];        // CaseHistory.pop(1)
        assert rows == before[..1] + before[2..] + [Counts(diff.value)];
        return Ok(this);
    }
  }
}
