/** The figures of the analytics page, src/app/analytics/page.tsx. The page
    holds the tracker's records; `Object.values(analytics)` is the sequence
    `records`, and `analytics[form.id]` is the record filed under that form,
    which is the first one carrying its id. Completion rates are exact
    rationals; the local calendar day of a timestamp is taken at offset `tz`. */
module AnalyticsPage {
  import opened Wrappers
  import opened Analytics
  import opened Seqs

  // ---------------------------------------------------------------------
  // Totals
  // ---------------------------------------------------------------------

  /** The sum of `views` over all records. */
  function TotalViews(records: seq<FormAnalytics>): (n: nat)
    ensures records == [] ==> n == 0
    ensures forall i :: 0 <= i < |records| ==> records[i].views <= n
  {
    if records == [] then 0 else TotalViews(records[..|records| - 1]) + records[|records| - 1].views
  }

  /** The sum of `completions` over all records. */
  function TotalCompletions(records: seq<FormAnalytics>): (n: nat)
    ensures records == [] ==> n == 0
    ensures forall i :: 0 <= i < |records| ==> records[i].completions <= n
  {
    if records == [] then 0
    else TotalCompletions(records[..|records| - 1]) + records[|records| - 1].completions
  }

  /** A view tracked on any one form raises the total by exactly one and
      leaves the completion total alone. */
  lemma {:induction false} TrackedViewAddsOne(records: seq<FormAnalytics>, i: nat, now: int)
    requires i < |records|
    ensures TotalViews(records[i := AfterView(records[i], now)]) == TotalViews(records) + 1
    ensures TotalCompletions(records[i := AfterView(records[i], now)]) == TotalCompletions(records)
  {
    var last := |records| - 1;
    var updated := records[i := AfterView(records[i], now)];
    if i < last {
      assert updated[..last] == records[..last][i := AfterView(records[i], now)];
      TrackedViewAddsOne(records[..last], i, now);
    } else {
      assert updated[..last] == records[..last];
    }
  }

  /** averageCompletionRate */
  function AverageCompletionRate(records: seq<FormAnalytics>): (rate: real)
    ensures TotalViews(records) == 0 ==> rate == 0.0
    ensures rate >= 0.0
    ensures TotalViews(records) > 0 ==>
              rate * TotalViews(records) as real == TotalCompletions(records) as real * 100.0
  {
    if TotalViews(records) > 0
    then (TotalCompletions(records) as real / TotalViews(records) as real) * 100.0
    else 0.0
  }

  // ---------------------------------------------------------------------
  // Per-form performance rows
  // ---------------------------------------------------------------------

  /** The parts of a form the page reads. */
  datatype FormSummary = FormSummary(id: string, title: string)

  datatype PerformanceRow = PerformanceRow(name: string, views: nat, completions: nat, completionRate: real)

  /** `analytics[form.id]` */
  function Lookup(records: seq<FormAnalytics>, formId: string): (r: Option<FormAnalytics>)
    ensures r.Some? ==> r.value in records && r.value.formId == formId
    ensures r.None? ==> forall i :: 0 <= i < |records| ==> records[i].formId != formId
  {
    if records == [] then None
    else if records[0].formId == formId then Some(records[0])
    else Lookup(records[1..], formId)
  }

  /** The chart name: at most 20 characters of the title, "..." when cut,
      "Untitled" for an empty title. */
  function DisplayName(title: string): (name: string)
    ensures title == "" ==> name == "Untitled"
    ensures 0 < |title| <= 20 ==> name == title
    ensures |title| > 20 ==> |name| == 23 && name[..20] == title[..20] && name[20..] == "..."
  {
    var cut := if |title| <= 20 then title else title[..20];
    var shown := cut + (if |title| > 20 then "..." else "");
    if shown == "" then "Untitled" else shown
  }

  function Row(records: seq<FormAnalytics>, form: FormSummary): (row: PerformanceRow)
    ensures row.name == DisplayName(form.title)
    ensures Lookup(records, form.id).None? ==> row.views == 0 && row.completions == 0 && row.completionRate == 0.0
    ensures Lookup(records, form.id).Some? ==>
              row.views == Lookup(records, form.id).value.views
              && row.completions == Lookup(records, form.id).value.completions
    ensures row.views == 0 ==> row.completionRate == 0.0
    ensures row.views > 0 ==> row.completionRate * row.views as real == row.completions as real * 100.0
  {
    match Lookup(records, form.id)
    case None => PerformanceRow(DisplayName(form.title), 0, 0, 0.0)
    case Some(a) =>
      PerformanceRow(DisplayName(form.title), a.views, a.completions,
        if a.views > 0 then (a.completions as real / a.views as real) * 100.0 else 0.0)
  }

  /** formPerformanceData: one row per form, in the order of the forms. */
  function PerformanceData(records: seq<FormAnalytics>, forms: seq<FormSummary>): (rows: seq<PerformanceRow>)
    ensures |rows| == |forms|
    ensures forall i :: 0 <= i < |forms| ==> rows[i] == Row(records, forms[i])
  {
    seq(|forms|, i requires 0 <= i < |forms| => Row(records, forms[i]))
  }

  // ---------------------------------------------------------------------
  // Completion-rate distribution
  // ---------------------------------------------------------------------

  /** The bucket of a rate: 0 excellent (80 and over), 1 good (60 and over),
      2 average (40 and over), 3 needs improvement. */
  function Bucket(rate: real): (b: nat)
    ensures b < 4
    ensures b == 0 <==> rate >= 80.0
    ensures b == 3 <==> rate < 40.0
  {
    if rate >= 80.0 then 0 else if rate >= 60.0 then 1 else if rate >= 40.0 then 2 else 3
  }

  /** The number of rows whose rate falls in bucket `b`. */
  function BucketCount(rows: seq<PerformanceRow>, b: nat): (n: nat)
    ensures n <= |rows|
    ensures b >= 4 ==> n == 0
  {
    if rows == [] then 0
    else BucketCount(rows[..|rows| - 1], b) + (if Bucket(rows[|rows| - 1].completionRate) == b then 1 else 0)
  }

  /** Every form lands in exactly one bucket. */
  lemma {:induction false} BucketsPartition(rows: seq<PerformanceRow>)
    ensures BucketCount(rows, 0) + BucketCount(rows, 1) + BucketCount(rows, 2) + BucketCount(rows, 3) == |rows|
  {
    if rows != [] {
      BucketsPartition(rows[..|rows| - 1]);
    }
  }

  /** The `forEach` that increments one of the four counters per form. */
  method CompletionRateDistribution(rows: seq<PerformanceRow>) returns (counts: seq<nat>)
    ensures |counts| == 4
    ensures forall b :: 0 <= b < 4 ==> counts[b] == BucketCount(rows, b)
    ensures counts[0] + counts[1] + counts[2] + counts[3] == |rows|
  {
    var distribution := new nat[4](_ => 0);
    var i := 0;
    while i < |rows|
      invariant 0 <= i <= |rows|
      invariant forall b :: 0 <= b < 4 ==> distribution[b] == BucketCount(rows[..i], b)
    {
      assert rows[..i + 1][..i] == rows[..i];
      var rate := rows[i].completionRate;
      if rate >= 80.0 {
        distribution[0] := distribution[0] + 1;
      } else if rate >= 60.0 {
        distribution[1] := distribution[1] + 1;
      } else if rate >= 40.0 {
        distribution[2] := distribution[2] + 1;
      } else {
        distribution[3] := distribution[3] + 1;
      }
      i := i + 1;
    }
    assert rows[..|rows|] == rows;
    counts := distribution[..];
    BucketsPartition(rows);
  }

  // ---------------------------------------------------------------------
  // Top forms
  // ---------------------------------------------------------------------

  function ViewsOf(row: PerformanceRow): int { row.views }

  /** `[...rows].sort((a, b) => b.views - a.views)` */
  function SortByViews(rows: seq<PerformanceRow>): (r: seq<PerformanceRow>)
    ensures forall i, j :: 0 <= i < j < |r| ==> r[i].views >= r[j].views
    ensures multiset(r) == multiset(rows)
  {
    SortDescending(rows, ViewsOf)
  }

  /** topForms: the five most viewed rows. */
  function TopForms(rows: seq<PerformanceRow>): (top: seq<PerformanceRow>)
    ensures |top| == if |rows| < 5 then |rows| else 5
    ensures forall i, j :: 0 <= i < j < |top| ==> top[i].views >= top[j].views
    ensures multiset(top) <= multiset(rows)
    ensures forall x :: x in multiset(rows) - multiset(top) ==>
              forall i :: 0 <= i < |top| ==> x.views <= top[i].views
  {
    var sorted := SortByViews(rows);
    var n := if |sorted| <= 5 then |sorted| else 5;
    PrefixIsTop(rows, sorted, n);
    sorted[..n]
  }

  /** When `sorted` orders `rows` by non-increasing views, its first `n`
      elements are a sub-multiset of `rows` in that order, and every row left
      out has no more views than any of them. */
  lemma PrefixIsTop(rows: seq<PerformanceRow>, sorted: seq<PerformanceRow>, n: nat)
    requires n <= |sorted| && multiset(sorted) == multiset(rows)
    requires forall i, j :: 0 <= i < j < |sorted| ==> sorted[i].views >= sorted[j].views
    ensures forall i, j :: 0 <= i < j < n ==> sorted[..n][i].views >= sorted[..n][j].views
    ensures multiset(sorted[..n]) <= multiset(rows)
    ensures forall x :: x in multiset(rows) - multiset(sorted[..n]) ==>
              forall i :: 0 <= i < n ==> x.views <= sorted[..n][i].views
  {
    var top, rest := sorted[..n], sorted[n..];
    assert sorted == top + rest;
    assert multiset(rows) - multiset(top) == multiset(rest);
    RestBelowPrefix(sorted, n);
  }

  /** In a list ordered by non-increasing views, nothing past the first `n`
      elements has more views than any of them. */
  lemma RestBelowPrefix(sorted: seq<PerformanceRow>, n: nat)
    requires n <= |sorted|
    requires forall i, j :: 0 <= i < j < |sorted| ==> sorted[i].views >= sorted[j].views
    ensures forall x :: x in multiset(sorted[n..]) ==> forall i :: 0 <= i < n ==> x.views <= sorted[..n][i].views
  {
    forall x: PerformanceRow | x in multiset(sorted[n..])
      ensures forall i :: 0 <= i < n ==> x.views <= sorted[..n][i].views
    {
      var j :| 0 <= j < |sorted[n..]| && sorted[n..][j] == x;
      assert x == sorted[n + j];
    }
  }

  /** A row with more views than some row of the top five is itself in the
      top five, as often as it occurs among the rows. */
  lemma TopFormsAreTop(rows: seq<PerformanceRow>, x: PerformanceRow, i: nat)
    requires i < |TopForms(rows)| && x.views > TopForms(rows)[i].views
    ensures multiset(TopForms(rows))[x] == multiset(rows)[x]
  {
  }

  // ---------------------------------------------------------------------
  // Daily series
  // ---------------------------------------------------------------------

  /** `new Date(t).toDateString()` as a local day number. */
  function DayOf(t: int, tz: int): int {
    (t + tz) / MsPerDay
  }

  /** Timestamps of `history` that fall on local day `d`. */
  function DayCount(history: seq<int>, d: int, tz: int): (n: nat)
    ensures n <= |history|
  {
    if history == [] then 0
    else DayCount(history[..|history| - 1], d, tz) + (if DayOf(history[|history| - 1], tz) == d then 1 else 0)
  }

  /** A day counts some timestamps exactly when one of them falls on it. */
  lemma {:induction false} DayCountPositive(history: seq<int>, d: int, tz: int)
    ensures DayCount(history, d, tz) > 0 <==> exists i :: 0 <= i < |history| && DayOf(history[i], tz) == d
  {
    if history != [] {
      var last := |history| - 1;
      DayCountPositive(history[..last], d, tz);
      if exists i :: 0 <= i < last && DayOf(history[..last][i], tz) == d {
        var i :| 0 <= i < last && DayOf(history[..last][i], tz) == d;
        assert history[i] == history[..last][i];
      }
      if exists i :: 0 <= i < |history| && DayOf(history[i], tz) == d {
        var i :| 0 <= i < |history| && DayOf(history[i], tz) == d;
        if i < last {
          assert history[..last][i] == history[i];
        }
      }
    }
  }

  /** Views on day `d` across all records. */
  function DayViews(records: seq<FormAnalytics>, d: int, tz: int): (n: nat)
    ensures forall i :: 0 <= i < |records| ==> DayCount(records[i].viewHistory, d, tz) <= n
  {
    if records == [] then 0
    else DayViews(records[..|records| - 1], d, tz) + DayCount(records[|records| - 1].viewHistory, d, tz)
  }

  /** Completions on day `d` across all records. */
  function DayCompletions(records: seq<FormAnalytics>, d: int, tz: int): nat {
    if records == [] then 0
    else DayCompletions(records[..|records| - 1], d, tz)
         + DayCount(records[|records| - 1].completionHistory, d, tz)
  }

  /** When every counter covers its history, no day shows more views than the total. */
  lemma {:induction false} DayViewsWithinTotal(records: seq<FormAnalytics>, d: int, tz: int)
    requires forall i :: 0 <= i < |records| ==> CountersCoverHistory(records[i])
    ensures DayViews(records, d, tz) <= TotalViews(records)
  {
    if records != [] {
      DayViewsWithinTotal(records[..|records| - 1], d, tz);
    }
  }

  /** One point of the series; `date` is the formatted day. */
  datatype DailyPoint = DailyPoint(date: string, views: nat, completions: nat)

  /** generateDailyData: one point per day for the `days` days ending today,
      oldest first; `format` stands for toLocaleDateString. */
  method GenerateDailyData(records: seq<FormAnalytics>, days: int, today: int, tz: int, format: int -> string)
      returns (data: seq<DailyPoint>)
    ensures |data| == if days > 0 then days else 0
    ensures forall k :: 0 <= k < |data| ==>
              var d := DayOf(today, tz) - (days - 1 - k);
              data[k] == DailyPoint(format(d), DayViews(records, d, tz), DayCompletions(records, d, tz))
  {
    data := [];
    var i := days - 1;
    while i >= 0
      invariant -1 <= i <= days - 1 || (days <= 0 && i == days - 1)
      invariant |data| == if days > 0 then days - 1 - i else 0
      invariant forall k :: 0 <= k < |data| ==>
                  var d := DayOf(today, tz) - (days - 1 - k);
                  data[k] == DailyPoint(format(d), DayViews(records, d, tz), DayCompletions(records, d, tz))
    {
      var day := DayOf(today, tz) - i;
      var dailyViews := 0;
      var dailyCompletions := 0;
      var j := 0;
      while j < |records|
        invariant 0 <= j <= |records|
        invariant dailyViews == DayViews(records[..j], day, tz)
        invariant dailyCompletions == DayCompletions(records[..j], day, tz)
      {
        assert records[..j + 1][..j] == records[..j];
        dailyViews := dailyViews + DayCount(records[j].viewHistory, day, tz);
        dailyCompletions := dailyCompletions + DayCount(records[j].completionHistory, day, tz);
        j := j + 1;
      }
      assert records[..|records|] == records;
      data := data + [DailyPoint(format(day), dailyViews, dailyCompletions)];
      i := i - 1;
    }
  }
}
