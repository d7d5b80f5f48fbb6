/** The per-form trend chart of src/components/analytics/ResponseChart.tsx:
    views and completions grouped by UTC calendar day (the date part of
    toISOString), sorted by day, the last seven days with data kept. A day is
    a day number since the epoch; `format` stands for toLocaleDateString. */
module ResponseChart {
  import opened Wrappers
  import opened Analytics
  import AnalyticsPage

  /** `date.toISOString().split('T')[0]` as a day number. */
  function UtcDay(t: int): int {
    AnalyticsPage.DayOf(t, 0)
  }

  /** Timestamps of `history` on UTC day `d`. */
  function OnDay(history: seq<int>, d: int): nat {
    AnalyticsPage.DayCount(history, d, 0)
  }

  predicate HasDay(history: seq<int>, d: int) {
    exists i :: 0 <= i < |history| && UtcDay(history[i]) == d
  }

  predicate StrictlyIncreasing(ds: seq<int>) {
    forall i, j :: 0 <= i < j < |ds| ==> ds[i] < ds[j]
  }

  datatype ChartPoint = ChartPoint(date: string, views: nat, completions: nat)

  // ---------------------------------------------------------------------
  // Sorting the day keys
  // ---------------------------------------------------------------------

  function InsertDay(x: int, ds: seq<int>): (r: seq<int>)
    requires StrictlyIncreasing(ds)
    ensures StrictlyIncreasing(r)
    ensures forall d :: d in r <==> d in ds || d == x
  {
    if ds == [] then [x]
    else if x < ds[0] then [x] + ds
    else if x == ds[0] then ds
    else
      var tail := InsertDay(x, ds[1..]);
      assert forall k :: 0 <= k < |tail| ==> tail[k] in tail;
      [ds[0]] + tail
  }

  /** The keys sorted by date; as keys are distinct, this is the ascending
      enumeration of the key set. */
  function SortDays(keys: seq<int>): (r: seq<int>)
    ensures StrictlyIncreasing(r)
    ensures forall d :: d in r <==> d in keys
  {
    if keys == [] then []
    else
      var r := InsertDay(keys[|keys| - 1], SortDays(keys[..|keys| - 1]));
      assert forall d :: d in keys <==> d in keys[..|keys| - 1] || d == keys[|keys| - 1];
      r
  }

  // ---------------------------------------------------------------------
  // Grouping
  // ---------------------------------------------------------------------

  lemma OnDayStep(history: seq<int>, i: nat, d: int)
    requires i < |history|
    ensures OnDay(history[..i + 1], d) == OnDay(history[..i], d) + (if UtcDay(history[i]) == d then 1 else 0)
  {
    assert history[..i + 1][..i] == history[..i];
  }

  lemma HasDayStep(history: seq<int>, i: nat, d: int)
    requires i < |history|
    ensures HasDay(history[..i + 1], d) <==> HasDay(history[..i], d) || d == UtcDay(history[i])
  {
    if HasDay(history[..i + 1], d) && d != UtcDay(history[i]) {
      var j :| 0 <= j < i + 1 && UtcDay(history[..i + 1][j]) == d;
      assert history[..i][j] == history[..i + 1][j];
    }
    if HasDay(history[..i], d) {
      var j :| 0 <= j < i && UtcDay(history[..i][j]) == d;
      assert history[..i + 1][j] == history[..i][j];
    }
    if d == UtcDay(history[i]) {
      assert history[..i + 1][i] == history[i];
    }
  }

  /** The first `forEach`: a day entry per view day, its views counted. */
  method GroupViews(vh: seq<int>) returns (keys: seq<int>, dailyData: map<int, (nat, nat)>)
    ensures forall d :: d in dailyData <==> d in keys
    ensures forall d :: d in keys <==> HasDay(vh, d)
    ensures forall d :: d in dailyData ==> dailyData[d] == (OnDay(vh, d), 0)
    ensures forall d :: d !in dailyData ==> OnDay(vh, d) == 0
  {
    keys := [];
    dailyData := map[];
    var i := 0;
    while i < |vh|
      invariant 0 <= i <= |vh|
      invariant forall d :: d in dailyData <==> d in keys
      invariant forall d :: d in keys <==> HasDay(vh[..i], d)
      invariant forall d :: d in dailyData ==> dailyData[d] == (OnDay(vh[..i], d), 0)
      invariant forall d :: d !in dailyData ==> OnDay(vh[..i], d) == 0
    {
      var dayKey := UtcDay(vh[i]);
      forall d ensures OnDay(vh[..i + 1], d) == OnDay(vh[..i], d) + (if dayKey == d then 1 else 0)
                 && (HasDay(vh[..i + 1], d) <==> HasDay(vh[..i], d) || d == dayKey) {
        OnDayStep(vh, i, d);
        HasDayStep(vh, i, d);
      }
      if dayKey !in dailyData {
        dailyData := dailyData[dayKey := (0, 0)];
        keys := keys + [dayKey];
      }
      dailyData := dailyData[dayKey := (dailyData[dayKey].0 + 1, dailyData[dayKey].1)];
      i := i + 1;
    }
    assert vh[..|vh|] == vh;
  }

  /** The second `forEach`: completions counted into the same entries,
      creating an entry for a day without views. */
  method GroupCompletions(vh: seq<int>, ch: seq<int>, keys0: seq<int>, daily0: map<int, (nat, nat)>)
      returns (keys: seq<int>, dailyData: map<int, (nat, nat)>)
    requires forall d :: d in daily0 <==> d in keys0
    requires forall d :: d in keys0 <==> HasDay(vh, d)
    requires forall d :: d in daily0 ==> daily0[d] == (OnDay(vh, d), 0)
    requires forall d :: d !in daily0 ==> OnDay(vh, d) == 0
    ensures forall d :: d in dailyData <==> d in keys
    ensures forall d :: d in keys <==> HasDay(vh, d) || HasDay(ch, d)
    ensures forall d :: d in dailyData ==> dailyData[d] == (OnDay(vh, d), OnDay(ch, d))
  {
    keys := keys0;
    dailyData := daily0;
    var i := 0;
    while i < |ch|
      invariant 0 <= i <= |ch|
      invariant forall d :: d in dailyData <==> d in keys
      invariant forall d :: d in keys <==> HasDay(vh, d) || HasDay(ch[..i], d)
      invariant forall d :: d in dailyData ==> dailyData[d] == (OnDay(vh, d), OnDay(ch[..i], d))
      invariant forall d :: d !in dailyData ==> OnDay(vh, d) == 0 && OnDay(ch[..i], d) == 0
    {
      var dayKey := UtcDay(ch[i]);
      forall d ensures OnDay(ch[..i + 1], d) == OnDay(ch[..i], d) + (if dayKey == d then 1 else 0)
                 && (HasDay(ch[..i + 1], d) <==> HasDay(ch[..i], d) || d == dayKey) {
        OnDayStep(ch, i, d);
        HasDayStep(ch, i, d);
      }
      if dayKey !in dailyData {
        dailyData := dailyData[dayKey := (0, 0)];
        keys := keys + [dayKey];
      }
      dailyData := dailyData[dayKey := (dailyData[dayKey].0, dailyData[dayKey].1 + 1)];
      i := i + 1;
    }
    assert ch[..|ch|] == ch;
  }

  /** Grouping, sorting and the last seven days, for a non-empty view history. */
  method Chart(vh: seq<int>, ch: seq<int>, format: int -> string)
      returns (points: seq<ChartPoint>, allDays: seq<int>)
    ensures StrictlyIncreasing(allDays)
    ensures forall d :: d in allDays <==> HasDay(vh, d) || HasDay(ch, d)
    ensures |points| == if |allDays| < 7 then |allDays| else 7
    ensures forall k :: 0 <= k < |points| ==>
              points[k] == ChartPoint(format(allDays[|allDays| - |points| + k]),
                                      OnDay(vh, allDays[|allDays| - |points| + k]),
                                      OnDay(ch, allDays[|allDays| - |points| + k]))
  {
    var keys, dailyData := GroupViews(vh);
    keys, dailyData := GroupCompletions(vh, ch, keys, dailyData);
    var sorted := SortDays(keys);
    allDays := sorted;
    var start := if |sorted| > 7 then |sorted| - 7 else 0;
    assert forall k :: start <= k < |sorted| ==> sorted[k] in dailyData;
    points := seq(|sorted| - start, k requires 0 <= k < |sorted| - start =>
      ChartPoint(format(sorted[start + k]), dailyData[sorted[start + k]].0, dailyData[sorted[start + k]].1));
  }

  /** chartData */
  method ChartData(records: map<string, FormAnalytics>, formId: string, format: int -> string)
      returns (points: seq<ChartPoint>, allDays: seq<int>)
    ensures formId !in records || records[formId].viewHistory == [] ==> points == []
    ensures formId in records && records[formId].viewHistory != [] ==>
              var vh := records[formId].viewHistory;
              var ch := records[formId].completionHistory;
              && StrictlyIncreasing(allDays)
              && (forall d :: d in allDays <==> HasDay(vh, d) || HasDay(ch, d))
              && |points| == (if |allDays| < 7 then |allDays| else 7)
              && (forall k :: 0 <= k < |points| ==>
                    points[k] == ChartPoint(format(allDays[|allDays| - |points| + k]),
                                            OnDay(vh, allDays[|allDays| - |points| + k]),
                                            OnDay(ch, allDays[|allDays| - |points| + k])))
  {
    if formId !in records || records[formId].viewHistory == [] {
      return [], [];
    }
    points, allDays := Chart(records[formId].viewHistory, records[formId].completionHistory, format);
  }

  // ---------------------------------------------------------------------
  // The per-day counts add up to the history lengths
  // ---------------------------------------------------------------------

  /** Sum of the per-day counts of `history` over the days `ds`. */
  function SumOnDays(ds: seq<int>, history: seq<int>): nat {
    if ds == [] then 0 else SumOnDays(ds[..|ds| - 1], history) + OnDay(history, ds[|ds| - 1])
  }

  function Occurrences(ds: seq<int>, x: int): nat {
    if ds == [] then 0 else Occurrences(ds[..|ds| - 1], x) + (if ds[|ds| - 1] == x then 1 else 0)
  }

  lemma {:induction false} OccursOnce(ds: seq<int>, x: int)
    requires StrictlyIncreasing(ds)
    ensures x !in ds ==> Occurrences(ds, x) == 0
    ensures x in ds ==> Occurrences(ds, x) == 1
  {
    if ds != [] {
      var init := ds[..|ds| - 1];
      OccursOnce(init, x);
      assert forall d :: d in ds <==> d in init || d == ds[|ds| - 1];
      if ds[|ds| - 1] == x {
        assert x !in init;
      }
    }
  }

  lemma {:induction false} SumSplit(ds: seq<int>, history: seq<int>)
    requires history != []
    ensures SumOnDays(ds, history)
            == SumOnDays(ds, history[..|history| - 1]) + Occurrences(ds, UtcDay(history[|history| - 1]))
  {
    if ds != [] {
      SumSplit(ds[..|ds| - 1], history);
    }
  }

  /** Summed over a list of distinct days that includes every day of the
      history, the per-day counts give the length of the history. */
  lemma {:induction false} CountsAddUp(ds: seq<int>, history: seq<int>)
    requires StrictlyIncreasing(ds)
    requires forall i :: 0 <= i < |history| ==> UtcDay(history[i]) in ds
    ensures SumOnDays(ds, history) == |history|
  {
    if history == [] {
      SumEmpty(ds);
    } else {
      var init := history[..|history| - 1];
      assert forall i :: 0 <= i < |init| ==> init[i] == history[i];
      CountsAddUp(ds, init);
      SumSplit(ds, history);
      OccursOnce(ds, UtcDay(history[|history| - 1]));
    }
  }

  lemma {:induction false} SumEmpty(ds: seq<int>)
    ensures SumOnDays(ds, []) == 0
  {
    if ds != [] {
      SumEmpty(ds[..|ds| - 1]);
    }
  }

  /** Before the last seven are taken, the chart's views add up to the number
      of views in the history, and its completions to the number of completions. */
  lemma ChartCountsAddUp(vh: seq<int>, ch: seq<int>, allDays: seq<int>)
    requires StrictlyIncreasing(allDays)
    requires forall d :: d in allDays <==> HasDay(vh, d) || HasDay(ch, d)
    ensures SumOnDays(allDays, vh) == |vh|
    ensures SumOnDays(allDays, ch) == |ch|
  {
    forall i | 0 <= i < |vh| ensures UtcDay(vh[i]) in allDays {
      assert HasDay(vh, UtcDay(vh[i]));
    }
    forall i | 0 <= i < |ch| ensures UtcDay(ch[i]) in allDays {
      assert HasDay(ch, UtcDay(ch[i]));
    }
    CountsAddUp(allDays, vh);
    CountsAddUp(allDays, ch);
  }
}
