/** The client-side analytics tracker of src/lib/analytics.ts. Records are
    kept per form id; each call reads the records, changes one of them and
    writes them back, which the model expresses as a store object whose
    record map is reassigned. Timestamps are milliseconds since the epoch,
    the clock is a parameter, and the local hour of a timestamp is taken at
    a fixed offset `tz` from UTC. */
module Analytics {
  import opened Wrappers
  import opened Text
  import opened Seqs

  const MsPerHour := 60 * 60 * 1000
  const MsPerDay := 24 * MsPerHour
  /** The history window: `30 * 24 * 60 * 60 * 1000`. */
  const Window := 30 * MsPerDay

  datatype FormAnalytics = FormAnalytics(
    formId: string,
    views: nat,
    completions: nat,
    lastViewed: int,
    viewHistory: seq<int>,
    completionHistory: seq<int>)

  /** A record before its first view or completion. */
  function NewRecord(formId: string, now: int): (r: FormAnalytics)
    ensures r.formId == formId && r.views == 0 && r.completions == 0
    ensures r.viewHistory == [] && r.completionHistory == []
  {
    FormAnalytics(formId, 0, 0, now, [], [])
  }

  /** The stored record, or a fresh one when the form has none. */
  function RecordOrNew(records: map<string, FormAnalytics>, formId: string, now: int): FormAnalytics {
    if formId in records then records[formId] else NewRecord(formId, now)
  }

  /** `history.filter(date => date >= thirtyDaysAgo)` */
  function KeepRecent(history: seq<int>, now: int): (r: seq<int>)
    ensures forall i :: 0 <= i < |r| ==> r[i] >= now - Window
    ensures forall i :: 0 <= i < |history| && history[i] >= now - Window ==> history[i] in r
    ensures forall t :: multiset(r)[t] == if t >= now - Window then multiset(history)[t] else 0
    ensures |r| <= |history|
  {
    if history == [] then []
    else
      assert history == [history[0]] + history[1..];
      assert multiset(history) == multiset{history[0]} + multiset(history[1..]);
      if history[0] >= now - Window then [history[0]] + KeepRecent(history[1..], now)
      else KeepRecent(history[1..], now)
  }

  /** Trimming keeps the surviving timestamps in their order. */
  lemma {:induction false} KeepRecentIsSubsequence(history: seq<int>, now: int)
    ensures IsSubsequence(KeepRecent(history, now), history)
  {
    if history != [] {
      KeepRecentIsSubsequence(history[1..], now);
      if history[0] < now - Window {
        SubsequenceOfTail(KeepRecent(history[1..], now), history);
      }
    }
  }

  /** The record after one view at `now`. */
  function AfterView(r: FormAnalytics, now: int): (a: FormAnalytics)
    ensures a.views == r.views + 1 && a.lastViewed == now
    ensures now in a.viewHistory
    ensures forall i :: 0 <= i < |a.viewHistory| ==> a.viewHistory[i] >= now - Window
    ensures forall t :: t in r.viewHistory && t >= now - Window ==> t in a.viewHistory
    ensures forall t :: multiset(a.viewHistory)[t] == if t >= now - Window then multiset(r.viewHistory + [now])[t] else 0
    ensures IsSubsequence(a.viewHistory, r.viewHistory + [now])
    ensures |a.viewHistory| <= |r.viewHistory| + 1
    ensures a.formId == r.formId && a.completions == r.completions
    ensures a.completionHistory == r.completionHistory
  {
    var h := r.viewHistory + [now];
    assert h[|h| - 1] == now;
    KeepRecentIsSubsequence(h, now);
    assert forall t :: t in r.viewHistory ==> t in h;
    r.(views := r.views + 1, lastViewed := now, viewHistory := KeepRecent(h, now))
  }

  /** The record after one completion at `now`. */
  function AfterCompletion(r: FormAnalytics, now: int): (a: FormAnalytics)
    ensures a.completions == r.completions + 1
    ensures now in a.completionHistory
    ensures forall i :: 0 <= i < |a.completionHistory| ==> a.completionHistory[i] >= now - Window
    ensures forall t :: t in r.completionHistory && t >= now - Window ==> t in a.completionHistory
    ensures forall t :: multiset(a.completionHistory)[t] == if t >= now - Window then multiset(r.completionHistory + [now])[t] else 0
    ensures IsSubsequence(a.completionHistory, r.completionHistory + [now])
    ensures |a.completionHistory| <= |r.completionHistory| + 1
    ensures a.formId == r.formId && a.views == r.views && a.lastViewed == r.lastViewed
    ensures a.viewHistory == r.viewHistory
  {
    var h := r.completionHistory + [now];
    assert h[|h| - 1] == now;
    KeepRecentIsSubsequence(h, now);
    assert forall t :: t in r.completionHistory ==> t in h;
    r.(completions := r.completions + 1, completionHistory := KeepRecent(h, now))
  }

  /** Counters never fall below the number of timestamps kept: trimming only
      shortens histories, so `views` may exceed the history length. */
  predicate CountersCoverHistory(r: FormAnalytics) {
    r.views >= |r.viewHistory| && r.completions >= |r.completionHistory|
  }

  lemma TrackingKeepsCountersCovering(r: FormAnalytics, now: int)
    requires CountersCoverHistory(r)
    ensures CountersCoverHistory(AfterView(r, now))
    ensures CountersCoverHistory(AfterCompletion(r, now))
  {
  }

  /** Two views more than thirty days apart count twice, but only the later
      one stays in the history. */
  lemma ViewsOutliveHistory(formId: string, t: int)
    ensures var r := AfterView(AfterView(NewRecord(formId, t), t), t + Window + 1);
            r.views == 2 && r.viewHistory == [t + Window + 1]
  {
    var first := AfterView(NewRecord(formId, t), t);
    assert first.viewHistory == [t];
    var h := first.viewHistory + [t + Window + 1];
    assert h == [t, t + Window + 1];
    assert h[1..] == [t + Window + 1] && h[1..][1..] == [];
    assert KeepRecent(h, t + Window + 1) == [t + Window + 1];
  }

  /** getCompletionRate: 0 without a record or views, else completions per view in percent. */
  function CompletionRate(records: map<string, FormAnalytics>, formId: string): (rate: real)
    ensures formId !in records || records[formId].views == 0 ==> rate == 0.0
    ensures formId in records && records[formId].views > 0 ==>
              rate * records[formId].views as real == records[formId].completions as real * 100.0
    ensures rate >= 0.0
  {
    if formId !in records || records[formId].views == 0 then 0.0
    else (records[formId].completions as real / records[formId].views as real) * 100.0
  }

  // ---------------------------------------------------------------------
  // Most active hour
  // ---------------------------------------------------------------------

  /** `date.getHours()` at offset `tz`. */
  function HourOf(t: int, tz: int): (h: nat)
    ensures h < 24
  {
    ((t + tz) % MsPerDay) / MsPerHour
  }

  /** Views in `history` whose local hour is `h`. */
  function HourCount(history: seq<int>, tz: int, h: nat): nat {
    if history == [] then 0
    else HourCount(history[..|history| - 1], tz, h)
         + (if HourOf(history[|history| - 1], tz) == h then 1 else 0)
  }

  /** The hour the reduce selects: a largest count, and of the hours with that
      count the latest, because a later key replaces the accumulator unless the
      accumulator's count is strictly greater. */
  predicate IsMostActive(history: seq<int>, tz: int, h: nat)
    ensures IsMostActive(history, tz, h) ==> exists i :: 0 <= i < |history| && HourOf(history[i], tz) == h
  {
    if h < 24 && HourCount(history, tz, h) > 0 then
      CountedHourOccurs(history, tz, h);
      && (forall g :: 0 <= g < 24 ==> HourCount(history, tz, g) <= HourCount(history, tz, h))
      && (forall g :: h < g < 24 ==> HourCount(history, tz, g) < HourCount(history, tz, h))
    else false
  }

  /** At most one hour is the most active one. */
  lemma MostActiveUnique(history: seq<int>, tz: int, h1: nat, h2: nat)
    requires IsMostActive(history, tz, h1) && IsMostActive(history, tz, h2)
    ensures h1 == h2
  {
  }

  /** The most active hour is the hour of some view. */
  lemma {:induction false} CountedHourOccurs(history: seq<int>, tz: int, h: nat)
    requires HourCount(history, tz, h) > 0
    ensures exists i :: 0 <= i < |history| && HourOf(history[i], tz) == h
  {
    var last := |history| - 1;
    if HourOf(history[last], tz) != h {
      CountedHourOccurs(history[..last], tz, h);
      var i :| 0 <= i < last && HourOf(history[..last][i], tz) == h;
      assert history[i] == history[..last][i];
    }
  }

  /** `${h}:00 - ${h + 1}:00` */
  function HourLabel(h: nat): (l: string)
    ensures ParseInt(l) == Some(h)
  {
    var d := NatToString(h);
    var l := d + ":00 - " + NatToString(h + 1) + ":00";
    ParseDigitString(h);
    DigitPrefix(d, l[|d|..]);
    assert d + l[|d|..] == l;
    ParseUnsignedText(l, h);
    l
  }

  /** The hour-count loop and the reduce over the counted hours, in ascending order. */
  method MostActiveHour(history: seq<int>, tz: int) returns (best: nat)
    requires history != []
    ensures IsMostActive(history, tz, best)
  {
    var hourCounts := new nat[24](_ => 0);
    var i := 0;
    while i < |history|
      invariant 0 <= i <= |history|
      invariant forall h :: 0 <= h < 24 ==> hourCounts[h] == HourCount(history[..i], tz, h)
    {
      var hour := HourOf(history[i], tz);
      assert history[..i + 1][..i] == history[..i];
      hourCounts[hour] := hourCounts[hour] + 1;
      i := i + 1;
    }
    assert history[..|history|] == history;
    var found := false;
    best := 0;
    var h := 0;
    while h < 24
      invariant 0 <= h <= 24
      invariant found ==> best < h && hourCounts[best] > 0
      invariant !found ==> forall g :: 0 <= g < h ==> hourCounts[g] == 0
      invariant found ==> forall g :: 0 <= g < h ==> hourCounts[g] <= hourCounts[best]
      invariant found ==> forall g :: best < g < h ==> hourCounts[g] < hourCounts[best]
    {
      if hourCounts[h] > 0 {
        if !found || !(hourCounts[best] > hourCounts[h]) {
          best := h;
          found := true;
        }
      }
      h := h + 1;
    }
    if !found {
      LastViewHourCounted(history, tz);
      assert false;
    }
  }

  /** Every view is counted under some hour. */
  lemma LastViewHourCounted(history: seq<int>, tz: int)
    requires history != []
    ensures HourCount(history, tz, HourOf(history[|history| - 1], tz)) > 0
  {
  }

  class AnalyticsStore {
    var records: map<string, FormAnalytics>

    constructor (initial: map<string, FormAnalytics>)
      ensures records == initial
    {
      records := initial;
    }

    /** Every record is filed under its own form id and its counters cover its histories. */
    ghost predicate Valid()
      reads this
    {
      forall id :: id in records ==> records[id].formId == id && CountersCoverHistory(records[id])
    }

    /** trackFormView */
    method TrackFormView(formId: string, now: int)
      modifies this
      ensures records == old(records)[formId := AfterView(RecordOrNew(old(records), formId, now), now)]
      ensures old(Valid()) ==> Valid()
    {
      var r: FormAnalytics;
      if formId !in records {
        r := NewRecord(formId, now);
      } else {
        r := records[formId];
      }
      r := r.(views := r.views + 1);
      r := r.(lastViewed := now);
      r := r.(viewHistory := r.viewHistory + [now]);
      r := r.(viewHistory := KeepRecent(r.viewHistory, now));
      records := records[formId := r];
    }

    /** trackFormCompletion */
    method TrackFormCompletion(formId: string, now: int)
      modifies this
      ensures records == old(records)[formId := AfterCompletion(RecordOrNew(old(records), formId, now), now)]
      ensures old(Valid()) ==> Valid()
    {
      var r: FormAnalytics;
      if formId !in records {
        r := NewRecord(formId, now);
      } else {
        r := records[formId];
      }
      r := r.(completions := r.completions + 1);
      r := r.(completionHistory := r.completionHistory + [now]);
      r := r.(completionHistory := KeepRecent(r.completionHistory, now));
      records := records[formId := r];
    }

    /** getCompletionRate */
    function GetCompletionRate(formId: string): (rate: real)
      reads this
      ensures formId !in records || records[formId].views == 0 ==> rate == 0.0
      ensures formId in records && records[formId].views > 0 ==>
                rate * records[formId].views as real == records[formId].completions as real * 100.0
      ensures rate >= 0.0
    {
      CompletionRate(records, formId)
    }

    /** getMostActiveTime */
    method GetMostActiveTime(formId: string, tz: int) returns (message: string)
      ensures formId !in records || records[formId].viewHistory == [] ==> message == "No data"
      ensures formId in records && records[formId].viewHistory != [] ==>
                exists h :: IsMostActive(records[formId].viewHistory, tz, h) && message == HourLabel(h)
    {
      if formId !in records || records[formId].viewHistory == [] {
        return "No data";
      }
      var h := MostActiveHour(records[formId].viewHistory, tz);
      message := HourLabel(h);
    }
  }
}
