/** The responses page, src/app/responses/page.tsx: responses of every form
    collected into one list, filtered by a search term, a form and a date,
    deleted one at a time, and exported as CSV. Network results, the clock,
    the local time zone offset `tz`, the month-ago date and date formatting
    are parameters; `String(value)` of each data value and
    `JSON.stringify(data)` are carried by the response. */
module ResponsesPage {
  import opened Wrappers
  import opened Text
  import opened Seqs

  const MsPerDay := 24 * 60 * 60 * 1000

  /** A response as the API returns it. */
  datatype RawResponse = RawResponse(
    id: string,
    formId: string,
    createdAt: int,
    dataValues: seq<string>,
    dataJson: string)

  /** ResponseWithFormTitle */
  datatype Response = Response(raw: RawResponse, formTitle: string)

  datatype FormSummary = FormSummary(id: string, title: string)

  // ---------------------------------------------------------------------
  // Collection
  // ---------------------------------------------------------------------

  /** `form.title || 'Untitled Form'` */
  function TitleOrDefault(title: string): (t: string)
    ensures title != "" ==> t == title
    ensures title == "" ==> t == "Untitled Form"
  {
    if title == "" then "Untitled Form" else title
  }

  /** `formResponseData.map(response => ({ ...response, formTitle }))` */
  function Tagged(raws: seq<RawResponse>, title: string): (rs: seq<Response>)
    ensures |rs| == |raws|
    ensures forall i :: 0 <= i < |raws| ==> rs[i] == Response(raws[i], title)
  {
    seq(|raws|, i requires 0 <= i < |raws| => Response(raws[i], title))
  }

  /** The responses pushed by the loop over the forms, a failed fetch adding nothing. */
  function Collected(forms: seq<FormSummary>, fetch: string -> Result<seq<RawResponse>, string>): (rs: seq<Response>)
    ensures forms == [] ==> rs == []
  {
    if forms == [] then []
    else Collected(forms[..|forms| - 1], fetch) + Fetched(forms[|forms| - 1], fetch)
  }

  /** What one form adds: its responses tagged with its title, or nothing
      when its fetch fails. */
  function Fetched(form: FormSummary, fetch: string -> Result<seq<RawResponse>, string>): (rs: seq<Response>)
    ensures forall r :: r in rs <==> CameFrom(form, fetch, r)
  {
    match fetch(form.id)
    case Ok(raws) =>
      var rs := Tagged(raws, TitleOrDefault(form.title));
      assert forall r: Response :: r in rs ==> r.raw in raws && r.formTitle == TitleOrDefault(form.title);
      assert forall r: Response :: r.raw in raws && r.formTitle == TitleOrDefault(form.title) ==> r in rs by {
        forall r: Response | r.raw in raws && r.formTitle == TitleOrDefault(form.title)
          ensures r in rs
        {
          var k :| 0 <= k < |raws| && raws[k] == r.raw;
          assert rs[k] == r;
        }
      }
      rs
    case Err(_) => []
  }

  /** When every fetch fails, nothing is collected. */
  lemma {:induction false} NothingCollectedWhenAllFail(forms: seq<FormSummary>, fetch: string -> Result<seq<RawResponse>, string>)
    requires forall i :: 0 <= i < |forms| ==> fetch(forms[i].id).Err?
    ensures Collected(forms, fetch) == []
  {
    if forms != [] {
      var n := |forms| - 1;
      assert forall i :: 0 <= i < n ==> forms[..n][i] == forms[i];
      NothingCollectedWhenAllFail(forms[..n], fetch);
      assert fetch(forms[n].id).Err?;
    }
  }

  /** `r` was returned by the successful fetch of `form` and tagged with its title. */
  predicate CameFrom(form: FormSummary, fetch: string -> Result<seq<RawResponse>, string>, r: Response) {
    fetch(form.id).Ok? && r.raw in fetch(form.id).value && r.formTitle == TitleOrDefault(form.title)
  }

  /** A response is collected exactly when it came from a form whose fetch
      succeeded, tagged with that form's title. */
  lemma {:induction false} CollectedFrom(forms: seq<FormSummary>, fetch: string -> Result<seq<RawResponse>, string>, r: Response)
    ensures r in Collected(forms, fetch) <==> exists i :: 0 <= i < |forms| && CameFrom(forms[i], fetch, r)
  {
    if forms != [] {
      var n := |forms| - 1;
      var init := forms[..n];
      CollectedFrom(init, fetch, r);
      assert Collected(forms, fetch) == Collected(init, fetch) + Fetched(forms[n], fetch);
      if r in Collected(init, fetch) {
        var i :| 0 <= i < n && CameFrom(init[i], fetch, r);
        assert init[i] == forms[i];
      }
      if exists i :: 0 <= i < |forms| && CameFrom(forms[i], fetch, r) {
        var i :| 0 <= i < |forms| && CameFrom(forms[i], fetch, r);
        if i < n {
          assert init[i] == forms[i];
        }
      }
    }
  }

  function CreatedAt(r: Response): int { r.raw.createdAt }

  /** `sort((a, b) => b.createdAt - a.createdAt)`: newest first. */
  function NewestFirst(rs: seq<Response>): (r: seq<Response>)
    ensures forall i, j :: 0 <= i < j < |r| ==> r[i].raw.createdAt >= r[j].raw.createdAt
    ensures multiset(r) == multiset(rs)
  {
    SortDescending(rs, CreatedAt)
  }

  // ---------------------------------------------------------------------
  // Filters
  // ---------------------------------------------------------------------

  /** The search term occurs, ignoring case, in the form title or in some data value. */
  predicate MatchesSearch(r: Response, term: string) {
    ContainsIgnoreCase(r.formTitle, term)
    || exists i :: 0 <= i < |r.raw.dataValues| && ContainsIgnoreCase(r.raw.dataValues[i], term)
  }

  function BySearch(rs: seq<Response>, term: string): seq<Response> {
    Filter(rs, r => MatchesSearch(r, term))
  }

  predicate FromForm(r: Response, formId: string) { r.raw.formId == formId }

  function ByForm(rs: seq<Response>, formId: string): seq<Response> {
    Filter(rs, r => FromForm(r, formId))
  }

  predicate SubmittedSince(r: Response, cutoff: int) { r.raw.createdAt >= cutoff }

  function ByDate(rs: seq<Response>, cutoff: int): seq<Response> {
    Filter(rs, r => SubmittedSince(r, cutoff))
  }

  /** `filterDate` for a date filter other than "all": the start of the local
      day, seven days back, the injected month-ago instant, or now. */
  function Cutoff(dateFilter: string, now: int, tz: int, monthAgo: int): (c: int)
    ensures dateFilter == "today" ==> c <= now < c + MsPerDay && (c + tz) % MsPerDay == 0
    ensures dateFilter == "week" ==> c == now - 7 * MsPerDay
    ensures dateFilter == "month" ==> c == monthAgo
    ensures dateFilter !in {"today", "week", "month"} ==> c == now
  {
    match dateFilter
    case "today" => now - (now + tz) % MsPerDay
    case "week" => now - 7 * MsPerDay
    case "month" => monthAgo
    case _ => now
  }

  /** Whether a response passes all three filters. */
  predicate PassesFilters(r: Response, term: string, selectedForm: string, dateFilter: string, cutoff: int) {
    && (term == "" || MatchesSearch(r, term))
    && (selectedForm == "all" || FromForm(r, selectedForm))
    && (dateFilter == "all" || SubmittedSince(r, cutoff))
  }

  /** The list the filter effect builds, one filter after another. */
  function Filtered(rs: seq<Response>, term: string, selectedForm: string, dateFilter: string, cutoff: int): (r: seq<Response>)
    ensures |r| <= |rs|
    ensures forall i :: 0 <= i < |r| ==> r[i] in rs && PassesFilters(r[i], term, selectedForm, dateFilter, cutoff)
  {
    var afterSearch := if term != "" then BySearch(rs, term) else rs;
    var afterForm := if selectedForm != "all" then ByForm(afterSearch, selectedForm) else afterSearch;
    var r := if dateFilter != "all" then ByDate(afterForm, cutoff) else afterForm;
    assert forall x :: x in afterSearch ==> x in rs && (term == "" || MatchesSearch(x, term));
    assert forall x :: x in afterForm ==> x in afterSearch && (selectedForm == "all" || FromForm(x, selectedForm));
    r
  }

  /** The filtered list keeps the loaded order. */
  lemma FilteredIsSubsequence(rs: seq<Response>, term: string, selectedForm: string, dateFilter: string, cutoff: int)
    ensures IsSubsequence(Filtered(rs, term, selectedForm, dateFilter, cutoff), rs)
  {
    var afterSearch := if term != "" then BySearch(rs, term) else rs;
    var afterForm := if selectedForm != "all" then ByForm(afterSearch, selectedForm) else afterSearch;
    var result := Filtered(rs, term, selectedForm, dateFilter, cutoff);
    if term != "" {
      FilterIsSubsequence(rs, r => MatchesSearch(r, term));
    } else {
      SubsequenceReflexive(rs);
    }
    if selectedForm != "all" {
      FilterIsSubsequence(afterSearch, r => FromForm(r, selectedForm));
    } else {
      SubsequenceReflexive(afterSearch);
    }
    if dateFilter != "all" {
      FilterIsSubsequence(afterForm, r => SubmittedSince(r, cutoff));
    } else {
      SubsequenceReflexive(afterForm);
    }
    SubsequenceTransitive(afterForm, afterSearch, rs);
    SubsequenceTransitive(result, afterForm, rs);
  }

  /** The filtered list holds exactly the loaded responses that pass every active filter. */
  lemma FilteredMembers(rs: seq<Response>, term: string, selectedForm: string, dateFilter: string, cutoff: int, x: Response)
    ensures x in Filtered(rs, term, selectedForm, dateFilter, cutoff) <==>
              x in rs && PassesFilters(x, term, selectedForm, dateFilter, cutoff)
  {
    var afterSearch := if term != "" then BySearch(rs, term) else rs;
    var afterForm := if selectedForm != "all" then ByForm(afterSearch, selectedForm) else afterSearch;
    FilterMember(rs, r => MatchesSearch(r, term), x);
    FilterMember(afterSearch, r => FromForm(r, selectedForm), x);
    FilterMember(afterForm, r => SubmittedSince(r, cutoff), x);
  }

  /** Each response that passes every active filter is shown as often as it
      was loaded; any other response is not shown. */
  lemma FilteredCounts(rs: seq<Response>, term: string, selectedForm: string, dateFilter: string, cutoff: int)
    ensures forall x :: multiset(Filtered(rs, term, selectedForm, dateFilter, cutoff))[x] ==
              if PassesFilters(x, term, selectedForm, dateFilter, cutoff) then multiset(rs)[x] else 0
  {
    var afterSearch := if term != "" then BySearch(rs, term) else rs;
    var afterForm := if selectedForm != "all" then ByForm(afterSearch, selectedForm) else afterSearch;
    FilterMultiset(rs, r => MatchesSearch(r, term));
    FilterMultiset(afterSearch, r => FromForm(r, selectedForm));
    FilterMultiset(afterForm, r => SubmittedSince(r, cutoff));
  }

  /** An empty search, the "all" form and the "all" date keep everything. */
  lemma NoFilterKeepsAll(rs: seq<Response>, cutoff: int)
    ensures Filtered(rs, "", "all", "all", cutoff) == rs
  {
  }

  // ---------------------------------------------------------------------
  // CSV export
  // ---------------------------------------------------------------------

  const Header := "Form,Submitted At,Response Data"

  /** `.replace(/"/g, '""')`: every double quote doubled. */
  function EscapeQuotes(s: string): (e: string)
    ensures |e| >= |s|
    ensures NoLineFeed(s) ==> NoLineFeed(e)
  {
    if s == [] then []
    else (if s[0] == '"' then "\"\"" else [s[0]]) + EscapeQuotes(s[1..])
  }

  /** Reading the inside of a quoted field per section 2, rule 7 of RFC 4180:
      a doubled quote stands for one quote; a lone quote ends the field, so a
      text that still holds one is not the inside of a single field. */
  function UnescapeQuotes(s: string): Option<string>
  {
    if s == [] then Some([])
    else if s[0] != '"' then
      match UnescapeQuotes(s[1..])
      case Some(t) => Some([s[0]] + t)
      case None => None
    else if |s| >= 2 && s[1] == '"' then
      match UnescapeQuotes(s[2..])
      case Some(t) => Some("\"" + t)
      case None => None
    else None
  }

  /** The data column reads back as the JSON text it was built from. */
  lemma {:induction false} EscapeRoundTrip(s: string)
    ensures UnescapeQuotes(EscapeQuotes(s)) == Some(s)
  {
    if s != [] {
      EscapeRoundTrip(s[1..]);
      var e := EscapeQuotes(s);
      var rest := EscapeQuotes(s[1..]);
      if s[0] == '"' {
        assert e == "\"\"" + rest;
        assert e[2..] == rest;
      } else {
        assert e == [s[0]] + rest;
        assert e[1..] == rest;
      }
      assert s == [s[0]] + s[1..];
    }
  }

  /** `"${text}"` */
  function Quoted(text: string): string { "\"" + text + "\"" }

  /** One data row; `formatDate` stands for toLocaleString. */
  function CsvRow(r: Response, formatDate: int -> string): (row: string)
    ensures (NoLineFeed(r.formTitle) && NoLineFeed(formatDate(r.raw.createdAt))
             && NoLineFeed(r.raw.dataJson)) ==> NoLineFeed(row)
  {
    Quoted(r.formTitle) + "," + Quoted(formatDate(r.raw.createdAt)) + "," + Quoted(EscapeQuotes(r.raw.dataJson))
  }

  /** `lines.join('\n')` */
  function JoinLines(lines: seq<string>): (s: string)
    ensures lines == [] ==> s == ""
  {
    if lines == [] then ""
    else if |lines| == 1 then lines[0]
    else lines[0] + "\n" + JoinLines(lines[1..])
  }

  /** The exported text: the header, then one row per filtered response in order. */
  function Csv(rs: seq<Response>, formatDate: int -> string): (csv: string)
    ensures rs == [] ==> csv == Header
    ensures StartsWith(csv, Header + "\n") <==> rs != []
  {
    var lines := [Header] + seq(|rs|, i requires 0 <= i < |rs| => CsvRow(rs[i], formatDate));
    assert lines[0] == Header && lines[1..] == seq(|rs|, i requires 0 <= i < |rs| => CsvRow(rs[i], formatDate));
    if rs != [] then
      var csv := JoinLines(lines);
      assert csv == Header + "\n" + JoinLines(lines[1..]);
      assert csv[..|Header + "\n"|] == Header + "\n";
      csv
    else
      JoinLines(lines)
  }

  /** Splitting at line feeds. */
  function SplitLines(s: string): (lines: seq<string>)
    ensures |lines| >= 1
    decreases |s|
  {
    if s == [] then [""]
    else if s[0] == '\n' then [""] + SplitLines(s[1..])
    else
      var rest := SplitLines(s[1..]);
      [[s[0]] + rest[0]] + rest[1..]
  }

  predicate NoLineFeed(s: string) { forall i :: 0 <= i < |s| ==> s[i] != '\n' }

  lemma {:induction false} SplitOneLine(a: string, b: string)
    requires NoLineFeed(a)
    ensures SplitLines(a + "\n" + b) == [a] + SplitLines(b)
    ensures SplitLines(a) == [a]
  {
    if a != [] {
      SplitOneLine(a[1..], b);
      assert (a + "\n" + b)[1..] == a[1..] + "\n" + b;
      assert a == [a[0]] + a[1..];
    } else {
      assert a + "\n" + b == "\n" + b;
      assert ("\n" + b)[1..] == b;
    }
  }

  /** When no line holds a line feed, the text splits back into its lines. */
  lemma {:induction false} SplitJoin(lines: seq<string>)
    requires lines != []
    requires forall i :: 0 <= i < |lines| ==> NoLineFeed(lines[i])
    ensures SplitLines(JoinLines(lines)) == lines
  {
    if |lines| == 1 {
      SplitOneLine(lines[0], "");
    } else {
      SplitJoin(lines[1..]);
      SplitOneLine(lines[0], JoinLines(lines[1..]));
    }
  }

  /** The export has one line per filtered response after the header, provided
      no title, date text or JSON text holds a line feed. */
  lemma CsvLines(rs: seq<Response>, formatDate: int -> string)
    requires forall i :: 0 <= i < |rs| ==> NoLineFeed(CsvRow(rs[i], formatDate))
    ensures SplitLines(Csv(rs, formatDate)) ==
              [Header] + seq(|rs|, i requires 0 <= i < |rs| => CsvRow(rs[i], formatDate))
  {
    var lines := [Header] + seq(|rs|, i requires 0 <= i < |rs| => CsvRow(rs[i], formatDate));
    assert forall i :: 0 <= i < |lines| ==> NoLineFeed(lines[i]);
    SplitJoin(lines);
  }

  /** The title column is not escaped: a title holding a double quote does not
      read back as one quoted field, while the same text in the data column does. */
  lemma TitleQuoteNotEscaped()
    ensures UnescapeQuotes("a\"b") == None
    ensures UnescapeQuotes(EscapeQuotes("a\"b")) == Some("a\"b")
  {
    assert "a\"b"[1..] == "\"b";
    EscapeRoundTrip("a\"b");
  }

  // ---------------------------------------------------------------------
  // Page state
  // ---------------------------------------------------------------------

  class ResponsesView {
    var formResponses: seq<Response>
    var filteredResponses: seq<Response>
    var error: string

    constructor ()
      ensures formResponses == [] && filteredResponses == [] && error == ""
    {
      formResponses := [];
      filteredResponses := [];
      error := "";
    }

    /** fetchResponses: nothing without forms; otherwise the responses of every
        form whose fetch succeeds, newest first, shown unfiltered. */
    method FetchResponses(forms: seq<FormSummary>, fetch: string -> Result<seq<RawResponse>, string>)
      modifies this
      ensures forms == [] ==> formResponses == old(formResponses) && filteredResponses == old(filteredResponses)
      ensures forms != [] ==> formResponses == NewestFirst(Collected(forms, fetch))
      ensures forms != [] ==> filteredResponses == formResponses
      ensures error == old(error)
    {
      if |forms| == 0 {
        return;
      }
      var allResponses: seq<Response> := [];
      var i := 0;
      while i < |forms|
        invariant 0 <= i <= |forms|
        invariant allResponses == Collected(forms[..i], fetch)
      {
        assert forms[..i + 1][..i] == forms[..i];
        var result := fetch(forms[i].id);
        if result.Ok? {
          var responsesWithTitle := Tagged(result.value, TitleOrDefault(forms[i].title));
          allResponses := allResponses + responsesWithTitle;
        }
        i := i + 1;
      }
      assert forms[..|forms|] == forms;
      allResponses := NewestFirst(allResponses);
      formResponses := allResponses;
      filteredResponses := allResponses;
    }

    /** The filter effect. */
    method ApplyFilters(term: string, selectedForm: string, dateFilter: string, now: int, tz: int, monthAgo: int)
      modifies this`filteredResponses
      ensures filteredResponses == Filtered(formResponses, term, selectedForm, dateFilter, Cutoff(dateFilter, now, tz, monthAgo))
    {
      var filtered := formResponses;
      if term != "" {
        filtered := BySearch(filtered, term);
      }
      if selectedForm != "all" {
        filtered := ByForm(filtered, selectedForm);
      }
      if dateFilter != "all" {
        var filterDate := Cutoff(dateFilter, now, tz, monthAgo);
        filtered := ByDate(filtered, filterDate);
      }
      filteredResponses := filtered;
    }

    /** handleDeleteResponse: nothing unless confirmed; the response leaves the
        list only after the API call succeeds, otherwise an error is shown.
        Only `formResponses` changes here: the page's filter effect re-runs on
        that change by itself, which the model expresses as a following call
        of `ApplyFilters`, so `filteredResponses` stays as it was until then. */
    method HandleDeleteResponse(responseId: string, confirmed: bool, apiOk: bool)
      modifies this
      ensures !confirmed ==> formResponses == old(formResponses) && error == old(error)
      ensures confirmed && apiOk ==> formResponses == WithoutResponse(old(formResponses), responseId)
      ensures confirmed && apiOk ==> error == old(error)
      ensures confirmed && !apiOk ==> formResponses == old(formResponses)
      ensures confirmed && !apiOk ==> error == "Failed to delete response. Please try again."
      ensures filteredResponses == old(filteredResponses)
    {
      if !confirmed {
        return;
      }
      if apiOk {
        formResponses := WithoutResponse(formResponses, responseId);
      } else {
        error := "Failed to delete response. Please try again.";
      }
    }

    /** exportResponses: the CSV text of the filtered list. */
    method ExportResponses(formatDate: int -> string) returns (csv: string)
      ensures csv == Csv(filteredResponses, formatDate)
    {
      csv := Csv(filteredResponses, formatDate);
    }
  }

  predicate KeepsResponse(responseId: string, r: Response) { r.raw.id != responseId }

  /** `prev.filter(r => r.id !== responseId)` */
  function WithoutResponse(rs: seq<Response>, responseId: string): (kept: seq<Response>)
    ensures forall x :: multiset(kept)[x] == if x.raw.id != responseId then multiset(rs)[x] else 0
    ensures IsSubsequence(kept, rs)
  {
    FilterMultiset(rs, r => KeepsResponse(responseId, r));
    FilterIsSubsequence(rs, r => KeepsResponse(responseId, r));
    Filter(rs, r => KeepsResponse(responseId, r))
  }

  /** Deletion removes every response with the id and keeps every other
      response, as often as it occurred, in order. */
  lemma DeleteSpec(rs: seq<Response>, responseId: string)
    ensures forall i :: 0 <= i < |WithoutResponse(rs, responseId)| ==>
              WithoutResponse(rs, responseId)[i].raw.id != responseId
    ensures forall i :: 0 <= i < |rs| && rs[i].raw.id != responseId ==> rs[i] in WithoutResponse(rs, responseId)
    ensures forall x :: multiset(WithoutResponse(rs, responseId))[x] ==
              if x.raw.id != responseId then multiset(rs)[x] else 0
    ensures IsSubsequence(WithoutResponse(rs, responseId), rs)
  {
    FilterIsSubsequence(rs, r => KeepsResponse(responseId, r));
    FilterMultiset(rs, r => KeepsResponse(responseId, r));
  }
}
