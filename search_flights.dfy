/**
 * The flight search page with the infinite result feed: a form with two locations and
 * a date range, location suggestions, and a list of flights that grows a page at a
 * time while the user scrolls; before the first search the feed shows random flights.
 */
module SearchFlights {
  import opened Common
  import opened Text

  // ---------------------------------------------------------------- locations

  /**
   * `extractLocationName`: the text before the first `(`, then before the first `,`,
   * trimmed. A suggestion "Paris, France" or "Heathrow (LHR)" gives "Paris" or "Heathrow".
   */
  function ExtractLocationName(s: string): (r: string)
    ensures '(' !in r && ',' !in r
  {
    var head := Before(Before(s, '('), ',');
    TrimKeepsAbsent(head, IsJsSpace, '(');
    TrimKeepsAbsent(head, IsJsSpace, ',');
    JsTrim(head)
  }

  /** Extracting from an extracted name changes nothing. */
  lemma ExtractLocationNameIdempotent(s: string)
    ensures ExtractLocationName(ExtractLocationName(s)) == ExtractLocationName(s)
  {
    var head := Before(Before(s, '('), ',');
    var r := ExtractLocationName(s);
    assert r == JsTrim(head) && '(' !in r && ',' !in r;
    BeforeAbsent(r, '(');
    BeforeAbsent(r, ',');
    assert ExtractLocationName(r) == JsTrim(r);
    TrimIdempotent(head, IsJsSpace);
  }

  /** Without `c` the text before the first `c` is the whole string. */
  lemma BeforeAbsent(s: string, c: char)
    requires c !in s
    ensures Before(s, c) == s
  {
  }

  /** A name with neither a parenthesis, a comma nor surrounding white space is sent as it is. */
  lemma ExtractLocationNamePlain(s: string)
    requires '(' !in s && ',' !in s
    requires s == [] || (!IsJsSpace(s[0]) && !IsJsSpace(s[|s| - 1]))
    ensures ExtractLocationName(s) == s
  {
    assert Before(s, '(') == s;
    assert Before(s, ',') == s;
    assert TrimStart(s, IsJsSpace) == s;
    assert TrimEnd(s, IsJsSpace) == s;
  }

  // ---------------------------------------------------------------- durations

  /** The length of the run of decimal digits that starts at `i`. */
  function DigitRun(s: string, i: nat): (n: nat)
    requires i <= |s|
    ensures i + n <= |s| && AllDigits(s[i..i + n])
    ensures i + n == |s| || !IsDigit(s[i + n])
    decreases |s| - i
  {
    if i < |s| && IsDigit(s[i]) then
      var n := 1 + DigitRun(s, i + 1);
      assert s[i..i + n] == [s[i]] + s[i + 1..i + n];
      n
    else 0
  }

  /** A run of `n` digits that is not followed by a digit is the run `DigitRun` finds. */
  lemma {:induction false} DigitRunOf(s: string, i: nat, n: nat)
    requires i + n <= |s| && AllDigits(s[i..i + n])
    requires i + n == |s| || !IsDigit(s[i + n])
    ensures DigitRun(s, i) == n
    decreases n
  {
    if n > 0 {
      assert IsDigit(s[i..i + n][0]);
      assert s[i + 1..i + n] == s[i..i + n][1..];
      DigitRunOf(s, i + 1, n - 1);
    }
  }

  /**
   * The first two groups of `(\d+):(\d+):(\d+)` when the pattern matches at `i`. Each
   * `\d+` takes the whole run of digits: giving back a digit would leave a digit where
   * the pattern needs `:`, so the greedy match is the only one.
   */
  function MatchAt(s: string, i: nat): (r: Option<(string, string)>)
    requires i <= |s|
    ensures r.Some? ==> r.value.0 != [] && r.value.1 != [] && AllDigits(r.value.0) && AllDigits(r.value.1)
    ensures r.Some? ==> ':' in s[i..]
  {
    var a := DigitRun(s, i);
    if a == 0 || i + a == |s| || s[i + a] != ':' then None
    else
      var j := i + a + 1;
      var b := DigitRun(s, j);
      if b == 0 || j + b == |s| || s[j + b] != ':' || DigitRun(s, j + b + 1) == 0 then None
      else
        assert s[i..][a] == ':';
        Some((s[i..i + a], s[j..j + b]))
  }

  /** The leftmost position at or after `i` where the pattern matches. */
  function FirstMatch(s: string, i: nat): (r: Option<nat>)
    requires i <= |s|
    ensures r.Some? ==> i <= r.value <= |s| && MatchAt(s, r.value).Some?
    ensures r.Some? ==> forall k :: i <= k < r.value ==> MatchAt(s, k).None?
    ensures r.None? ==> forall k :: i <= k <= |s| ==> MatchAt(s, k).None?
    decreases |s| - i
  {
    if MatchAt(s, i).Some? then Some(i)
    else if i == |s| then None
    else FirstMatch(s, i + 1)
  }

  /**
   * `formatDuration`: "N/A" for a missing or empty duration; the hours and minutes of
   * the first `H:M:S` in it, as numbers; the duration itself when it has none.
   */
  function FormatDuration(d: Option<string>): (r: string)
    ensures d.None? || d == Some([]) ==> r == "N/A"
  {
    if d.None? || d.value == [] then "N/A"
    else
      match FirstMatch(d.value, 0)
      case None => d.value
      case Some(i) =>
        var groups := MatchAt(d.value, i).value;
        NatToString(ParseDigits(groups.0)) + "h " + NatToString(ParseDigits(groups.1)) + "m"
  }

  /** In "H:M:S" the pattern matches at the start, with H and M as its first two groups. */
  lemma MatchAtTime(h: string, m: string, sec: string)
    requires h != [] && m != [] && sec != [] && AllDigits(h) && AllDigits(m) && AllDigits(sec)
    ensures MatchAt(h + ":" + m + ":" + sec, 0) == Some((h, m))
  {
    var s := h + ":" + m + ":" + sec;
    var j := |h| + 1;
    assert s[0..|h|] == h;
    assert s[|h|] == ':';
    DigitRunOf(s, 0, |h|);
    assert s[j..j + |m|] == m;
    assert s[j + |m|] == ':';
    DigitRunOf(s, j, |m|);
    assert s[j + |m| + 1] == sec[0];
  }

  /** A duration "H:M:S" with digit strings H, M, S (leading zeros allowed) shows H and M as numbers. */
  lemma FormatDurationOfTime(h: string, m: string, sec: string)
    requires h != [] && m != [] && sec != [] && AllDigits(h) && AllDigits(m) && AllDigits(sec)
    ensures FormatDuration(Some(h + ":" + m + ":" + sec))
            == NatToString(ParseDigits(h)) + "h " + NatToString(ParseDigits(m)) + "m"
  {
    MatchAtTime(h, m, sec);
  }

  /** Printing a duration as H:M:S and formatting it gives back the hours and the minutes. */
  lemma FormatDurationRoundTrip(h: nat, m: nat, sec: nat)
    ensures FormatDuration(Some(NatToString(h) + ":" + NatToString(m) + ":" + NatToString(sec)))
            == NatToString(h) + "h " + NatToString(m) + "m"
  {
    FormatDurationOfTime(NatToString(h), NatToString(m), NatToString(sec));
    ParsePrinted(h);
    ParsePrinted(m);
  }

  /** A duration without a colon cannot match and is shown as it is. */
  lemma FormatDurationNoColon(d: string)
    requires d != [] && ':' !in d
    ensures FormatDuration(Some(d)) == d
  {
  }

  // ---------------------------------------------------------------- date range

  datatype DateRange = DateRange(startDate: string, endDate: string)

  /**
   * `formatDateRangeDisplay`, with `formatDate` (a locale date format) as a parameter:
   * "Select dates" without a start date, "From <start>" with only a start date, and
   * "<start> - <end>" with both.
   */
  function FormatDateRangeDisplay(r: DateRange, formatDate: string -> string): (shown: string)
    ensures r.startDate == [] ==> shown == "Select dates"
    ensures r.startDate != [] && r.endDate == [] ==> shown == "From " + formatDate(r.startDate)
    ensures r.startDate != [] && r.endDate != [] ==> shown == formatDate(r.startDate) + " - " + formatDate(r.endDate)
  {
    if r.startDate == [] && r.endDate == [] then "Select dates"
    else if r.startDate != [] && r.endDate == [] then "From " + formatDate(r.startDate)
    else if r.startDate != [] && r.endDate != [] then formatDate(r.startDate) + " - " + formatDate(r.endDate)
    else "Select dates"
  }

  /** The placeholder shows exactly when no start date is set, whatever the date format prints. */
  lemma PlaceholderIffNoStart(r: DateRange, formatDate: string -> string)
    ensures FormatDateRangeDisplay(r, formatDate) == "Select dates" <==> r.startDate == []
  {
    var shown := FormatDateRangeDisplay(r, formatDate);
    if r.startDate != [] && r.endDate == [] {
      assert shown[0] == 'F';
    } else if r.startDate != [] {
      var a := formatDate(r.startDate);
      assert shown[|a| + 1] == '-';
      assert forall k :: 0 <= k < |"Select dates"| ==> "Select dates"[k] != '-';
    }
  }

  // ---------------------------------------------------------------- the feed

  datatype Flight = Flight(id: int)

  /** A location suggestion; only its display name is used here. */
  datatype Suggestion = Suggestion(displayName: string)

  datatype Location = Origin | Destination

  datatype Form = Form(origin: string, destination: string, dateRange: DateRange)

  datatype Suggestions = Suggestions(origin: seq<Suggestion>, destination: seq<Suggestion>)

  /** The parameters of a search request. */
  datatype SearchRequest = SearchRequest(
    origin: string, destination: string, startDate: string, endDate: string, page: int, pageSize: int)

  /** A page of search results as the server returns it; `hasNext` may be absent. */
  datatype SearchPage = SearchPage(results: seq<Flight>, hasNext: Option<bool>)

  /** What the feed shows and where it stands. */
  datatype Feed = Feed(flights: seq<Flight>, page: int, hasMore: bool, isSearchMode: bool)

  const PageSize := 10

  /** The feed after a page of search results arrives: replaced on a reset, appended otherwise. */
  function AfterSearchPage(f: Feed, reset: bool, p: SearchPage): (g: Feed)
    ensures g.isSearchMode
    ensures g.hasMore <==> p.hasNext == Some(true)
    ensures reset ==> g.flights == p.results && g.page == 2
    ensures !reset ==> g.flights == f.flights + p.results && g.page == f.page + 1
  {
    Feed(if reset then p.results else f.flights + p.results,
         if reset then 2 else f.page + 1,
         p.hasNext == Some(true),
         true)
  }

  /**
   * `searchParams`: the names extracted from the two locations, the two dates as typed,
   * the page and a page size of 10.
   */
  function SearchParams(f: Form, page: int): (r: SearchRequest)
    ensures '(' !in r.origin && ',' !in r.origin && '(' !in r.destination && ',' !in r.destination
    ensures r.startDate == f.dateRange.startDate && r.endDate == f.dateRange.endDate
    ensures r.page == page && r.pageSize == PageSize
  {
    SearchRequest(ExtractLocationName(f.origin), ExtractLocationName(f.destination),
                  f.dateRange.startDate, f.dateRange.endDate, page, PageSize)
  }

  /** The page a search asks for: the first on a reset, the stored one otherwise. */
  function RequestedPage(page: int, reset: bool): int {
    if reset then 1 else page
  }

  function Concat(pages: seq<SearchPage>): seq<Flight> {
    if pages == [] then [] else Concat(pages[..|pages| - 1]) + pages[|pages| - 1].results
  }

  /** A new search followed by scroll fetches: `reset` for the first page only. */
  function Replay(f: Feed, pages: seq<SearchPage>): Feed
    requires pages != []
  {
    if |pages| == 1 then AfterSearchPage(f, true, pages[0])
    else AfterSearchPage(Replay(f, pages[..|pages| - 1]), false, pages[|pages| - 1])
  }

  /**
   * After a new search and any number of scroll fetches the feed holds the pages in the
   * order they arrived, and the next fetch asks for the page after the last one: pages
   * are requested consecutively from 1.
   */
  lemma {:induction false} ReplayConcatenates(f: Feed, pages: seq<SearchPage>)
    requires pages != []
    ensures Replay(f, pages).flights == Concat(pages)
    ensures RequestedPage(Replay(f, pages).page, false) == |pages| + 1
    ensures Replay(f, pages).hasMore <==> pages[|pages| - 1].hasNext == Some(true)
  {
    if |pages| > 1 {
      ReplayConcatenates(f, pages[..|pages| - 1]);
      assert pages[..|pages| - 1][..|pages| - 2] == pages[..|pages| - 2];
    } else {
      assert Concat(pages) == Concat([]) + pages[0].results;
    }
  }

  /** What a scroll event started. */
  datatype ScrollAction = NoFetch | FetchSearch(request: SearchRequest) | FetchRandom

  class Page {
    var form: Form
    var suggestions: Suggestions
    var flights: seq<Flight>
    var loading: bool
    var hasMore: bool
    var page: int
    var isSearchMode: bool
    var showDatePicker: bool
    var tempDateRange: DateRange
    /**
     * The form as the memoised scroll handler sees it. `handleScroll` is rebuilt only
     * when `loading`, `hasMore`, `isSearchMode` or `page` changes, so the search it
     * starts reads the form of the render in which one of those last changed.
     */
    var scrollForm: Form

    /** The part of the state the result feed consists of. */
    function FeedState(): Feed
      reads this
    {
      Feed(flights, page, hasMore, isSearchMode)
    }

    /** The dependencies of the scroll handler. */
    function ScrollDeps(): (bool, bool, bool, int)
      reads this
    {
      (loading, hasMore, isSearchMode, page)
    }

    /** The render after a state change: the scroll handler is rebuilt when its dependencies differ. */
    method Rendered(before: (bool, bool, bool, int))
      modifies this`scrollForm
      ensures scrollForm == if ScrollDeps() != before then old(form) else old(scrollForm)
    {
      if ScrollDeps() != before {
        scrollForm := form;
      }
    }

    /** Mounting: an empty form, an empty feed at page 1, and the first random load started. */
    constructor ()
      ensures form == Form("", "", DateRange("", "")) && suggestions == Suggestions([], [])
      ensures FeedState() == Feed([], 1, true, false) && loading
      ensures !showDatePicker && tempDateRange == DateRange("", "")
      ensures scrollForm == form
    {
      form := Form("", "", DateRange("", ""));
      suggestions := Suggestions([], []);
      flights, page, hasMore, isSearchMode := [], 1, true, false;
      loading := true;
      showDatePicker := false;
      tempDateRange := DateRange("", "");
      scrollForm := form;
    }

    /** `handleInputChange` for a location: the field takes the typed text. */
    method InputChange(field: Location, value: string)
      modifies this`form
      ensures form == if field == Origin then old(form).(origin := value) else old(form).(destination := value)
    {
      if field == Origin {
        form := form.(origin := value);
      } else {
        form := form.(destination := value);
      }
    }

    /**
     * The (debounced) location lookup for one field: a term of one character or none
     * empties that field's list without a request; a longer term is looked up, and
     * `response` is its results, or `None` when the lookup failed and nothing changes.
     */
    method LocationSearch(field: Location, term: string, response: Option<seq<Suggestion>>) returns (requested: bool)
      modifies this`suggestions
      ensures requested <==> |term| > 1
      ensures !requested ==> suggestions == if field == Origin then old(suggestions).(origin := [])
                                            else old(suggestions).(destination := [])
      ensures requested && response.None? ==> suggestions == old(suggestions)
      ensures requested && response.Some? ==>
                suggestions == if field == Origin then old(suggestions).(origin := response.value)
                               else old(suggestions).(destination := response.value)
    {
      var list: seq<Suggestion> := [];
      if |term| > 1 {
        if response.None? {
          return true;
        }
        list := response.value;
      }
      if field == Origin {
        suggestions := suggestions.(origin := list);
      } else {
        suggestions := suggestions.(destination := list);
      }
      requested := |term| > 1;
    }

    /** `handleSuggestionSelect`: the field takes the suggestion's display name and its list empties. */
    method SuggestionSelect(field: Location, s: Suggestion)
      modifies this`form, this`suggestions
      ensures field == Origin ==>
                form == old(form).(origin := s.displayName) && suggestions == old(suggestions).(origin := [])
      ensures field == Destination ==>
                form == old(form).(destination := s.displayName) && suggestions == old(suggestions).(destination := [])
    {
      if field == Origin {
        form := form.(origin := s.displayName);
        suggestions := suggestions.(origin := []);
      } else {
        form := form.(destination := s.displayName);
        suggestions := suggestions.(destination := []);
      }
    }

    /** `handleSwap`: origin and destination trade places and both lists empty. */
    method Swap()
      modifies this`form, this`suggestions
      ensures form == Swapped(old(form))
      ensures suggestions == Suggestions([], [])
    {
      form := Swapped(form);
      suggestions := Suggestions([], []);
    }

    /** `handleDateRangeClick`: the picker opens on a copy of the current range. */
    method DateRangeClick()
      modifies this`tempDateRange, this`showDatePicker
      ensures tempDateRange == form.dateRange && showDatePicker
    {
      tempDateRange := form.dateRange;
      showDatePicker := true;
    }

    /** `handleDateRangeChange`: one end of the range in the picker changes. */
    method DateRangeChange(start: bool, value: string)
      modifies this`tempDateRange
      ensures tempDateRange == if start then old(tempDateRange).(startDate := value)
                               else old(tempDateRange).(endDate := value)
    {
      if start {
        tempDateRange := tempDateRange.(startDate := value);
      } else {
        tempDateRange := tempDateRange.(endDate := value);
      }
    }

    /** `applyDateRange`: the form takes the picker's range and the picker closes. */
    method ApplyDateRange()
      modifies this`form, this`showDatePicker
      ensures form == old(form).(dateRange := tempDateRange) && !showDatePicker
    {
      form := form.(dateRange := tempDateRange);
      showDatePicker := false;
    }

    /** `cancelDateRange`: the picker's range goes back to the form's and the picker closes. */
    method CancelDateRange()
      modifies this`tempDateRange, this`showDatePicker
      ensures tempDateRange == form.dateRange && !showDatePicker
    {
      tempDateRange := form.dateRange;
      showDatePicker := false;
    }

    /**
     * `searchFlights(reset)` up to the request, with `from` the form of the render whose
     * `searchFlights` is called: loading starts and the request is returned.
     */
    method BeginSearch(reset: bool, from: Form) returns (request: SearchRequest)
      modifies this`loading, this`scrollForm
      ensures loading
      ensures scrollForm == old(if loading then scrollForm else form)
      ensures request == SearchParams(from, RequestedPage(old(page), reset))
    {
      request := SearchParams(from, RequestedPage(page, reset));
      if !loading {
        loading := true;
        scrollForm := form;
      }
    }

    /** The search request ends: on success the page joins the feed; on failure the feed stays. */
    method FinishSearch(reset: bool, outcome: Option<SearchPage>)
      modifies this`flights, this`page, this`hasMore, this`isSearchMode, this`loading, this`scrollForm
      ensures !loading
      ensures outcome.Some? ==> FeedState() == AfterSearchPage(old(FeedState()), reset, outcome.value)
      ensures outcome.None? ==> FeedState() == old(FeedState())
      ensures scrollForm == if ScrollDeps() != old(ScrollDeps()) then old(form) else old(scrollForm)
    {
      var before := ScrollDeps();
      if outcome.Some? {
        var p := outcome.value;
        if reset {
          flights := p.results;
          page := 2;
        } else {
          flights := flights + p.results;
          page := page + 1;
        }
        hasMore := p.hasNext == Some(true);
        isSearchMode := true;
      }
      loading := false;
      Rendered(before);
    }

    /** `loadRandomFlights` up to the request. */
    method BeginRandom()
      modifies this`loading, this`scrollForm
      ensures loading
      ensures scrollForm == old(if loading then scrollForm else form)
    {
      var before := ScrollDeps();
      loading := true;
      Rendered(before);
    }

    /** The random request ends: its flights are appended; nothing else of the feed changes. */
    method FinishRandom(outcome: Option<seq<Flight>>)
      modifies this`flights, this`loading, this`scrollForm
      ensures !loading
      ensures flights == if outcome.Some? then old(flights) + outcome.value else old(flights)
      ensures scrollForm == old(if loading then form else scrollForm)
    {
      var before := ScrollDeps();
      if outcome.Some? {
        flights := flights + outcome.value;
      }
      loading := false;
      Rendered(before);
    }

    /** `handleSubmit`: a new search from page 1 with the form as it is now. */
    method Submit() returns (request: SearchRequest)
      modifies this`loading, this`scrollForm
      ensures loading
      ensures scrollForm == old(if loading then scrollForm else form)
      ensures request == SearchParams(old(form), 1)
    {
      request := BeginSearch(true, form);
    }

    /**
     * `handleScroll`: near the bottom, while nothing loads and more is expected, the feed
     * fetches the next search page in search mode and random flights otherwise. The
     * search reads the form the handler closed over, not the form as it is now: text
     * typed since the last change of the handler's dependencies is not sent.
     */
    method Scroll(nearBottom: bool) returns (action: ScrollAction)
      modifies this`loading, this`scrollForm
      ensures !old(nearBottom && !loading && hasMore) ==>
                action == NoFetch && loading == old(loading) && scrollForm == old(scrollForm)
      ensures old(nearBottom && !loading && hasMore) ==> loading && scrollForm == old(form)
      ensures old(nearBottom && !loading && hasMore && isSearchMode) ==>
                action == FetchSearch(SearchParams(old(scrollForm), old(page)))
      ensures old(nearBottom && !loading && hasMore && !isSearchMode) ==> action == FetchRandom
    {
      if nearBottom && !loading && hasMore {
        if isSearchMode {
          var request := BeginSearch(false, scrollForm);
          action := FetchSearch(request);
        } else {
          BeginRandom();
          action := FetchRandom;
        }
      } else {
        action := NoFetch;
      }
    }
  }

  /** The form with origin and destination exchanged. */
  function Swapped(f: Form): (g: Form)
    ensures g.origin == f.destination && g.destination == f.origin && g.dateRange == f.dateRange
  {
    f.(origin := f.destination, destination := f.origin)
  }

  /** Swapping twice restores the form. */
  lemma SwapTwice(f: Form)
    ensures Swapped(Swapped(f)) == f
  {
  }
}
