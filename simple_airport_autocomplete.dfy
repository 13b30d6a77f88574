/**
 * The `SimpleAirportAutocomplete` input: a search term, a dropdown of at most ten
 * airports, and an `onChange` callback to the parent (the `reported` out-parameter,
 * `None` when it is not called). Unlike `AirportAutocomplete` it keeps no selected
 * airport and does not trim the search term.
 */
module SimpleAirportAutocomplete {
  import opened Common
  import opened Text
  import opened Airports

  /** What the input shows for a chosen airport: "city (code)". */
  function Label(a: Airport): string {
    a.city + " (" + a.code + ")"
  }

  /** The filter effect: the first ten airports for an empty term, otherwise the first ten matches. */
  function FilterFor(airports: seq<Airport>, term: string): (r: seq<Airport>)
    ensures |r| <= MaxShown
    ensures |airports| > 0 && term == [] ==> |r| > 0
  {
    if term == [] then Take(airports, MaxShown) else Shown(airports, term)
  }

  /**
   * The empty term alone gives the unfiltered list; a term of white space only is a
   * query like any other and keeps the airports containing that white space.
   */
  lemma FilterForProperties(airports: seq<Airport>, term: string)
    ensures term == [] ==> FilterFor(airports, term) == Take(airports, MaxShown)
    ensures term != [] ==> forall a :: a in FilterFor(airports, term) ==> Matches(a, term)
    ensures term != [] ==> IsSubsequence(FilterFor(airports, term), airports)
    ensures term != [] ==> forall i ::
              (0 <= i < |airports| && Matches(airports[i], term) && |Matching(airports[..i], term)| < MaxShown)
              ==> airports[i] in FilterFor(airports, term)
  {
    if term != [] {
      ShownProperties(airports, term);
    }
  }

  /** `handleFocus`'s refill: the first ten airports when the list is empty and airports exist. */
  function RefillOnFocus(filtered: seq<Airport>, airports: seq<Airport>): (r: seq<Airport>)
    ensures |filtered| > 0 ==> r == filtered
    ensures |filtered| == 0 ==> r == Take(airports, MaxShown)
    ensures |filtered| == 0 && |airports| > 0 ==> |r| > 0 && r <= airports
  {
    if |filtered| == 0 && |airports| > 0 then Take(airports, MaxShown) else filtered
  }

  /**
   * Focusing after a term that matches nothing shows the first ten airports, none of
   * which matches the term: the refill on focus ignores the term.
   */
  lemma FocusShowsNonMatching(airports: seq<Airport>, term: string)
    requires term != [] && forall i :: 0 <= i < |airports| ==> !Matches(airports[i], term)
    ensures RefillOnFocus(FilterFor(airports, term), airports) == Take(airports, MaxShown)
    ensures forall a :: a in RefillOnFocus(FilterFor(airports, term), airports) ==> !Matches(a, term)
  {
    NothingMatching(airports, term);
  }

  /** When no airport matches, the filter keeps none. */
  lemma {:induction false} NothingMatching(airports: seq<Airport>, term: string)
    requires forall i :: 0 <= i < |airports| ==> !Matches(airports[i], term)
    ensures Matching(airports, term) == []
    decreases |airports|
  {
    if airports != [] {
      NothingMatching(airports[..|airports| - 1], term);
    }
  }

  /** A term that none of the four fields of any airport contains matches nothing, and the focus then shows the first ten. */
  lemma FocusAfterAbsentLetter(airports: seq<Airport>, term: string)
    requires |term| == 1
    requires forall i :: 0 <= i < |airports| ==> forall k :: 0 <= k < |airports[i].city| ==> LowerChar(airports[i].city[k]) != LowerChar(term[0])
    requires forall i :: 0 <= i < |airports| ==> forall k :: 0 <= k < |airports[i].name| ==> LowerChar(airports[i].name[k]) != LowerChar(term[0])
    requires forall i :: 0 <= i < |airports| ==> forall k :: 0 <= k < |airports[i].code| ==> LowerChar(airports[i].code[k]) != LowerChar(term[0])
    requires forall i :: 0 <= i < |airports| ==> forall k :: 0 <= k < |airports[i].country| ==> LowerChar(airports[i].country[k]) != LowerChar(term[0])
    ensures RefillOnFocus(FilterFor(airports, term), airports) == Take(airports, MaxShown)
  {
    forall i | 0 <= i < |airports|
      ensures !Matches(airports[i], term)
    {
      NotContained(airports[i].city, term);
      NotContained(airports[i].name, term);
      NotContained(airports[i].code, term);
      NotContained(airports[i].country, term);
    }
    FocusShowsNonMatching(airports, term);
  }

  /** A one-letter query whose lower-case letter is absent from the lower-cased field does not match. */
  lemma {:induction false} NotContained(field: string, query: string)
    requires |query| == 1 && forall i :: 0 <= i < |field| ==> LowerChar(field[i]) != LowerChar(query[0])
    ensures !ContainsIgnoringCase(field, query)
  {
    NotContainedLower(Lower(field), Lower(query));
  }

  lemma {:induction false} NotContainedLower(s: string, q: string)
    requires |q| == 1 && q[0] !in s
    ensures !Contains(s, q)
    decreases |s|
  {
    if s != [] {
      NotContainedLower(s[1..], q);
    }
  }

  /** The value-initialisation effect: the term shows the airport whose code is `value`, if any. */
  function InitTerm(value: string, airports: seq<Airport>, term: string): (r: string)
    ensures value != [] && (exists i :: 0 <= i < |airports| && airports[i].code == value) ==>
              FirstWithCode(airports, value).Some? && r == Label(airports[FirstWithCode(airports, value).value])
    ensures (value == [] || forall i :: 0 <= i < |airports| ==> airports[i].code != value) ==> r == term
  {
    if value != [] && |airports| > 0 then
      match FindByCode(airports, value)
      case Some(a) => Label(a)
      case None => term
    else term
  }

  class Widget {
    /** Prop: the airport code the parent holds. */
    var value: string
    /** Prop: the airports to choose from. */
    var airports: seq<Airport>

    var isOpen: bool
    var searchTerm: string
    var filtered: seq<Airport>

    /**
     * Mounting: empty state, then the effects. The mount-time fill of the first effect
     * is overwritten by the filter effect that follows it; the value effect may then
     * set the term, which re-runs the filter effect.
     */
    constructor (value: string, airports: seq<Airport>)
      ensures this.value == value && this.airports == airports && !isOpen
      ensures searchTerm == InitTerm(value, airports, "")
      ensures filtered == FilterFor(airports, searchTerm)
    {
      this.value := value;
      this.airports := airports;
      isOpen := false;
      var term := InitTerm(value, airports, "");
      searchTerm := term;
      filtered := FilterFor(airports, term);
    }

    /**
     * The parent renders with new props. The value effect runs when a prop changed; the
     * filter effect runs when the airports or the term changed.
     */
    method SetProps(newValue: string, newAirports: seq<Airport>)
      modifies this
      ensures value == newValue && airports == newAirports && isOpen == old(isOpen)
      ensures searchTerm ==
                if newValue != old(value) || newAirports != old(airports)
                then InitTerm(newValue, newAirports, old(searchTerm))
                else old(searchTerm)
      ensures filtered ==
                if newAirports != old(airports) || searchTerm != old(searchTerm)
                then FilterFor(newAirports, searchTerm)
                else old(filtered)
    {
      var term := if newValue != value || newAirports != airports
                  then InitTerm(newValue, newAirports, searchTerm)
                  else searchTerm;
      if newAirports != airports || term != searchTerm {
        filtered := FilterFor(newAirports, term);
      }
      value, airports, searchTerm := newValue, newAirports, term;
    }

    /** `handleInputChange`: the term changes, the dropdown opens, and a set value is cleared. */
    method InputChange(newTerm: string) returns (reported: Option<string>)
      modifies this
      ensures searchTerm == newTerm && isOpen
      ensures reported == if old(value) != [] then Some("") else None
      ensures filtered == if newTerm != old(searchTerm) then FilterFor(airports, newTerm) else old(filtered)
      ensures value == old(value) && airports == old(airports)
    {
      if newTerm != searchTerm {
        filtered := FilterFor(airports, newTerm);
      }
      searchTerm, isOpen := newTerm, true;
      reported := if value != [] then Some("") else None;
    }

    /** `handleAirportSelect`: the term shows the airport, the dropdown closes, its code is reported. */
    method AirportSelect(a: Airport) returns (reported: Option<string>)
      modifies this
      ensures searchTerm == Label(a) && !isOpen && reported == Some(a.code)
      ensures filtered == if Label(a) != old(searchTerm) then FilterFor(airports, Label(a)) else old(filtered)
      ensures value == old(value) && airports == old(airports)
    {
      if Label(a) != searchTerm {
        filtered := FilterFor(airports, Label(a));
      }
      searchTerm, isOpen := Label(a), false;
      reported := Some(a.code);
    }

    /** `handleFocus`: the dropdown opens, refilled when it is empty. */
    method Focus()
      modifies this`isOpen, this`filtered
      ensures isOpen && filtered == RefillOnFocus(old(filtered), airports)
    {
      isOpen := true;
      if |filtered| == 0 && |airports| > 0 {
        filtered := Take(airports, MaxShown);
      }
    }

    /** The timer `handleBlur` starts fires: the dropdown closes. */
    method BlurTimerFires()
      modifies this`isOpen
      ensures !isOpen
    {
      isOpen := false;
    }
  }
}
