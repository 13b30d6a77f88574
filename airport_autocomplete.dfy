/**
 * The `AirportAutocomplete` input: a text box over a list of airports with a dropdown
 * of at most ten matches, a selected airport, and an `onChange` callback to the parent
 * that receives an airport code (or `''` when the selection is dropped).
 * The callback is modelled as the `reported` out-parameter: `None` when it is not called.
 */
module AirportAutocomplete {
  import opened Common
  import opened Text
  import opened Airports

  /** What the input shows for a chosen airport: "city (code) - name". */
  function Display(a: Airport): string {
    a.city + " (" + a.code + ") - " + a.name
  }

  /**
   * The filter effect: the first ten airports when the input is blank after trimming,
   * otherwise the first ten airports matching the input.
   */
  function FilterFor(airports: seq<Airport>, input: string): (r: seq<Airport>)
    ensures |r| <= MaxShown
  {
    if JsTrim(input) == [] then Take(airports, MaxShown) else Shown(airports, input)
  }

  /**
   * The list the dropdown shows keeps the order of `airports`; for a blank input it is
   * the first ten airports; otherwise every airport in it matches the input as typed
   * (surrounding white space included) and no match with fewer than ten matches before
   * it is left out.
   */
  lemma FilterForProperties(airports: seq<Airport>, input: string)
    ensures IsSubsequence(FilterFor(airports, input), airports)
    ensures JsTrim(input) == [] ==> FilterFor(airports, input) == Take(airports, MaxShown)
    ensures JsTrim(input) != [] ==> forall a :: a in FilterFor(airports, input) ==> Matches(a, input)
    ensures JsTrim(input) != [] ==> forall i ::
              (0 <= i < |airports| && Matches(airports[i], input) && |Matching(airports[..i], input)| < MaxShown)
              ==> airports[i] in FilterFor(airports, input)
  {
    if JsTrim(input) == [] {
      PrefixIsSubsequence(airports, MaxShown);
    } else {
      ShownProperties(airports, input);
    }
  }

  /** A prefix of a list is a subsequence of it. */
  lemma {:induction false} PrefixIsSubsequence<T>(s: seq<T>, n: nat)
    ensures IsSubsequence(Take(s, n), s)
    decreases |s|
  {
    if |s| > n {
      PrefixIsSubsequence(s[..|s| - 1], n);
      assert Take(s[..|s| - 1], n) == Take(s, n);
    } else if s != [] {
      var r := Take(s, n);
      assert r == s;
      PrefixIsSubsequence(s[..|s| - 1], n);
      assert Take(s[..|s| - 1], n) == s[..|s| - 1];
    }
  }

  /** `handleInputChange`'s rule for the selection: kept only while the text still contains its code. */
  function SelectionAfterTyping(selected: Option<Airport>, newValue: string): (r: Option<Airport>)
    ensures r.Some? ==> r == selected && Contains(newValue, selected.value.code)
    ensures selected.Some? && Contains(newValue, selected.value.code) ==> r == selected
    ensures selected.None? ==> r.None?
  {
    if selected.Some? && !Contains(newValue, selected.value.code) then None else selected
  }

  /** Typing after the displayed text of the selected airport keeps the selection. */
  lemma {:induction false} AppendingKeepsSelection(a: Airport, extra: string)
    ensures SelectionAfterTyping(Some(a), Display(a) + extra) == Some(a)
  {
    assert Display(a) + extra == (a.city + " (") + a.code + (") - " + a.name + extra);
    ContainsMiddle(a.city + " (", a.code, ") - " + a.name + extra);
  }

  /**
   * The value-initialisation effect: when `value` is set and some airport has that code,
   * the first such airport becomes the selection and the input shows it; otherwise
   * nothing changes.
   */
  function InitFromValue(value: string, airports: seq<Airport>, selected: Option<Airport>, input: string)
    : (r: (Option<Airport>, string))
    ensures value != [] && (exists i :: 0 <= i < |airports| && airports[i].code == value) ==>
              r.0.Some? && r.0.value.code == value && r.0.value in airports && r.1 == Display(r.0.value)
              && FirstWithCode(airports, value).Some? && r.0.value == airports[FirstWithCode(airports, value).value]
    ensures (value == [] || forall i :: 0 <= i < |airports| ==> airports[i].code != value) ==>
              r == (selected, input)
  {
    if value != [] && |airports| > 0 then
      match FindByCode(airports, value)
      case Some(a) => (Some(a), Display(a))
      case None => (selected, input)
    else (selected, input)
  }

  class Widget {
    /** Prop: the airport code the parent holds. */
    var value: string
    /** Prop: the airports to choose from. */
    var airports: seq<Airport>

    var isOpen: bool
    var inputValue: string
    var selected: Option<Airport>

    /**
     * `filteredAirports`: the filter effect runs after every change of the input or the
     * airports, so the list is always the filter of the current input and airports.
     */
    function Filtered(): seq<Airport>
      reads this
    {
      FilterFor(airports, inputValue)
    }

    /** Mounting: empty state, then the effects run once. */
    constructor (value: string, airports: seq<Airport>)
      ensures !isOpen
      ensures this.value == value && this.airports == airports
      ensures (selected, inputValue) == InitFromValue(value, airports, None, "")
    {
      this.value := value;
      this.airports := airports;
      isOpen := false;
      var init := InitFromValue(value, airports, None, "");
      selected := init.0;
      inputValue := init.1;
    }

    /**
     * The parent renders with new props. The initialisation effect runs when a prop
     * changed, then the filter effect.
     */
    method SetProps(newValue: string, newAirports: seq<Airport>)
      modifies this
      ensures value == newValue && airports == newAirports && isOpen == old(isOpen)
      ensures (selected, inputValue) ==
                if newValue != old(value) || newAirports != old(airports)
                then InitFromValue(newValue, newAirports, old(selected), old(inputValue))
                else (old(selected), old(inputValue))
    {
      var init := if newValue != value || newAirports != airports
                  then InitFromValue(newValue, newAirports, selected, inputValue)
                  else (selected, inputValue);
      value, airports := newValue, newAirports;
      selected, inputValue := init.0, init.1;
    }

    /** `handleInputChange`: the text changes, the dropdown opens, a stale selection is dropped. */
    method InputChange(newValue: string) returns (reported: Option<string>)
      modifies this
      ensures inputValue == newValue && isOpen
      ensures selected == SelectionAfterTyping(old(selected), newValue)
      ensures reported == if old(selected).Some? && selected.None? then Some("") else None
      ensures value == old(value) && airports == old(airports)
    {
      var kept := SelectionAfterTyping(selected, newValue);
      reported := if selected.Some? && kept.None? then Some("") else None;
      inputValue, isOpen, selected := newValue, true, kept;
    }

    /** `handleAirportSelect`: the airport becomes the selection, shown in full, and its code is reported. */
    method AirportSelect(a: Airport) returns (reported: Option<string>)
      modifies this
      ensures selected == Some(a) && inputValue == Display(a) && !isOpen
      ensures reported == Some(a.code)
      ensures value == old(value) && airports == old(airports)
    {
      selected := Some(a);
      inputValue := Display(a);
      isOpen := false;
      reported := Some(a.code);
    }

    /** `handleInputFocus`: the dropdown opens. */
    method Focus()
      modifies this`isOpen
      ensures isOpen
    {
      isOpen := true;
    }

    /** `handleKeyDown`: Escape closes the dropdown; other keys change nothing. */
    method KeyDown(key: string)
      modifies this`isOpen
      ensures isOpen == (old(isOpen) && key != "Escape")
    {
      if key == "Escape" {
        isOpen := false;
      }
    }

    /** A mouse press outside the component closes the dropdown. */
    method ClickOutside()
      modifies this`isOpen
      ensures !isOpen
    {
      isOpen := false;
    }
  }
}
