/**
 * The client-side airport list filter that both autocomplete components use:
 * `airports.filter(<city, name, code or country contains the query, ignoring case>).slice(0, 10)`,
 * and the `airports.find(a => a.code === value)` lookup they both use on their `value` prop.
 */
module Airports {
  import opened Common
  import opened Text

  /** An airport as the `/flights/menu` endpoint lists it. */
  datatype Airport = Airport(code: string, name: string, city: string, country: string)

  /** The longest list either dropdown shows. */
  const MaxShown: nat := 10

  /** The filter callback: one of the four text fields contains the query, ignoring case. */
  predicate Matches(a: Airport, query: string) {
    ContainsIgnoringCase(a.city, query) || ContainsIgnoringCase(a.name, query)
    || ContainsIgnoringCase(a.code, query) || ContainsIgnoringCase(a.country, query)
  }

  /** `r` is `s` with some elements left out and the rest kept in order. */
  ghost predicate IsSubsequence<T>(r: seq<T>, s: seq<T>)
    decreases |s|
  {
    r == [] ||
    (s != [] &&
      ((r[|r| - 1] == s[|s| - 1] && IsSubsequence(r[..|r| - 1], s[..|s| - 1]))
       || IsSubsequence(r, s[..|s| - 1])))
  }

  /** `airports.filter(a => Matches(a, query))`. */
  function Matching(airports: seq<Airport>, query: string): (r: seq<Airport>)
    ensures |r| <= |airports|
    ensures forall i :: 0 <= i < |r| ==> Matches(r[i], query) && r[i] in airports
  {
    if airports == [] then []
    else
      var last := airports[|airports| - 1];
      var init := Matching(airports[..|airports| - 1], query);
      assert forall a :: a in airports[..|airports| - 1] ==> a in airports;
      if Matches(last, query) then init + [last] else init
  }

  /** The filter leaves out no matching airport. */
  lemma {:induction false} MatchingKeepsAll(airports: seq<Airport>, query: string)
    ensures forall i :: 0 <= i < |airports| && Matches(airports[i], query) ==> airports[i] in Matching(airports, query)
    decreases |airports|
  {
    if airports != [] {
      var init := airports[..|airports| - 1];
      MatchingKeepsAll(init, query);
      assert forall i :: 0 <= i < |init| ==> init[i] == airports[i];
    }
  }

  /** The dropdown's list for a non-empty query: the first ten matches. */
  function Shown(airports: seq<Airport>, query: string): (r: seq<Airport>)
    ensures |r| <= MaxShown
    ensures forall i :: 0 <= i < |r| ==> Matches(r[i], query) && r[i] in airports
  {
    Take(Matching(airports, query), MaxShown)
  }

  /** Filtering a longer list extends the result of filtering a prefix of it. */
  lemma {:induction false} MatchingOfPrefix(airports: seq<Airport>, query: string, i: nat)
    requires i <= |airports|
    ensures Matching(airports[..i], query) <= Matching(airports, query)
    decreases |airports|
  {
    if i < |airports| {
      var init := airports[..|airports| - 1];
      assert init[..i] == airports[..i];
      MatchingOfPrefix(init, query, i);
    } else {
      assert airports[..i] == airports;
    }
  }

  /** A prefix of a subsequence is a subsequence. */
  lemma {:induction false} SubsequenceOfPrefix<T>(r: seq<T>, s: seq<T>, k: nat)
    requires IsSubsequence(r, s) && k <= |r|
    ensures IsSubsequence(r[..k], s)
    decreases |s|, |r| - k
  {
    if k == |r| {
      assert r[..k] == r;
    } else if k == 0 {
    } else if r[|r| - 1] == s[|s| - 1] && IsSubsequence(r[..|r| - 1], s[..|s| - 1]) {
      // drop the last element of r and look again one step shorter
      SubsequenceOfPrefix(r[..|r| - 1], s[..|s| - 1], k);
      assert r[..|r| - 1][..k] == r[..k];
      SubsequenceWeaken(r[..k], s);
    } else {
      SubsequenceOfPrefix(r, s[..|s| - 1], k);
    }
  }

  /** A subsequence of `s` minus its last element is a subsequence of `s`. */
  lemma SubsequenceWeaken<T>(r: seq<T>, s: seq<T>)
    requires s != [] && IsSubsequence(r, s[..|s| - 1])
    ensures IsSubsequence(r, s)
  {
  }

  /** The filter keeps the airports it keeps in their original order. */
  lemma {:induction false} MatchingIsSubsequence(airports: seq<Airport>, query: string)
    ensures IsSubsequence(Matching(airports, query), airports)
    decreases |airports|
  {
    if airports != [] {
      var init := airports[..|airports| - 1];
      MatchingIsSubsequence(init, query);
      var m := Matching(airports, query);
      if Matches(airports[|airports| - 1], query) {
        assert m[..|m| - 1] == Matching(init, query);
      }
    }
  }

  /**
   * What the dropdown shows for a non-empty query: at most ten airports, each of them
   * matching, in the order of `airports`, and every matching airport that has fewer
   * than ten matches before it.
   */
  lemma ShownProperties(airports: seq<Airport>, query: string)
    ensures |Shown(airports, query)| <= MaxShown
    ensures IsSubsequence(Shown(airports, query), airports)
    ensures forall a :: a in Shown(airports, query) ==> Matches(a, query)
    ensures forall i ::
              (0 <= i < |airports| && Matches(airports[i], query) && |Matching(airports[..i], query)| < MaxShown)
              ==> airports[i] in Shown(airports, query)
  {
    var m := Matching(airports, query);
    MatchingIsSubsequence(airports, query);
    SubsequenceOfPrefix(m, airports, |Shown(airports, query)|);
    forall i | 0 <= i < |airports| && Matches(airports[i], query)
        && |Matching(airports[..i], query)| < MaxShown
      ensures airports[i] in Shown(airports, query)
    {
      ShownIncludes(airports, query, i);
    }
  }

  /** The matching airport at index `i` is the `k`-th match, where `k` counts the matches before it. */
  lemma ShownIncludes(airports: seq<Airport>, query: string, i: nat)
    requires i < |airports| && Matches(airports[i], query)
    requires |Matching(airports[..i], query)| < MaxShown
    ensures airports[i] in Shown(airports, query)
  {
    var before := Matching(airports[..i], query);
    assert airports[..i + 1][..i] == airports[..i];
    assert Matching(airports[..i + 1], query) == before + [airports[i]];
    MatchingOfPrefix(airports, query, i + 1);
    var m := Matching(airports, query);
    assert m[|before|] == airports[i];
    assert Shown(airports, query)[|before|] == airports[i];
  }

  /** The index of the first airport with the code, if any. */
  function FirstWithCode(airports: seq<Airport>, code: string): (r: Option<nat>)
    ensures r.None? <==> forall i :: 0 <= i < |airports| ==> airports[i].code != code
    ensures r.Some? ==> r.value < |airports| && airports[r.value].code == code
    ensures r.Some? ==> forall i :: 0 <= i < r.value ==> airports[i].code != code
  {
    if airports == [] then None
    else if airports[0].code == code then Some(0)
    else
      var rest := FirstWithCode(airports[1..], code);
      assert forall i :: 1 <= i < |airports| ==> airports[i] == airports[1..][i - 1];
      if rest.Some? then Some(rest.value + 1) else None
  }

  /** `airports.find(a => a.code === code)`: the first airport with that code. */
  function FindByCode(airports: seq<Airport>, code: string): (r: Option<Airport>)
    ensures r.None? <==> forall i :: 0 <= i < |airports| ==> airports[i].code != code
    ensures r.Some? ==> r.value.code == code && r.value in airports
    ensures r.Some? ==> FirstWithCode(airports, code).Some? && r.value == airports[FirstWithCode(airports, code).value]
  {
    match FirstWithCode(airports, code)
    case None => None
    case Some(i) => Some(airports[i])
  }
}
