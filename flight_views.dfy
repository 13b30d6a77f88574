/**
 * The flight search endpoints of the back end: location suggestions for the search
 * form, the flight search with its filters, its random fallback and its pagination,
 * and the flight to the most popular destination. Tables are sequences in the order
 * the database returns them; lookups are filters by predicates; a date is a day number.
 */
module FlightViews {
  import opened Common
  import opened Text

  datatype City = City(id: int, name: string, countryName: string, countryCode: string)

  datatype Airport = Airport(iata: string, name: string, city: City)

  /** A dated flight, with the number and the airports of the flight it is an instance of. */
  datatype Instance = Instance(id: int, date: int, fnum: string, origin: Airport, destination: Airport)

  // ---------------------------------------------------------------- filtering

  /** The elements of `s` that satisfy `p`, in their order (a queryset `filter`). */
  function Filter<T(!new)>(s: seq<T>, p: T -> bool): (r: seq<T>)
    ensures |r| <= |s|
    ensures forall x :: x in r <==> x in s && p(x)
    ensures forall i :: 0 <= i < |r| ==> p(r[i])
    ensures multiset(r) <= multiset(s)
  {
    if s == [] then []
    else
      var rest := Filter(s[1..], p);
      assert s == [s[0]] + s[1..];
      if p(s[0]) then [s[0]] + rest else rest
  }

  /** Two predicates that agree everywhere select the same elements. */
  lemma {:induction false} FilterSame<T(!new)>(s: seq<T>, p: T -> bool, q: T -> bool)
    requires forall x :: p(x) == q(x)
    ensures Filter(s, p) == Filter(s, q)
  {
    if s != [] {
      FilterSame(s[1..], p, q);
    }
  }

  /** Filtering twice is filtering once by both predicates. */
  lemma {:induction false} FilterFilter<T(!new)>(s: seq<T>, p: T -> bool, q: T -> bool, both: T -> bool)
    requires forall x :: both(x) == (p(x) && q(x))
    ensures Filter(Filter(s, p), q) == Filter(s, both)
  {
    if s != [] {
      FilterFilter(s[1..], p, q, both);
    }
  }

  /** A predicate that holds everywhere keeps everything. */
  lemma {:induction false} FilterAll<T(!new)>(s: seq<T>, p: T -> bool)
    requires forall x :: p(x)
    ensures Filter(s, p) == s
  {
    if s != [] {
      FilterAll(s[1..], p);
    }
  }

  /** Filtering a concatenation filters its two parts. */
  lemma {:induction false} FilterAppend<T(!new)>(a: seq<T>, b: seq<T>, p: T -> bool)
    ensures Filter(a + b, p) == Filter(a, p) + Filter(b, p)
  {
    if a != [] {
      var ab := a + b;
      assert ab[0] == a[0] && ab[1..] == a[1..] + b;
      FilterAppend(a[1..], b, p);
      if p(a[0]) {
        calc {
          Filter(ab, p);
          [a[0]] + Filter(a[1..] + b, p);
          [a[0]] + (Filter(a[1..], p) + Filter(b, p));
          ([a[0]] + Filter(a[1..], p)) + Filter(b, p);
        }
      }
    } else {
      assert a + b == b;
    }
  }

  /**
   * The first `n` elements that satisfy `p` (a sliced queryset `[:n]`) contain every
   * element that satisfies `p` and has fewer than `n` such elements before it.
   */
  lemma FirstMatchesKept<T(!new)>(s: seq<T>, p: T -> bool, n: nat)
    ensures forall i :: (0 <= i < |s| && p(s[i]) && |Filter(s[..i], p)| < n) ==> s[i] in Take(Filter(s, p), n)
  {
    forall i | 0 <= i < |s| && p(s[i]) && |Filter(s[..i], p)| < n
      ensures s[i] in Take(Filter(s, p), n)
    {
      assert s == s[..i] + ([s[i]] + s[i + 1..]);
      FilterAppend(s[..i], [s[i]] + s[i + 1..], p);
      assert Filter([s[i]] + s[i + 1..], p)[0] == s[i];
      assert Take(Filter(s, p), n)[|Filter(s[..i], p)|] == s[i];
    }
  }

  /** `f` applied to each element. */
  function Map<T, U>(f: T -> U, s: seq<T>): (r: seq<U>)
    ensures |r| == |s| && forall i :: 0 <= i < |s| ==> r[i] == f(s[i])
  {
    seq(|s|, i requires 0 <= i < |s| => f(s[i]))
  }

  /** Mapping one more element of a prefix appends its image. */
  lemma MapPrefix<T, U>(f: T -> U, s: seq<T>, i: nat)
    requires i < |s|
    ensures Map(f, s[..i + 1]) == Map(f, s[..i]) + [f(s[i])]
  {
  }

  // ---------------------------------------------------------------- search_locations

  const MaxCities := 5
  const MaxAirports := 5

  /** A suggestion for the search form. */
  datatype LocationEntry =
    | CityEntry(cityId: int, name: string, displayName: string, country: string, countryCode: string)
    | AirportEntry(iata: string, name: string, displayName: string, city: string, country: string, countryCode: string)

  function CityEntryOf(c: City): (e: LocationEntry)
    ensures e.CityEntry? && e.displayName == c.name + ", " + c.countryName
  {
    CityEntry(c.id, c.name, c.name + ", " + c.countryName, c.countryName, c.countryCode)
  }

  function AirportEntryOf(a: Airport): (e: LocationEntry)
    ensures e.AirportEntry? && e.displayName == a.name + " (" + a.iata + ")"
  {
    AirportEntry(a.iata, a.name, a.name + " (" + a.iata + ")", a.city.name, a.city.countryName, a.city.countryCode)
  }

  /** `city_name__icontains`. */
  predicate CityMatches(c: City, term: string) {
    ContainsIgnoringCase(c.name, term)
  }

  /** `name__icontains | iata_code__icontains`. */
  predicate AirportNameMatches(a: Airport, term: string) {
    ContainsIgnoringCase(a.name, term) || ContainsIgnoringCase(a.iata, term)
  }

  function CityTest(term: string): City -> bool {
    (c: City) => CityMatches(c, term)
  }

  function AirportTest(term: string): Airport -> bool {
    (a: Airport) => AirportNameMatches(a, term)
  }

  /** The first five cities matching the term (`City.objects.filter(...)[:5]`). */
  function CityHits(cities: seq<City>, term: string): (r: seq<City>)
    ensures |r| <= MaxCities && forall c :: c in r ==> c in cities && CityMatches(c, term)
  {
    Take(Filter(cities, CityTest(term)), MaxCities)
  }

  /** The first five airports matching the term (`Airport.objects.filter(...)[:5]`). */
  function AirportHits(airports: seq<Airport>, term: string): (r: seq<Airport>)
    ensures |r| <= MaxAirports && forall a :: a in r ==> a in airports && AirportNameMatches(a, term)
  {
    Take(Filter(airports, AirportTest(term)), MaxAirports)
  }

  /**
   * No matching city is left out while fewer than five matches precede it in table
   * order: the hits are the first five matches, not just any five.
   */
  lemma CityHitsFirst(cities: seq<City>, term: string)
    ensures forall i ::
              (0 <= i < |cities| && CityMatches(cities[i], term) && |Filter(cities[..i], CityTest(term))| < MaxCities)
              ==> cities[i] in CityHits(cities, term)
  {
    FirstMatchesKept(cities, CityTest(term), MaxCities);
  }

  /** The same for airports: every matching airport with fewer than five matches before it is a hit. */
  lemma AirportHitsFirst(airports: seq<Airport>, term: string)
    ensures forall i ::
              (0 <= i < |airports| && AirportNameMatches(airports[i], term)
               && |Filter(airports[..i], AirportTest(term))| < MaxAirports)
              ==> airports[i] in AirportHits(airports, term)
  {
    FirstMatchesKept(airports, AirportTest(term), MaxAirports);
  }

  /**
   * `search_locations`: the term is stripped; a blank term gives no results; otherwise
   * the suggestions are the matching cities, then the matching airports.
   */
  method SearchLocations(cities: seq<City>, airports: seq<Airport>, search: Option<string>)
    returns (results: seq<LocationEntry>)
    ensures results == if PyStrip(search.GetOr("")) == [] then []
                       else Suggestions(cities, airports, PyStrip(search.GetOr("")))
  {
    var term := PyStrip(search.GetOr(""));
    if term == [] {
      return [];
    }
    var cityPart := AppendEach([], CityEntryOf, CityHits(cities, term));
    assert cityPart == Map(CityEntryOf, CityHits(cities, term));
    results := AppendEach(cityPart, AirportEntryOf, AirportHits(airports, term));
    assert results == Suggestions(cities, airports, term);
  }

  /** One `for` loop of `search_locations`: `results.append(f(x))` for each `x` of `s`, in order. */
  method AppendEach<T, U>(acc: seq<U>, f: T -> U, s: seq<T>) returns (results: seq<U>)
    ensures results == acc + Map(f, s)
  {
    results := acc;
    var i := 0;
    while i < |s|
      invariant 0 <= i <= |s|
      invariant results == acc + Map(f, s[..i])
    {
      MapPrefix(f, s, i);
      results := results + [f(s[i])];
      i := i + 1;
    }
    assert s[..i] == s;
  }

  /** The suggestions for a term that is already stripped and not blank: matching cities, then matching airports. */
  function Suggestions(cities: seq<City>, airports: seq<Airport>, term: string): seq<LocationEntry> {
    Map(CityEntryOf, CityHits(cities, term)) + Map(AirportEntryOf, AirportHits(airports, term))
  }

  /**
   * At most ten suggestions, every city before every airport; each city suggestion names
   * a matching city as "city, country" and each airport suggestion a matching airport
   * as "name (IATA)".
   */
  lemma SuggestionsShape(cities: seq<City>, airports: seq<Airport>, term: string)
    ensures var r := Suggestions(cities, airports, term);
      && |r| <= MaxCities + MaxAirports
      && (forall i, j :: 0 <= i < j < |r| && r[i].AirportEntry? ==> r[j].AirportEntry?)
      && (forall e :: e in r && e.CityEntry? ==>
            exists c :: c in cities && CityMatches(c, term) && e == CityEntryOf(c))
      && (forall e :: e in r && e.AirportEntry? ==>
            exists a :: a in airports && AirportNameMatches(a, term) && e == AirportEntryOf(a))
  {
    var cs := CityHits(cities, term);
    var as_ := AirportHits(airports, term);
    var r := Suggestions(cities, airports, term);
    assert forall i :: 0 <= i < |cs| ==> r[i] == CityEntryOf(cs[i]);
    assert forall i :: |cs| <= i < |r| ==> r[i] == AirportEntryOf(as_[i - |cs|]);
    forall e | e in r && e.CityEntry?
      ensures exists c :: c in cities && CityMatches(c, term) && e == CityEntryOf(c)
    {
      var i :| 0 <= i < |r| && r[i] == e;
      assert i < |cs|;
      assert cs[i] in cs;
    }
    forall e | e in r && e.AirportEntry?
      ensures exists a :: a in airports && AirportNameMatches(a, term) && e == AirportEntryOf(a)
    {
      var i :| 0 <= i < |r| && r[i] == e;
      assert i >= |cs|;
      assert as_[i - |cs|] in as_;
    }
  }

  // ---------------------------------------------------------------- search_flights: criteria

  /** The query string of a search; `page` and `page_size` are already integers. */
  datatype Query = Query(
    page: int,
    pageSize: int,
    origin: Option<string>,
    destination: Option<string>,
    startDate: Option<string>,
    endDate: Option<string>)

  /** A location term: the parameter, empty when absent, stripped. */
  function Term(param: Option<string>): string {
    PyStrip(param.GetOr(""))
  }

  /** A date parameter counts when it is present and not empty, whether or not it parses. */
  predicate Given(param: Option<string>) {
    param.Some? && param.value != []
  }

  /** The date bound a parameter sets: only a given date that parses sets one. */
  function Bound(param: Option<string>, parseDate: string -> Option<int>): Option<int> {
    if Given(param) then parseDate(param.value) else None
  }

  /** The city name, the airport name or the IATA code contains the term, ignoring case. */
  predicate AirportMatches(a: Airport, term: string) {
    ContainsIgnoringCase(a.city.name, term) || ContainsIgnoringCase(a.name, term) || ContainsIgnoringCase(a.iata, term)
  }

  predicate OriginOk(x: Instance, q: Query) {
    Term(q.origin) == [] || AirportMatches(x.origin, Term(q.origin))
  }

  predicate DestinationOk(x: Instance, q: Query) {
    Term(q.destination) == [] || AirportMatches(x.destination, Term(q.destination))
  }

  predicate StartOk(x: Instance, q: Query, parseDate: string -> Option<int>) {
    Bound(q.startDate, parseDate).None? || x.date >= Bound(q.startDate, parseDate).value
  }

  predicate EndOk(x: Instance, q: Query, parseDate: string -> Option<int>) {
    Bound(q.endDate, parseDate).None? || x.date <= Bound(q.endDate, parseDate).value
  }

  /** An instance passes every filter the query sets. */
  predicate Selected(x: Instance, q: Query, parseDate: string -> Option<int>) {
    OriginOk(x, q) && DestinationOk(x, q) && StartOk(x, q, parseDate) && EndOk(x, q, parseDate)
  }

  /** `any([origin, destination, start_date, end_date])`. */
  predicate HasCriteria(q: Query) {
    Term(q.origin) != [] || Term(q.destination) != [] || Given(q.startDate) || Given(q.endDate)
  }

  // ---------------------------------------------------------------- search_flights: order

  /** Lexicographic order of strings by character code. */
  predicate StrLe(a: string, b: string) {
    a == [] || (b != [] && (a[0] < b[0] || (a[0] == b[0] && StrLe(a[1..], b[1..]))))
  }

  lemma {:induction false} StrLeTotal(a: string, b: string)
    ensures StrLe(a, b) || StrLe(b, a)
  {
    if a != [] && b != [] && a[0] == b[0] {
      StrLeTotal(a[1..], b[1..]);
    }
  }

  lemma {:induction false} StrLeTrans(a: string, b: string, c: string)
    requires StrLe(a, b) && StrLe(b, c)
    ensures StrLe(a, c)
  {
    if a != [] && b != [] && c != [] && a[0] == b[0] == c[0] {
      StrLeTrans(a[1..], b[1..], c[1..]);
    }
  }

  /** `order_by('date', 'flight__fnum')`. */
  predicate KeyLe(x: Instance, y: Instance) {
    x.date < y.date || (x.date == y.date && StrLe(x.fnum, y.fnum))
  }

  lemma KeyLeTotal(x: Instance, y: Instance)
    ensures KeyLe(x, y) || KeyLe(y, x)
  {
    StrLeTotal(x.fnum, y.fnum);
  }

  lemma KeyLeTrans(x: Instance, y: Instance, z: Instance)
    requires KeyLe(x, y) && KeyLe(y, z)
    ensures KeyLe(x, z)
  {
    if x.date == y.date == z.date {
      StrLeTrans(x.fnum, y.fnum, z.fnum);
    }
  }

  predicate Ordered(s: seq<Instance>) {
    forall i, j :: 0 <= i < j < |s| ==> KeyLe(s[i], s[j])
  }

  /** `x` put before the first element it does not follow. */
  function Insert(x: Instance, s: seq<Instance>): (r: seq<Instance>)
    ensures multiset(r) == multiset(s) + multiset{x}
  {
    if s == [] then [x]
    else if KeyLe(x, s[0]) then [x] + s
    else
      assert s == [s[0]] + s[1..];
      [s[0]] + Insert(x, s[1..])
  }

  /** An element that no element of `s` precedes keeps `[a] + s` ordered. */
  lemma PrependOrdered(a: Instance, s: seq<Instance>)
    requires Ordered(s) && forall y :: y in s ==> KeyLe(a, y)
    ensures Ordered([a] + s)
  {
    var r := [a] + s;
    forall i, j | 0 <= i < j < |r| ensures KeyLe(r[i], r[j]) {
      if i == 0 {
        assert r[j] == s[j - 1] && s[j - 1] in s;
      } else {
        assert r[i] == s[i - 1] && r[j] == s[j - 1];
      }
    }
  }

  /** Inserting into an ordered list keeps it ordered. */
  lemma {:induction false} InsertOrdered(x: Instance, s: seq<Instance>)
    requires Ordered(s)
    ensures Ordered(Insert(x, s))
  {
    if s == [] {
    } else if KeyLe(x, s[0]) {
      forall y | y in s ensures KeyLe(x, y) {
        var j :| 0 <= j < |s| && s[j] == y;
        if j > 0 { KeyLeTrans(x, s[0], s[j]); }
      }
      PrependOrdered(x, s);
    } else {
      var tail := s[1..];
      assert Ordered(tail) by {
        forall i, j | 0 <= i < j < |tail| ensures KeyLe(tail[i], tail[j]) {
          assert tail[i] == s[i + 1] && tail[j] == s[j + 1];
        }
      }
      InsertOrdered(x, tail);
      var rest := Insert(x, tail);
      KeyLeTotal(x, s[0]);
      forall y | y in rest ensures KeyLe(s[0], y) {
        assert y in multiset(rest);
        if y != x {
          assert y in multiset(tail);
          var j :| 0 <= j < |tail| && tail[j] == y;
          assert s[j + 1] == y;
        }
      }
      PrependOrdered(s[0], rest);
    }
  }

  /** The instances in (date, fnum) order: an insertion sort. */
  function SortByKey(s: seq<Instance>): (r: seq<Instance>)
    ensures Ordered(r) && multiset(r) == multiset(s)
  {
    if s == [] then []
    else
      assert s == s[..|s| - 1] + [s[|s| - 1]];
      var sorted := SortByKey(s[..|s| - 1]);
      InsertOrdered(s[|s| - 1], sorted);
      Insert(s[|s| - 1], sorted)
  }

  // ---------------------------------------------------------------- search_flights: pages

  /** Multiplying by the page size keeps the order of page numbers. */
  lemma MulLe(a: nat, b: nat, size: nat)
    requires a <= b
    ensures a * size <= b * size
  {
  }

  /** Page `n` starts one page size after page `n - 1`. */
  lemma MulPred(n: nat, size: nat)
    requires n >= 1
    ensures (n - 1) * size == n * size - size
  {
  }

  /** The number of pages of `count` items (an empty list still has one page). */
  function NumPages(count: nat, size: nat): (n: nat)
    requires size > 0
    ensures n >= 1
    ensures (n - 1) * size < (if count == 0 then 1 else count) <= n * size
  {
    var hits := if count == 0 then 1 else count;
    var n := (hits + size - 1) / size;
    var rem := (hits + size - 1) % size;
    assert hits + size - 1 == n * size + rem && 0 <= rem < size;
    MulPred(n, size);
    n
  }

  /** `get_page`: a page number out of range gives the last page. */
  function PageNumber(page: int, numPages: nat): (n: nat)
    requires numPages >= 1
    ensures 1 <= n <= numPages
    ensures 1 <= page <= numPages ==> n == page
    ensures !(1 <= page <= numPages) ==> n == numPages
  {
    if 1 <= page <= numPages then page else numPages
  }

  /** Where page `n` starts and ends in a list of `count` items. */
  lemma PageBounds(count: nat, size: nat, n: nat)
    requires size > 0 && 1 <= n <= NumPages(count, size)
    ensures (n - 1) * size <= count
    ensures n < NumPages(count, size) ==> n * size < count
    ensures (n - 1) * size + size == n * size
  {
    var numPages := NumPages(count, size);
    MulLe(n - 1, numPages - 1, size);
    MulPred(n, size);
    if n < numPages {
      MulLe(n, numPages - 1, size);
    }
  }

  /** Where page `n` ends: after `n * size` items, or at the end of the list. */
  function PageTop(count: nat, size: nat, n: nat): nat {
    if n * size < count then n * size else count
  }

  /** The items of page `n`, which holds `size` items unless it is the last. */
  function PageSlice(s: seq<Instance>, size: nat, n: nat): (r: seq<Instance>)
    requires size > 0 && 1 <= n <= NumPages(|s|, size)
    ensures |r| <= size
    ensures n < NumPages(|s|, size) ==> |r| == size
  {
    PageBounds(|s|, size, n);
    s[(n - 1) * size..PageTop(|s|, size, n)]
  }

  /** Pages 1 to `n` one after the other. */
  function FirstPages(s: seq<Instance>, size: nat, n: nat): seq<Instance>
    requires size > 0 && n <= NumPages(|s|, size)
  {
    if n == 0 then [] else FirstPages(s, size, n - 1) + PageSlice(s, size, n)
  }

  /** The first `n` pages are the first `n * size` items; all the pages are the whole list. */
  lemma {:induction false} FirstPagesPrefix(s: seq<Instance>, size: nat, n: nat)
    requires size > 0 && n <= NumPages(|s|, size)
    ensures FirstPages(s, size, n) == s[..PageTop(|s|, size, n)]
    ensures n == NumPages(|s|, size) ==> FirstPages(s, size, n) == s
  {
    if n > 0 {
      FirstPagesPrefix(s, size, n - 1);
      PageBounds(|s|, size, n);
      var lo := (n - 1) * size;
      var hi := PageTop(|s|, size, n);
      assert PageTop(|s|, size, n - 1) == lo;
      assert s[..hi] == s[..lo] + s[lo..hi];
    }
    if n == NumPages(|s|, size) {
      assert PageTop(|s|, size, n) == |s|;
    }
  }

  /** The answer of `search_flights`; `page` and `page_size` echo the request. */
  datatype FlightsResponse =
    | RandomFlights(results: seq<Instance>, page: int, pageSize: int, total: nat)
    | PagedFlights(results: seq<Instance>, page: int, pageSize: int, total: nat,
                   totalPages: nat, hasNext: bool, hasPrevious: bool)

  /** `Paginator(ordered, size).get_page(page)` and the response built from it. */
  function Paged(ordered: seq<Instance>, page: int, size: nat): (r: FlightsResponse)
    requires size > 0
    ensures r.PagedFlights? && r.page == page && r.pageSize == size && r.total == |ordered|
    ensures r.totalPages == NumPages(|ordered|, size)
  {
    var numPages := NumPages(|ordered|, size);
    var n := PageNumber(page, numPages);
    PagedFlights(PageSlice(ordered, size, n), page, size, |ordered|, numPages, n < numPages, n > 1)
  }

  /**
   * A page holds at most `size` items, all from the list; there is a next page exactly
   * when items lie beyond this one, and a previous one exactly when this is not page 1.
   */
  lemma PagedProperties(ordered: seq<Instance>, page: int, size: nat)
    requires size > 0
    ensures var r := Paged(ordered, page, size);
      var n := PageNumber(page, r.totalPages);
      && |r.results| <= size
      && (forall x :: x in r.results ==> x in ordered)
      && (r.hasNext <==> n * size < |ordered|)
      && (r.hasPrevious <==> n > 1)
      && (!r.hasNext ==> r.results == ordered[(n - 1) * size..])
  {
    var r := Paged(ordered, page, size);
    var n := PageNumber(page, r.totalPages);
    PageBounds(|ordered|, size, n);
    if n == r.totalPages {
      assert n * size >= |ordered|;
    }
  }

  /** A page number out of range is answered with the last page. */
  lemma OutOfRangePageIsLast(ordered: seq<Instance>, page: int, size: nat)
    requires size > 0 && !(1 <= page <= NumPages(|ordered|, size))
    ensures var r := Paged(ordered, page, size);
      r.results == PageSlice(ordered, size, r.totalPages) && !r.hasNext
  {
  }

  // ---------------------------------------------------------------- search_flights

  // The filters of the query set, as predicates on instances.

  function OriginFilter(term: string): Instance -> bool {
    (x: Instance) => AirportMatches(x.origin, term)
  }

  function DestinationFilter(term: string): Instance -> bool {
    (x: Instance) => AirportMatches(x.destination, term)
  }

  function FromDate(start: int): Instance -> bool {
    (x: Instance) => x.date >= start
  }

  function ToDate(end: int): Instance -> bool {
    (x: Instance) => x.date <= end
  }

  // What the query set holds after each filter.

  function AfterOrigin(q: Query): Instance -> bool {
    (x: Instance) => OriginOk(x, q)
  }

  function AfterDestination(q: Query): Instance -> bool {
    (x: Instance) => OriginOk(x, q) && DestinationOk(x, q)
  }

  function AfterStart(q: Query, parseDate: string -> Option<int>): Instance -> bool {
    (x: Instance) => OriginOk(x, q) && DestinationOk(x, q) && StartOk(x, q, parseDate)
  }

  function SelectedBy(q: Query, parseDate: string -> Option<int>): Instance -> bool {
    (x: Instance) => Selected(x, q, parseDate)
  }

  /** The paged answer to a search with criteria: the selected instances in (date, fnum) order. */
  function Searched(instances: seq<Instance>, q: Query, parseDate: string -> Option<int>): seq<Instance> {
    SortByKey(Filter(instances, SelectedBy(q, parseDate)))
  }

  // Each filter of the view narrows the query set to the instances that pass every filter so far.

  lemma OriginStep(instances: seq<Instance>, q: Query)
    ensures Term(q.origin) != [] ==> Filter(instances, OriginFilter(Term(q.origin))) == Filter(instances, AfterOrigin(q))
    ensures Term(q.origin) == [] ==> instances == Filter(instances, AfterOrigin(q))
  {
    if Term(q.origin) != [] {
      FilterSame(instances, OriginFilter(Term(q.origin)), AfterOrigin(q));
    } else {
      FilterAll(instances, AfterOrigin(q));
    }
  }

  lemma DestinationStep(instances: seq<Instance>, q: Query)
    ensures Term(q.destination) != [] ==>
              Filter(Filter(instances, AfterOrigin(q)), DestinationFilter(Term(q.destination))) == Filter(instances, AfterDestination(q))
    ensures Term(q.destination) == [] ==> Filter(instances, AfterOrigin(q)) == Filter(instances, AfterDestination(q))
  {
    if Term(q.destination) != [] {
      FilterFilter(instances, AfterOrigin(q), DestinationFilter(Term(q.destination)), AfterDestination(q));
    } else {
      FilterSame(instances, AfterOrigin(q), AfterDestination(q));
    }
  }

  lemma StartStep(instances: seq<Instance>, q: Query, parseDate: string -> Option<int>)
    ensures Bound(q.startDate, parseDate).Some? ==>
              Filter(Filter(instances, AfterDestination(q)), FromDate(Bound(q.startDate, parseDate).value))
              == Filter(instances, AfterStart(q, parseDate))
    ensures Bound(q.startDate, parseDate).None? ==>
              Filter(instances, AfterDestination(q)) == Filter(instances, AfterStart(q, parseDate))
  {
    var bound := Bound(q.startDate, parseDate);
    if bound.Some? {
      FilterFilter(instances, AfterDestination(q), FromDate(bound.value), AfterStart(q, parseDate));
    } else {
      FilterSame(instances, AfterDestination(q), AfterStart(q, parseDate));
    }
  }

  lemma EndStep(instances: seq<Instance>, q: Query, parseDate: string -> Option<int>)
    ensures Bound(q.endDate, parseDate).Some? ==>
              Filter(Filter(instances, AfterStart(q, parseDate)), ToDate(Bound(q.endDate, parseDate).value))
              == Filter(instances, SelectedBy(q, parseDate))
    ensures Bound(q.endDate, parseDate).None? ==>
              Filter(instances, AfterStart(q, parseDate)) == Filter(instances, SelectedBy(q, parseDate))
  {
    var bound := Bound(q.endDate, parseDate);
    if bound.Some? {
      FilterFilter(instances, AfterStart(q, parseDate), ToDate(bound.value), SelectedBy(q, parseDate));
    } else {
      FilterSame(instances, AfterStart(q, parseDate), SelectedBy(q, parseDate));
    }
  }

  /**
   * `search_flights`. The query set is narrowed filter by filter; without criteria the
   * answer is the first `page_size` instances of `shuffled` (the random order the
   * database picks) with the total count; otherwise it is a page of the selected
   * instances in (date, fnum) order.
   */
  method SearchFlightsView(instances: seq<Instance>, q: Query, parseDate: string -> Option<int>,
                           shuffled: seq<Instance>)
    returns (response: FlightsResponse)
    requires q.pageSize > 0
    requires multiset(shuffled) == multiset(instances)
    ensures response.RandomFlights? <==> !HasCriteria(q)
    ensures response.RandomFlights? ==>
              response == RandomFlights(Take(shuffled, q.pageSize), q.page, q.pageSize, |instances|)
    ensures response.PagedFlights? ==>
              response == Paged(Searched(instances, q, parseDate), q.page, q.pageSize)
  {
    var queryset := instances;
    var origin := Term(q.origin);
    var destination := Term(q.destination);
    OriginStep(instances, q);
    if origin != [] {
      queryset := Filter(queryset, OriginFilter(origin));
    }
    DestinationStep(instances, q);
    if destination != [] {
      queryset := Filter(queryset, DestinationFilter(destination));
    }
    StartStep(instances, q, parseDate);
    if Given(q.startDate) {
      var start := parseDate(q.startDate.value);
      if start.Some? {
        queryset := Filter(queryset, FromDate(start.value));
      }
    }
    EndStep(instances, q, parseDate);
    if Given(q.endDate) {
      var end := parseDate(q.endDate.value);
      if end.Some? {
        queryset := Filter(queryset, ToDate(end.value));
      }
    }
    if !(origin != [] || destination != [] || Given(q.startDate) || Given(q.endDate)) {
      return RandomFlights(Take(shuffled, q.pageSize), q.page, q.pageSize, |queryset|);
    }
    var ordered := SortByKey(queryset);
    response := Paged(ordered, q.page, q.pageSize);
  }

  /** Every instance a search with criteria returns passes all its filters. */
  lemma SearchedSelected(instances: seq<Instance>, q: Query, parseDate: string -> Option<int>)
    ensures var r := Searched(instances, q, parseDate);
      Ordered(r) && forall x :: x in r <==> x in instances && Selected(x, q, parseDate)
  {
    var kept := Filter(instances, SelectedBy(q, parseDate));
    var r := Searched(instances, q, parseDate);
    forall x ensures x in r <==> x in kept {
      assert x in r <==> x in multiset(r);
    }
  }

  /** The random answer holds at most `page_size` instances, all from the table. */
  lemma RandomSample(instances: seq<Instance>, shuffled: seq<Instance>, size: nat)
    requires multiset(shuffled) == multiset(instances)
    ensures var r := Take(shuffled, size);
      && |r| == (if size < |instances| then size else |instances|)
      && multiset(r) <= multiset(instances)
  {
    var r := Take(shuffled, size);
    assert |shuffled| == |multiset(shuffled)| == |instances|;
    assert shuffled == r + shuffled[|r|..];
    assert multiset(shuffled) == multiset(r) + multiset(shuffled[|r|..]);
  }

  /** A date parameter that does not parse sets no bound, yet it turns the random answer off. */
  lemma MalformedDateIsCriterion(q: Query, parseDate: string -> Option<int>)
    requires Given(q.startDate) && parseDate(q.startDate.value).None?
    ensures HasCriteria(q)
    ensures forall x :: StartOk(x, q, parseDate)
  {
  }

  // ---------------------------------------------------------------- popular destination

  /** A flight (not dated) and the city it flies to. */
  datatype FlightRoute = FlightRoute(fnum: string, destinationCity: City)

  /** The group `values('destination__city__city_name', 'destination__city__city_id')` puts a flight in. */
  datatype Destination = Destination(cityName: string, cityId: int)

  function DestinationOf(f: FlightRoute): Destination {
    Destination(f.destinationCity.name, f.destinationCity.id)
  }

  /** `Count('fnum')` of one group. */
  function FlightCount(flights: seq<FlightRoute>, d: Destination): nat {
    if flights == [] then 0
    else FlightCount(flights[1..], d) + if DestinationOf(flights[0]) == d then 1 else 0
  }

  /** The index of the candidate whose group has the most flights; on a tie the earliest. */
  function Busiest(flights: seq<FlightRoute>, candidates: seq<FlightRoute>): (b: nat)
    requires candidates != []
    ensures b < |candidates|
    ensures forall i :: 0 <= i < |candidates| ==>
              FlightCount(flights, DestinationOf(candidates[i])) <= FlightCount(flights, DestinationOf(candidates[b]))
    decreases |candidates|
  {
    var last := |candidates| - 1;
    if last == 0 then 0
    else
      var best := Busiest(flights, candidates[..last]);
      assert forall i :: 0 <= i < last ==> candidates[..last][i] == candidates[i];
      var lastCount := FlightCount(flights, DestinationOf(candidates[last]));
      var bestCount := FlightCount(flights, DestinationOf(candidates[best]));
      if lastCount > bestCount then last else best
  }

  /** `order_by('-flight_count').first()`: no group when there is no flight. */
  function MostPopular(flights: seq<FlightRoute>): Option<Destination> {
    if flights == [] then None else Some(DestinationOf(flights[Busiest(flights, flights)]))
  }

  /** A destination with flights is the destination of one of them. */
  lemma {:induction false} CountedHasFlight(flights: seq<FlightRoute>, d: Destination)
    requires FlightCount(flights, d) > 0
    ensures exists i :: 0 <= i < |flights| && DestinationOf(flights[i]) == d
  {
    if DestinationOf(flights[0]) != d {
      CountedHasFlight(flights[1..], d);
      var i :| 0 <= i < |flights[1..]| && DestinationOf(flights[1..][i]) == d;
      assert flights[i + 1] == flights[1..][i];
    }
  }

  /** A destination of one of the flights has at least that flight. */
  lemma {:induction false} FlightCountPositive(flights: seq<FlightRoute>, i: nat)
    requires i < |flights|
    ensures FlightCount(flights, DestinationOf(flights[i])) >= 1
  {
    if i > 0 {
      FlightCountPositive(flights[1..], i - 1);
      assert flights[1..][i - 1] == flights[i];
    }
  }

  /** The chosen group has flights, and no destination has more. */
  lemma MostPopularIsMaximal(flights: seq<FlightRoute>)
    ensures MostPopular(flights).None? <==> flights == []
    ensures MostPopular(flights).Some? ==>
              && FlightCount(flights, MostPopular(flights).value) >= 1
              && forall d :: FlightCount(flights, d) <= FlightCount(flights, MostPopular(flights).value)
  {
    if flights != [] {
      var b := Busiest(flights, flights);
      var best := DestinationOf(flights[b]);
      FlightCountPositive(flights, b);
      forall d ensures FlightCount(flights, d) <= FlightCount(flights, best) {
        if FlightCount(flights, d) > 0 {
          CountedHasFlight(flights, d);
        }
      }
    }
  }

  /** The answer of the popular-destination endpoint. */
  datatype PopularResponse =
    | NoResults
    | PopularFlight(flight: Instance, destination: string, flightCount: nat)

  /**
   * `get_popular_destination_flight`: one instance flying to the busiest destination city,
   * chosen by `pick` among them (the database's random order), with the city name and
   * its flight count; no results when there is no flight or no instance of one.
   */
  function PopularDestinationFlight(flights: seq<FlightRoute>, instances: seq<Instance>, pick: nat): (r: PopularResponse)
    ensures flights == [] ==> r.NoResults?
    ensures r.PopularFlight? ==>
              && r.flight in instances
              && MostPopular(flights).Some?
              && r.flight.destination.city.id == MostPopular(flights).value.cityId
              && r.destination == MostPopular(flights).value.cityName
              && r.flightCount == FlightCount(flights, MostPopular(flights).value)
  {
    match MostPopular(flights)
    case None => NoResults
    case Some(d) =>
      var candidates := Filter(instances, (x: Instance) => x.destination.city.id == d.cityId);
      if candidates == [] then NoResults
      else
        assert candidates[pick % |candidates|] in candidates;
        PopularFlight(candidates[pick % |candidates|], d.cityName, FlightCount(flights, d))
  }

  /** With a flight to the busiest city among the instances there is an answer. */
  lemma PopularWhenReachable(flights: seq<FlightRoute>, instances: seq<Instance>, pick: nat, x: Instance)
    requires MostPopular(flights).Some? && x in instances
    requires x.destination.city.id == MostPopular(flights).value.cityId
    ensures PopularDestinationFlight(flights, instances, pick).PopularFlight?
  {
    assert x in Filter(instances, (y: Instance) => y.destination.city.id == MostPopular(flights).value.cityId);
  }
}
