# Airline tracker: a verified model of its booking and search core

The airline tracker is a web application. Its React front end lets a traveller do these things:

- search flights by origin, destination and dates, or look at random ones;
- pick an airport from an autocomplete list;
- choose a fare class, enter passenger details and pay for a ticket;
- follow their tickets on a dashboard.

Its Django back end does these things:

- suggests locations;
- searches flight instances with filters, a random fallback and pagination;
- finds a flight to the most popular destination;
- lets a ticket's owner pay for it, check in or cancel.

This project models that core in Dafny, one module per source file:

| module | file | source |
|---|---|---|
| `Common` | `common.dfy` | the optional-value type, and taking a prefix (`slice(0, n)`, `[:n]`) |
| `Text` | `text.dfy` | the string operations both sides rely on: trimming, `includes`/`icontains`, case, `replace`, printing and parsing numbers |
| `Airports` | `airports.dfy` | the airport filter and the lookup by code that both autocomplete components share |
| `AirportAutocomplete` | `airport_autocomplete.dfy` | `frontend/src/components/AirportAutocomplete.js` |
| `SimpleAirportAutocomplete` | `simple_airport_autocomplete.dfy` | `frontend/src/components/SimpleAirportAutocomplete.js` |
| `FlightSearchPage` | `flight_search_page.dfy` | `frontend/src/pages/FlightSearchPage.js` |
| `FlightInfoPage` | `flight_info_page.dfy` | `frontend/src/pages/FlightInfoPage.js` |
| `PaymentPage` | `payment_page.dfy` | `frontend/src/pages/PaymentPage.js` |
| `SearchFlights` | `search_flights.dfy` | `frontend/src/pages/SearchFlights.js` |
| `Dashboard` | `dashboard.dfy` | `frontend/src/pages/Dashboard.js` |
| `TicketViews` | `ticket_views.dfy` | `backend/ticket/views.py` |
| `FlightViews` | `flight_views.dfy` | `backend/flights/views.py` |

Each React component becomes a class:

- Its state variables are the class's fields.
- Each event handler and each effect is a method, with a `modifies` clause and a postcondition that gives the whole new state.
- A handler that awaits a request is split at the `await`, where the scroll guard of the search page needs it. Otherwise it takes the response as a parameter.
- A callback to the parent (`onChange`) is an out-parameter. `None` means the callback was not called.
- A memoised handler that reads state outside its dependency list reads that state as it was when the handler was last rebuilt. The search page's scroll handler is the one case: its form is a field of its own (`scrollForm`).

The pure computations are functions. These are the filters, validation, labels, request payloads and the feed's page arithmetic. They carry the properties of the model, as postconditions and as lemmas.

On the back end:

- The database tables are sequences in the order the database returns them, and a lookup is a filter by a predicate.
- `search_locations` and `search_flights` are methods, because they build their answer step by step: two append loops, and a query set narrowed one filter at a time. Each is proved equal to a reference definition, whose properties are then proved as lemmas.
- The ticket actions are functions from a database state to a new state and a response.
- A class `TicketViewSet` holds the tables as fields. Its actions are proved to follow those functions.

## Model

| member | source | states |
|---|---|---|
| `Common.Take` | frontend/src/pages/FlightSearchPage.js:56 | `slice(0, n)`: a prefix of the list, as long as `n` or the whole list when that is shorter |
| `Text.Trim` | frontend/src/pages/SearchFlights.js:103 | the result neither starts nor ends with a character of the given white-space class |
| `Text.TrimIsSlice` | frontend/src/pages/SearchFlights.js:103 | the trimmed string is a slice of the input with only white space before and after it and none at its ends, so exactly the leading and trailing white space is removed |
| `Text.TrimIdempotent` | backend/flights/views.py:25 | trimming twice is trimming once |
| `Text.Before` | frontend/src/pages/SearchFlights.js:103 | `split(c)[0]`: a prefix without `c`, and shorter than the input exactly when `c` occurs, in which case `c` follows it |
| `Text.ContainsMiddle` | frontend/src/components/AirportAutocomplete.js:60 | `includes` finds every piece a string is built from |
| `Text.ReplaceFirstAt` | frontend/src/pages/Dashboard.js:309 | a one-character `replace` changes the first occurrence only, and leaves the rest of the string as it was |
| `Text.ReplaceFirstIsAll` | frontend/src/pages/PaymentPage.js:55 | with a single occurrence, replacing the first is replacing all |
| `Text.ReplaceAll` | frontend/src/pages/Dashboard.js:309 | every occurrence replaced, everything else kept, length kept |
| `Text.NatToString` | frontend/src/pages/PaymentPage.js:86-87 | a decimal numeral without a leading zero |
| `Text.ParsePrinted` | frontend/src/pages/PaymentPage.js:86 | parsing the printed number gives the number back |
| `Text.NatToStringInjective` | frontend/src/pages/PaymentPage.js:86-87 | two different stamps give two different numbers |
| `Airports.Matching` | frontend/src/components/AirportAutocomplete.js:32-36 | every airport kept matches the query in one of the four fields and comes from the list |
| `Airports.MatchingKeepsAll` | frontend/src/components/AirportAutocomplete.js:32-36 | every airport of the list that matches the query is kept |
| `Airports.MatchingIsSubsequence` | frontend/src/components/AirportAutocomplete.js:32-36 | the filter keeps the list's order |
| `Airports.ShownProperties` | frontend/src/components/AirportAutocomplete.js:32-37 | at most ten, all matching, in order, and no match with fewer than ten matches before it is left out |
| `Airports.FindByCode` | frontend/src/components/AirportAutocomplete.js:21 | `find` by code: `None` exactly when no airport has that code; otherwise the airport at the first index with that code |
| `Airports.FirstWithCode` | frontend/src/components/SimpleAirportAutocomplete.js:39 | the index of the first airport with the code, and no earlier airport has it |
| `AirportAutocomplete.FilterFor` | frontend/src/components/AirportAutocomplete.js:28-40 | the dropdown never lists more than ten airports |
| `AirportAutocomplete.FilterForProperties` | frontend/src/components/AirportAutocomplete.js:28-40 | a blank input after trimming gives the first ten airports; otherwise only matches of the untrimmed input are listed, in order, and none is left out before the tenth |
| `AirportAutocomplete.SelectionAfterTyping` | frontend/src/components/AirportAutocomplete.js:59-63 | the selection survives typing exactly when the new text still contains its code |
| `AirportAutocomplete.AppendingKeepsSelection` | frontend/src/components/AirportAutocomplete.js:60-68 | typing after the displayed text of a selected airport keeps it selected |
| `AirportAutocomplete.InitFromValue` | frontend/src/components/AirportAutocomplete.js:19-26 | a set `value` that names an airport selects the first such airport and shows it; otherwise the state is unchanged |
| `AirportAutocomplete.Widget.constructor` | frontend/src/components/AirportAutocomplete.js:11-26 | mounting: closed, with the selection and the text the value effect gives |
| `AirportAutocomplete.Widget.SetProps` | frontend/src/components/AirportAutocomplete.js:19-40 | new props re-run the value effect when a prop changed; otherwise selection and text are kept |
| `AirportAutocomplete.Widget.InputChange` | frontend/src/components/AirportAutocomplete.js:54-64 | the text changes and the dropdown opens; a stale selection is dropped and `''` is reported exactly then |
| `AirportAutocomplete.Widget.AirportSelect` | frontend/src/components/AirportAutocomplete.js:66-71 | the airport is selected and shown as "city (code) - name"; the dropdown closes and the code is reported |
| `AirportAutocomplete.Widget.Focus` | frontend/src/components/AirportAutocomplete.js:73-75 | focus opens the dropdown |
| `AirportAutocomplete.Widget.KeyDown` | frontend/src/components/AirportAutocomplete.js:77-81 | Escape closes the dropdown; other keys leave it as it was |
| `AirportAutocomplete.Widget.ClickOutside` | frontend/src/components/AirportAutocomplete.js:43-52 | a press outside closes the dropdown |
| `SimpleAirportAutocomplete.FilterFor` | frontend/src/components/SimpleAirportAutocomplete.js:21-34 | at most ten airports, and at least one for an empty term when there are airports |
| `SimpleAirportAutocomplete.FilterForProperties` | frontend/src/components/SimpleAirportAutocomplete.js:21-34 | only the empty term gives the unfiltered list; any other term, white space included, lists only matches, in order, and leaves none out before the tenth |
| `SimpleAirportAutocomplete.RefillOnFocus` | frontend/src/components/SimpleAirportAutocomplete.js:62-64 | a non-empty list is kept; an empty one becomes the first ten airports |
| `SimpleAirportAutocomplete.FocusShowsNonMatching` | frontend/src/components/SimpleAirportAutocomplete.js:59-65 | for any non-empty term that no airport matches, focusing shows the first ten airports, none of which matches the term |
| `SimpleAirportAutocomplete.NothingMatching` | frontend/src/components/SimpleAirportAutocomplete.js:26-31 | when no airport matches the term, the filter keeps none |
| `SimpleAirportAutocomplete.FocusAfterAbsentLetter` | frontend/src/components/SimpleAirportAutocomplete.js:59-65 | a one-letter term that no field of any airport contains, ignoring case, leaves the focus showing the first ten airports |
| `SimpleAirportAutocomplete.NotContained` | frontend/src/components/SimpleAirportAutocomplete.js:26-30 | a one-letter term whose letter the field lacks does not match it |
| `SimpleAirportAutocomplete.InitTerm` | frontend/src/components/SimpleAirportAutocomplete.js:37-44 | a value naming an airport sets the term to "city (code)" of the first airport with that code; otherwise the term is kept |
| `SimpleAirportAutocomplete.Widget.constructor` | frontend/src/components/SimpleAirportAutocomplete.js:10-44 | mounting: closed, with the term the value effect gives and the list filtered for it |
| `SimpleAirportAutocomplete.Widget.SetProps` | frontend/src/components/SimpleAirportAutocomplete.js:15-44 | new props re-run the value effect and, when the term or the airports changed, the filter |
| `SimpleAirportAutocomplete.Widget.InputChange` | frontend/src/components/SimpleAirportAutocomplete.js:46-53 | the term changes and the dropdown opens; `''` is reported exactly when a value is set |
| `SimpleAirportAutocomplete.Widget.AirportSelect` | frontend/src/components/SimpleAirportAutocomplete.js:55-58 | the term shows "city (code)", the dropdown closes and the code is reported |
| `SimpleAirportAutocomplete.Widget.Focus` | frontend/src/components/SimpleAirportAutocomplete.js:59-65 | focus opens the dropdown and refills an empty list |
| `SimpleAirportAutocomplete.Widget.BlurTimerFires` | frontend/src/components/SimpleAirportAutocomplete.js:66-73 | the delayed close closes the dropdown |
| `FlightSearchPage.Validate` | frontend/src/pages/FlightSearchPage.js:82-93 | the missing-fields message exactly when a field is empty; the same-cities message exactly when all are set and the cities are equal; no message exactly when the search may go ahead |
| `FlightSearchPage.ErrorMessage` | frontend/src/pages/FlightSearchPage.js:103-110 | never empty; the server's `error` text, else "Error: <status>"; for a thrown error its message, else the generic text |
| `FlightSearchPage.StatusColor` | frontend/src/pages/FlightSearchPage.js:123-133 | the default colour exactly for the statuses not listed |
| `FlightSearchPage.StatusColorsDistinct` | frontend/src/pages/FlightSearchPage.js:124-130 | two different known statuses never share a colour |
| `FlightSearchPage.Page.constructor` | frontend/src/pages/FlightSearchPage.js:12-23 | the initial state: empty fields and list, no error, no modal |
| `FlightSearchPage.Page.MenuLoaded` | frontend/src/pages/FlightSearchPage.js:29-37 | the date takes the server's `today` only when one is sent |
| `FlightSearchPage.Page.SampleFlightsLoaded` | frontend/src/pages/FlightSearchPage.js:54-57 | the first five sample flights are shown |
| `FlightSearchPage.Page.SetDate` | frontend/src/pages/FlightSearchPage.js:67-73 | only the date changes |
| `FlightSearchPage.Page.SetDeparture` | frontend/src/pages/FlightSearchPage.js:67-73 | only the departure changes |
| `FlightSearchPage.Page.SetArrival` | frontend/src/pages/FlightSearchPage.js:67-73 | only the arrival changes |
| `FlightSearchPage.Page.Search` | frontend/src/pages/FlightSearchPage.js:75-114 | a request is made exactly when validation passes; the list is the response, or it stays empty with the validation or request error |
| `FlightSearchPage.Page.QuickBook` | frontend/src/pages/FlightSearchPage.js:135-138 | the flight is selected and the modal opens |
| `FlightSearchPage.Page.BookingComplete` | frontend/src/pages/FlightSearchPage.js:140-143 | the modal closes and the selection is cleared |
| `FlightSearchPage.Page.CloseModal` | frontend/src/pages/FlightSearchPage.js:384 | the modal closes and the selection is kept |
| `FlightInfoPage.Proceed` | frontend/src/pages/FlightInfoPage.js:33-43 | the chosen class, Economy by default, with the price of that class (first class for any other name); nothing else of the flight changes |
| `FlightInfoPage.ProceedTwice` | frontend/src/pages/FlightInfoPage.js:33-43 | choosing a class twice is choosing the second |
| `FlightInfoPage.JsRem` | frontend/src/pages/FlightInfoPage.js:31 | JavaScript's `%`: smaller than the divisor in magnitude, with the sign of the dividend |
| `FlightInfoPage.DurationPartsNonNegative` | frontend/src/pages/FlightInfoPage.js:30-31 | for a duration that is not negative, the hours and minutes (under 60) add up to it |
| `FlightInfoPage.DurationPartsNegative` | frontend/src/pages/FlightInfoPage.js:30-31 | for a negative duration that is not whole hours, the parts add up to one hour less |
| `FlightInfoPage.FormatDuration` | frontend/src/pages/FlightInfoPage.js:28-33 | "N/A" for a missing or zero duration |
| `FlightInfoPage.FormatDurationPositive` | frontend/src/pages/FlightInfoPage.js:28-33 | a positive duration is shown as "<h>h <m>m" with `m < 60` and `h * 60 + m` the duration |
| `FlightInfoPage.TotalSeats` | frontend/src/pages/FlightInfoPage.js:125 | business plus economy seats, a missing count counting as zero |
| `PaymentPage.Set` | frontend/src/pages/PaymentPage.js:44-49 | the field takes the value and every other field is kept |
| `PaymentPage.FirstEmpty` | frontend/src/pages/PaymentPage.js:52-58 | `None` exactly when every listed field is filled; otherwise an empty field with every earlier one filled |
| `PaymentPage.FirstMissingNone` | frontend/src/pages/PaymentPage.js:51-61 | validation passes exactly when the six required fields are filled; the ID type never matters |
| `PaymentPage.FirstMissingIsFirst` | frontend/src/pages/PaymentPage.js:52-56 | the reported field is empty and never the ID type; the phone number is reported exactly when it is the first empty field |
| `PaymentPage.MissingMessageReadable` | frontend/src/pages/PaymentPage.js:55 | the message names the field with every underscore turned into a space |
| `PaymentPage.KeyReplacedWhole` | frontend/src/pages/PaymentPage.js:52-55 | no field key has a second underscore, so the single `replace` reaches them all |
| `PaymentPage.RequestProperties` | frontend/src/pages/PaymentPage.js:85-110 | the payload books the flight's instance in the selected class (Economy when none is set), pays the whole price in cash with no points, is not checked in, carries the passenger unchanged with the ID document made of the upper-cased type, ": " and the number, and its ticket number parses back to the stamp |
| `PaymentPage.ChosenClassIsBooked` | frontend/src/pages/PaymentPage.js:96 | the class chosen on the flight page is the class booked; no choice books Economy |
| `PaymentPage.FailureMessage` | frontend/src/pages/PaymentPage.js:125 | never empty; the server's `detail`, else the error's message, else the generic text |
| `PaymentPage.Wizard.constructor` | frontend/src/pages/PaymentPage.js:12-32 | step 1, the initial passenger (passport as ID type), empty card, no error |
| `PaymentPage.Wizard.PassengerChange` | frontend/src/pages/PaymentPage.js:44-49 | one passenger field changes |
| `PaymentPage.Wizard.ValidatePassengerInfo` | frontend/src/pages/PaymentPage.js:51-61 | passes exactly when no required field is empty; otherwise the error names the first empty one |
| `PaymentPage.Wizard.NextStep` | frontend/src/pages/PaymentPage.js:63-67 | moves to step 2 exactly when validation passes |
| `PaymentPage.Wizard.BackStep` | frontend/src/pages/PaymentPage.js:352 | back to step 1 |
| `PaymentPage.Wizard.SetCard` | frontend/src/pages/PaymentPage.js:299-337 | the four card inputs take their values |
| `PaymentPage.Wizard.BeginSubmit` | frontend/src/pages/PaymentPage.js:69-115 | nothing happens while disabled; without a flight id the missing-id error is set and nothing is sent; otherwise the built request is sent |
| `PaymentPage.Wizard.FinishSubmit` | frontend/src/pages/PaymentPage.js:115-127 | processing ends; success on a created ticket, otherwise the failure message |
| `SearchFlights.ExtractLocationName` | frontend/src/pages/SearchFlights.js:101-104 | the name keeps no `(` and no `,` |
| `SearchFlights.ExtractLocationNameIdempotent` | frontend/src/pages/SearchFlights.js:101-104 | extracting twice is extracting once |
| `SearchFlights.ExtractLocationNamePlain` | frontend/src/pages/SearchFlights.js:101-104 | a plain trimmed city name is kept as it is |
| `SearchFlights.DigitRun` | frontend/src/pages/SearchFlights.js:234 | `\d+`: the longest run of digits at a position |
| `SearchFlights.FirstMatch` | frontend/src/pages/SearchFlights.js:234-235 | the regular expression's leftmost match, or none anywhere |
| `SearchFlights.FormatDuration` | frontend/src/pages/SearchFlights.js:232-241 | "N/A" for a missing or empty duration |
| `SearchFlights.FormatDurationOfTime` | frontend/src/pages/SearchFlights.js:232-241 | a "h:m:s" duration is shown from its hours and minutes |
| `SearchFlights.FormatDurationRoundTrip` | frontend/src/pages/SearchFlights.js:232-241 | a duration printed as "H:M:S" is shown as "<H>h <M>m" |
| `SearchFlights.FormatDurationNoColon` | frontend/src/pages/SearchFlights.js:234-240 | a duration without a colon is shown unchanged |
| `SearchFlights.FormatDateRangeDisplay` | frontend/src/pages/SearchFlights.js:133-139 | the placeholder without a start; "From <start>" without an end; otherwise "<start> - <end>" |
| `SearchFlights.PlaceholderIffNoStart` | frontend/src/pages/SearchFlights.js:133-139 | the placeholder shows exactly when no start date is set |
| `SearchFlights.AfterSearchPage` | frontend/src/pages/SearchFlights.js:154-163 | a reset replaces the list and a later page appends to it; the next page number advances; `hasMore` is the server's `has_next` |
| `SearchFlights.ReplayConcatenates` | frontend/src/pages/SearchFlights.js:141-171 | after a reset and then more pages, the list is all the pages in order, the next request asks for the page after them, and `hasMore` comes from the last page |
| `SearchFlights.Swapped` | frontend/src/pages/SearchFlights.js:87-99 | origin and destination exchanged, the dates kept |
| `SearchFlights.SwapTwice` | frontend/src/pages/SearchFlights.js:87-99 | swapping twice restores the form |
| `SearchFlights.Page.constructor` | frontend/src/pages/SearchFlights.js:7-35 | the initial state: empty form, first page, loading, and a scroll handler closed over the empty form |
| `SearchFlights.Page.InputChange` | frontend/src/pages/SearchFlights.js:61-71 | only the edited location changes |
| `SearchFlights.Page.LocationSearch` | frontend/src/pages/SearchFlights.js:38-58 | a request is made exactly for terms longer than one character; shorter ones clear that field's suggestions |
| `SearchFlights.Page.SuggestionSelect` | frontend/src/pages/SearchFlights.js:73-84 | the field takes the suggestion's display name and its suggestions are cleared |
| `SearchFlights.Page.Swap` | frontend/src/pages/SearchFlights.js:87-99 | the form is swapped and all suggestions are cleared |
| `SearchFlights.Page.DateRangeClick` | frontend/src/pages/SearchFlights.js:107-110 | the picker opens on a copy of the chosen range |
| `SearchFlights.Page.DateRangeChange` | frontend/src/pages/SearchFlights.js:112-117 | one end of the pending range changes |
| `SearchFlights.Page.ApplyDateRange` | frontend/src/pages/SearchFlights.js:119-125 | the pending range becomes the chosen range and the picker closes |
| `SearchFlights.Page.CancelDateRange` | frontend/src/pages/SearchFlights.js:127-130 | the pending range is dropped and the picker closes |
| `SearchFlights.SearchParams` | frontend/src/pages/SearchFlights.js:145-152 | the request carries names without `(` or `,`, the dates as typed, the given page and a page size of 10 |
| `SearchFlights.Page.BeginSearch` | frontend/src/pages/SearchFlights.js:141-152 | loading starts; the request is built from the form of the calling render, with page 1 on a reset and else the stored page; the scroll handler is rebuilt on the current form exactly when loading was off |
| `SearchFlights.Page.FinishSearch` | frontend/src/pages/SearchFlights.js:153-170 | loading ends; a received page updates the feed as `AfterSearchPage` says; a failure keeps it; the scroll handler is rebuilt on the current form exactly when one of its dependencies changed |
| `SearchFlights.Page.BeginRandom` | frontend/src/pages/SearchFlights.js:174-176 | loading starts, and the scroll handler is rebuilt on the current form exactly when loading was off |
| `SearchFlights.Page.FinishRandom` | frontend/src/pages/SearchFlights.js:177-184 | random flights are appended; a failure keeps the list; the scroll handler is rebuilt exactly when loading was on |
| `SearchFlights.Page.Submit` | frontend/src/pages/SearchFlights.js:188-191 | a reset search from page 1 built from the form as it is now |
| `SearchFlights.Page.Scroll` | frontend/src/pages/SearchFlights.js:194-217 | a fetch happens exactly near the bottom, when not loading and when more remain; in search mode the request is the next page built from the form the memoised handler closed over, otherwise random flights are loaded |
| `Dashboard.TotalMilesAppend` | frontend/src/pages/Dashboard.js:35-38 | the miles of two lists add up |
| `Dashboard.TotalMilesBounds` | frontend/src/pages/Dashboard.js:35-38 | with no negative points the total is not negative and bounds every ticket's points |
| `Dashboard.Destinations` | frontend/src/pages/Dashboard.js:39-42 | exactly the present, non-empty destinations of the tickets |
| `Dashboard.DestinationsAtMostTickets` | frontend/src/pages/Dashboard.js:39-42 | never more destinations visited than tickets with a destination, and so than tickets |
| `Dashboard.SameDestinationCountsOnce` | frontend/src/pages/Dashboard.js:39-42 | two tickets to one place count once |
| `Dashboard.NotCheckedInLabel` | frontend/src/pages/Dashboard.js:309 | as written, the default status is labelled "NOT CHECKED_IN" |
| `Dashboard.CheckinLabelAll` | frontend/src/pages/Dashboard.js:309 | the intended label: same length, no underscore, every other character upper-cased |
| `Dashboard.CheckinLabelsAgree` | frontend/src/pages/Dashboard.js:309 | for a status with at most one underscore, the label as written is the intended one |
| `Dashboard.NotCheckedInLabelAll` | frontend/src/pages/Dashboard.js:309 | the intended label of the default status is "NOT CHECKED IN" |
| `Dashboard.CheckedInLabels` | frontend/src/pages/Dashboard.js:309 | "checked_in" is labelled "CHECKED IN" either way |
| `Dashboard.BoardedLabels` | frontend/src/pages/Dashboard.js:309 | "boarded" is labelled "BOARDED" either way |
| `Dashboard.Page.constructor` | frontend/src/pages/Dashboard.js:8-11 | no tickets, no error, nothing selected |
| `Dashboard.Page.FetchTickets` | frontend/src/pages/Dashboard.js:12-34 | nothing without a user; otherwise the tickets and the first one selected, or the fetch error |
| `Dashboard.Page.SelectTicket` | frontend/src/pages/Dashboard.js:208 | a click selects the ticket |
| `TicketViews.Visible` | backend/ticket/views.py:14-18 | staff see every ticket; others see exactly the tickets whose passenger is their own |
| `TicketViews.WholeUnits` | backend/ticket/views.py:37 | `int()` of an amount: truncation toward zero |
| `TicketViews.PayFailureChangesNothing` | backend/ticket/views.py:20-49 | a failed payment changes nothing; a payment succeeds exactly when the ticket is visible, not checked in, paid by a known method, and the points cover the price when paid by points |
| `TicketViews.PayInvalidMethod` | backend/ticket/views.py:25-26 | an unknown method gives 400 "Invalid payment method" |
| `TicketViews.PayCash` | backend/ticket/views.py:23-49 | cash (also by default) pays the whole price in cash with no points, and leaves the balances alone |
| `TicketViews.PayPointsConserves` | backend/ticket/views.py:36-44 | a points payment moves exactly the points it records from the owner's balance, pays no cash, and touches no other balance |
| `TicketViews.PayInsufficientPoints` | backend/ticket/views.py:39-40 | too few points give 400 "Insufficient points." and no change |
| `TicketViews.PayKeepsOthers` | backend/ticket/views.py:20-49 | paying keeps the database consistent and touches no other ticket |
| `TicketViews.PayTwiceFails` | backend/ticket/views.py:28-49 | a paid ticket is checked in, so paying again fails with 400 |
| `TicketViews.CheckinThenPayFails` | backend/ticket/views.py:28-58 | a checked-in ticket can no longer be paid |
| `TicketViews.CheckinProperties` | backend/ticket/views.py:51-58 | check-in succeeds exactly for a visible ticket not yet checked in, sets only its flag, and a second check-in fails |
| `TicketViews.CancelProperties` | backend/ticket/views.py:60-66 | cancelling succeeds exactly for a visible ticket not checked in; it then removes that ticket, keeps every other ticket as it was and leaves payments, passengers and points alone; a failure changes nothing; the database stays consistent |
| `TicketViews.OthersGetNotFound` | backend/ticket/views.py:14-18 | a user who is not staff gets 404 on another passenger's ticket, and nothing changes |
| `TicketViews.TicketViewSet.constructor` | backend/ticket/views.py:10-18 | the view set starts on the given tables |
| `TicketViews.TicketViewSet.GetObject` | backend/ticket/views.py:14-18 | a ticket is found exactly when it is visible to the user |
| `TicketViews.TicketViewSet.PayAction` | backend/ticket/views.py:20-49 | the tables and the response are those `Pay` gives |
| `TicketViews.TicketViewSet.CheckinAction` | backend/ticket/views.py:51-58 | the tables and the response are those `Checkin` gives |
| `TicketViews.TicketViewSet.CancelAction` | backend/ticket/views.py:60-66 | the tables and the response are those `Cancel` gives |
| `FlightViews.Filter` | backend/flights/views.py:127-155 | a queryset filter: exactly the elements that satisfy the predicate, each at most as often as before |
| `FlightViews.FilterFilter` | backend/flights/views.py:127-155 | two filters in a row are one filter by both predicates |
| `FlightViews.CityHits` | backend/flights/views.py:31-33 | at most five cities, each from the table and matching the term |
| `FlightViews.AirportHits` | backend/flights/views.py:36-39 | at most five airports, each from the table and matching by name or code |
| `FlightViews.FirstMatchesKept` | backend/flights/views.py:31-39 | a filtered and sliced queryset keeps every match with fewer matches before it than the slice's size |
| `FlightViews.CityHitsFirst` | backend/flights/views.py:31-33 | every matching city with fewer than five matches before it in table order is a hit |
| `FlightViews.AirportHitsFirst` | backend/flights/views.py:36-39 | every matching airport with fewer than five matches before it in table order is a hit |
| `FlightViews.SearchLocations` | backend/flights/views.py:21-68 | a blank term after stripping gives nothing; otherwise the two loops build the city suggestions followed by the airport suggestions |
| `FlightViews.AppendEach` | backend/flights/views.py:45-66 | each append loop leaves the list it started from followed by the image of every element, in order |
| `FlightViews.SuggestionsShape` | backend/flights/views.py:31-66 | at most ten suggestions, every city before every airport; a city is shown as "city, country" and an airport as "name (IATA)", each of them a match |
| `FlightViews.InsertOrdered` | backend/flights/views.py:172 | inserting keeps the (date, fnum) order |
| `FlightViews.SortByKey` | backend/flights/views.py:172 | `order_by('date', 'flight__fnum')`: ordered, and a permutation of the input |
| `FlightViews.NumPages` | backend/flights/views.py:175-176 | the page count is the ceiling of count over size, with one page for an empty list |
| `FlightViews.PageNumber` | backend/flights/views.py:176 | `get_page`: a number in range is kept; any other gives the last page |
| `FlightViews.PageSlice` | backend/flights/views.py:176-178 | a page holds at most `page_size` items, and exactly that many unless it is the last |
| `FlightViews.FirstPagesPrefix` | backend/flights/views.py:175-178 | the first pages are a prefix of the list, and all the pages together are the whole list |
| `FlightViews.Paged` | backend/flights/views.py:180-189 | the response echoes the requested page and size, totals the list and reports its page count |
| `FlightViews.PagedProperties` | backend/flights/views.py:175-189 | at most `page_size` results from the list; `has_next` exactly when items lie beyond the page; `has_previous` exactly when it is not page 1 |
| `FlightViews.OutOfRangePageIsLast` | backend/flights/views.py:176 | a page number out of range is answered with the last page, which has no next |
| `FlightViews.OriginStep` | backend/flights/views.py:127-133 | the origin filter, when the term is set, keeps the instances whose origin matches |
| `FlightViews.DestinationStep` | backend/flights/views.py:135-141 | the destination filter narrows to the instances that pass both location filters |
| `FlightViews.StartStep` | backend/flights/views.py:143-148 | a start date that parses is an inclusive lower bound; one that does not parse filters nothing |
| `FlightViews.EndStep` | backend/flights/views.py:150-155 | an end date that parses is an inclusive upper bound; one that does not parse filters nothing |
| `FlightViews.SearchFlightsView` | backend/flights/views.py:106-189 | random exactly when no criterion is given: the first `page_size` of a random order with the total count; otherwise the requested page of the selected instances in (date, fnum) order |
| `FlightViews.SearchedSelected` | backend/flights/views.py:127-172 | a search with criteria returns, in order, exactly the instances that pass all its filters |
| `FlightViews.RandomSample` | backend/flights/views.py:157-169 | the random answer holds `min(page_size, count)` instances, all from the table |
| `FlightViews.MalformedDateIsCriterion` | backend/flights/views.py:143-158 | a start date that does not parse sets no bound, yet it turns the random answer off |
| `FlightViews.Busiest` | backend/flights/views.py:222-226 | the flight group that no other group outnumbers |
| `FlightViews.MostPopularIsMaximal` | backend/flights/views.py:222-229 | no group without flights; otherwise the chosen destination has flights and no destination has more |
| `FlightViews.PopularDestinationFlight` | backend/flights/views.py:216-248 | empty results without flights; otherwise an instance flying to the busiest city, with that city's name and flight count |
| `FlightViews.PopularWhenReachable` | backend/flights/views.py:231-240 | with an instance flying to the busiest city, there is an answer |

## Left out

- Case folding covers the ASCII letters only. JavaScript's `toLowerCase`/`toUpperCase` and the database's case-insensitive `icontains` fold all of Unicode.
- Trimming uses the white-space sets of JavaScript's `trim` and Python's `strip()`. Python's set is taken as the ASCII and Latin-1 separators plus the Unicode spaces it lists.
- The network, `fetch`/axios, JSON decoding, navigation, `console` logging and rendering are not modelled. A response is a parameter of the handler it reaches.
- Timers are not modelled: the 1.5-second payment delay, the 2-second redirect, the 200-millisecond blur close and the 300-millisecond debounce of the location search. The blur timer firing is its own method. The debounce is modelled as one request per call, so responses that arrive out of order are not modelled.
- Clocks and randomness are parameters:
  - `Date.now()` for ticket and PNR numbers;
  - the random order of `order_by('?')`, as a permutation of the table;
  - the random pick among the popular destination's flights, as an index.
- `PaymentPage.Wizard.BeginSubmit`: the total price `parseFloat(selected_price || economy_price || 100)` is passed in as a real number. The floating-point parsing and the fallbacks of the price are not modelled.
- `SearchFlights.FormatDateRangeDisplay`: `toLocaleDateString` is a function parameter, and `new Date` parsing is not modelled.
- `FlightViews.StartStep` and `FlightViews.EndStep`: `strptime('%Y-%m-%d')` is a function parameter from a string to an optional day number. Which strings parse is not modelled.
- `FlightViews.SearchFlightsView`: `page` and `page_size` are already integers.
  - A value that `int()` rejects raises an error in the view. That error is not modelled.
  - `page_size` must be positive. A zero size raises an error in the paginator, and a negative one raises an error on the slice.
- `SearchFlights.Page.LocationSearch`: the length test counts characters (Unicode scalar values), while JavaScript's `searchTerm.length` counts UTF-16 code units. A single character outside the Basic Multilingual Plane, such as an emoji, starts a lookup in the source but clears the field's suggestions in the model.
- `FlightViews.SortByKey` compares flight numbers by character code. The database's collation may order them differently. Two instances with the same date and flight number cannot both exist, because instances are unique per (flight, date).
- `FlightViews.Paged` follows the paginator's documented behaviour (no orphans, an empty first page allowed). The paginator is not part of this model's sources.
- `FlightViews.MostPopularIsMaximal`: the database breaks ties between equally popular destinations in no stated order. The model takes the first in table order and proves only that no destination has more flights.
- `FlightViews.PopularDestinationFlight`: a flight's destination city and the destination of its instances are taken from the instance, and the two are not required to agree.
- `search_cities`, `search_airports` and `get_random_flights` in `backend/flights/views.py` are not part of this model.
- `TicketViews.Visible`: the ticket view filters on `passenger__user`, but the passenger model defines no `user` field. The model gives each passenger an optional owner.
- `TicketViews.WholeUnits`: money is counted in cents, because the decimal fields have two places. Floating point is not involved.
- `AirportAutocomplete.Widget`: the filter effect runs after every change of the input or the airports, so the list it keeps is modelled as a function of those two fields (`Filtered`) and not as a field of its own.
- `FlightInfoPage.FormatDuration` for a negative duration is described by `FlightInfoPage.DurationPartsNegative` and not changed, because durations are never negative in the data.
- `Dashboard.Page.FetchTickets`: the user's identity and token are reduced to "a user is signed in". The request is the fixed tickets endpoint.
- The other pages and components, and the back end's serializers and models, are not part of this model. They are Home, Profile, TicketPage, FlightDetailPage, BookingModal and the test pages.

## Findings

| source | as written | input that shows it | evidently intended | confidence | as-written member | corrected member |
|---|---|---|---|---|---|---|
| frontend/src/pages/Dashboard.js:309 | `checkin_status.replace('_', ' ').toUpperCase()` replaces only the first underscore | `"not_checked_in"` gives `"NOT CHECKED_IN"` | every underscore shown as a space: `"NOT CHECKED IN"` | not executed | `Dashboard.NotCheckedInLabel` | `Dashboard.CheckinLabelAll` |
