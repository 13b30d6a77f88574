/**
 * The flight search page: a date and two airport codes, local validation before any
 * request, the error text shown for a failed request, the status colours of the
 * result list, and the quick-book modal.
 */
module FlightSearchPage {
  import opened Common
  import opened Text

  datatype SearchParams = SearchParams(date: string, departure: string, arrival: string)

  /** A flight of the result list; only its identity and status matter here. */
  datatype Flight = Flight(id: int, status: string)

  /** How the request of a search ended. */
  datatype Response =
    | Ok(flights: seq<Flight>)
      /** A response whose status is not OK, with the `error` text of its JSON body if it has one. */
    | HttpError(status: int, serverError: Option<string>)
      /** The request or the reading of its body threw, with the message of what was thrown. */
    | Thrown(message: string)

  const MissingFieldsMessage := "Please fill in all search fields."
  const SameCitiesMessage := "Departure and arrival cities cannot be the same."
  const FetchFailedMessage := "Failed to fetch flights. Please try again."

  /**
   * The local validation of `handleSearch`: the message it shows, or `None` when the
   * request is made. A missing field is reported before equal cities.
   */
  function Validate(p: SearchParams): (r: Option<string>)
    ensures r == Some(MissingFieldsMessage) <==> (p.date == [] || p.departure == [] || p.arrival == [])
    ensures r == Some(SameCitiesMessage) <==>
              (p.date != [] && p.departure != [] && p.arrival != [] && p.departure == p.arrival)
    ensures r.None? <==> (p.date != [] && p.departure != [] && p.arrival != [] && p.departure != p.arrival)
  {
    if p.date == [] || p.departure == [] || p.arrival == [] then Some(MissingFieldsMessage)
    else if p.departure == p.arrival then Some(SameCitiesMessage)
    else None
  }

  /**
   * The error text of a failed request: the server's `error` text, else `Error: <status>`;
   * for a thrown error its message, else the generic text.
   */
  function ErrorMessage(r: Response): (m: string)
    requires !r.Ok?
    ensures m != []
    ensures r.HttpError? && r.serverError.Some? && r.serverError.value != [] ==> m == r.serverError.value
    ensures r.HttpError? && (r.serverError.None? || r.serverError.value == []) ==> m == "Error: " + IntToString(r.status)
    ensures r.Thrown? ==> m == if r.message != [] then r.message else FetchFailedMessage
  {
    match r
    case HttpError(status, serverError) =>
      if serverError.Some? && serverError.value != [] then serverError.value else "Error: " + IntToString(status)
    case Thrown(message) =>
      if message != [] then message else FetchFailedMessage
  }

  const DefaultColor := "text-gray-700"

  /** The colour class of a flight status. */
  function StatusColor(status: string): (c: string)
    ensures c == DefaultColor <==>
              status !in {"scheduled", "delayed", "cancelled", "boarding", "departed", "landed"}
  {
    match status
    case "scheduled" => "text-green-600"
    case "delayed" => "text-orange-500"
    case "cancelled" => "text-red-600"
    case "boarding" => "text-blue-600"
    case "departed" => "text-purple-600"
    case "landed" => "text-gray-600"
    case _ => DefaultColor
  }

  /** No two known statuses share a colour. */
  lemma StatusColorsDistinct(s: string, t: string)
    requires s != t && StatusColor(s) != DefaultColor && StatusColor(t) != DefaultColor
    ensures StatusColor(s) != StatusColor(t)
  {
  }

  class Page {
    var params: SearchParams
    var flights: seq<Flight>
    var loading: bool
    var error: string
    var searched: bool
    var selectedFlight: Option<Flight>
    var showBookingModal: bool

    constructor ()
      ensures params == SearchParams("", "", "") && flights == [] && !loading && error == []
      ensures !searched && selectedFlight.None? && !showBookingModal
    {
      params := SearchParams("", "", "");
      flights := [];
      loading := false;
      error := "";
      searched := false;
      selectedFlight := None;
      showBookingModal := false;
    }

    /** The menu request succeeded: the date defaults to the server's `today` when it sends one. */
    method MenuLoaded(today: Option<string>)
      modifies this`params
      ensures params == if today.Some? && today.value != [] then old(params).(date := today.value) else old(params)
    {
      if today.Some? && today.value != [] {
        params := params.(date := today.value);
      }
    }

    /** The sample request succeeded: the first five flights are shown. */
    method SampleFlightsLoaded(data: seq<Flight>)
      modifies this`flights
      ensures flights == Take(data, 5)
    {
      flights := Take(data, 5);
    }

    /** The date input changes. */
    method SetDate(v: string)
      modifies this`params
      ensures params == old(params).(date := v)
    {
      params := params.(date := v);
    }

    /** The departure autocomplete reports a code. */
    method SetDeparture(v: string)
      modifies this`params
      ensures params == old(params).(departure := v)
    {
      params := params.(departure := v);
    }

    /** The arrival autocomplete reports a code. */
    method SetArrival(v: string)
      modifies this`params
      ensures params == old(params).(arrival := v)
    {
      params := params.(arrival := v);
    }

    /**
     * `handleSearch`: the list and the error are cleared and the page counts as searched;
     * a request is made only when validation passes, and `response` is how it ends.
     */
    method Search(response: Response) returns (requested: bool)
      modifies this`flights, this`error, this`loading, this`searched
      ensures searched && !loading
      ensures requested <==> Validate(params).None?
      ensures !requested ==> flights == [] && Some(error) == Validate(params)
      ensures requested && response.Ok? ==> flights == response.flights && error == []
      ensures requested && !response.Ok? ==> flights == [] && error == ErrorMessage(response)
    {
      loading := true;
      error := "";
      flights := [];
      searched := true;
      var invalid := Validate(params);
      if invalid.Some? {
        error := invalid.value;
        loading := false;
        return false;
      }
      requested := true;
      if response.Ok? {
        flights := response.flights;
      } else {
        error := ErrorMessage(response);
      }
      loading := false;
    }

    /** `handleQuickBook`: the flight is selected and the booking modal opens. */
    method QuickBook(f: Flight)
      modifies this`selectedFlight, this`showBookingModal
      ensures selectedFlight == Some(f) && showBookingModal
    {
      selectedFlight := Some(f);
      showBookingModal := true;
    }

    /** `handleBookingComplete`: the modal closes and the selection is cleared. */
    method BookingComplete()
      modifies this`selectedFlight, this`showBookingModal
      ensures selectedFlight.None? && !showBookingModal
    {
      showBookingModal := false;
      selectedFlight := None;
    }

    /** The modal's close button: the modal closes and the selection stays. */
    method CloseModal()
      modifies this`showBookingModal
      ensures !showBookingModal
    {
      showBookingModal := false;
    }
  }
}
