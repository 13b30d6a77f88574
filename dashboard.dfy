/**
 * The dashboard: the signed-in user's tickets, two figures computed from them (miles
 * and destinations visited), the selected ticket and its check-in status label.
 */
module Dashboard {
  import opened Common
  import opened Text

  /** A ticket as the dashboard reads it; nested details may be missing. */
  datatype Ticket = Ticket(
    ticketNumber: string,
    paidPoints: Option<int>,
    destination: Option<string>,
    checkinStatus: string)

  /** `ticket.payment_details?.paid_points || 0`: a missing value (or zero) counts as zero. */
  function Miles(t: Ticket): int {
    t.paidPoints.GetOr(0)
  }

  /** `totalMiles`: the sum of the miles of the tickets, from the first to the last. */
  function TotalMiles(tickets: seq<Ticket>): int {
    if tickets == [] then 0 else TotalMiles(tickets[..|tickets| - 1]) + Miles(tickets[|tickets| - 1])
  }

  /** The total over two lists is the sum of their totals. */
  lemma {:induction false} TotalMilesAppend(a: seq<Ticket>, b: seq<Ticket>)
    ensures TotalMiles(a + b) == TotalMiles(a) + TotalMiles(b)
    decreases |b|
  {
    if b != [] {
      assert (a + b)[..|a + b| - 1] == a + b[..|b| - 1];
      TotalMilesAppend(a, b[..|b| - 1]);
    } else {
      assert a + b == a;
    }
  }

  /** With no negative points the total is not negative and no ticket earns more than the total. */
  lemma {:induction false} TotalMilesBounds(tickets: seq<Ticket>)
    requires forall i :: 0 <= i < |tickets| ==> Miles(tickets[i]) >= 0
    ensures TotalMiles(tickets) >= 0
    ensures forall i :: 0 <= i < |tickets| ==> Miles(tickets[i]) <= TotalMiles(tickets)
    decreases |tickets|
  {
    if tickets != [] {
      var init := tickets[..|tickets| - 1];
      assert forall i :: 0 <= i < |init| ==> init[i] == tickets[i];
      TotalMilesBounds(init);
    }
  }

  /** The destination counts when it is present and not empty (`filter(Boolean)`). */
  predicate HasDestination(t: Ticket) {
    t.destination.Some? && t.destination.value != []
  }

  /** `uniqueDestinations`: the set of the tickets' present destinations. */
  function Destinations(tickets: seq<Ticket>): (r: set<string>)
    ensures forall d :: d in r <==> exists i :: 0 <= i < |tickets| && HasDestination(tickets[i]) && tickets[i].destination.value == d
  {
    if tickets == [] then {}
    else
      var init := tickets[..|tickets| - 1];
      var last := tickets[|tickets| - 1];
      assert forall i :: 0 <= i < |init| ==> init[i] == tickets[i];
      Destinations(init) + if HasDestination(last) then {last.destination.value} else {}
  }

  /** `destinationsVisited`: the number of distinct destinations. */
  function DestinationsVisited(tickets: seq<Ticket>): nat {
    |Destinations(tickets)|
  }

  /** The number of tickets that have a destination. */
  function WithDestination(tickets: seq<Ticket>): (n: nat)
    ensures n <= |tickets|
  {
    if tickets == [] then 0
    else WithDestination(tickets[..|tickets| - 1]) + if HasDestination(tickets[|tickets| - 1]) then 1 else 0
  }

  /** There are never more destinations than tickets with a destination, hence than tickets. */
  lemma {:induction false} DestinationsAtMostTickets(tickets: seq<Ticket>)
    ensures DestinationsVisited(tickets) <= WithDestination(tickets) <= |tickets|
    decreases |tickets|
  {
    if tickets != [] {
      DestinationsAtMostTickets(tickets[..|tickets| - 1]);
    }
  }

  /** Several tickets to the same place count once. */
  lemma SameDestinationCountsOnce(t: Ticket, u: Ticket)
    requires HasDestination(t) && u.destination == t.destination
    ensures DestinationsVisited([t, u]) == 1
  {
    assert Destinations([t, u]) == {t.destination.value} by {
      assert Destinations([t]) == {t.destination.value} by {
        assert [t][..0] == [];
      }
      assert [t, u][..1] == [t];
    }
  }

  const FetchFailedMessage := "Failed to fetch tickets"

  /** The check-in status label as written: `replace('_', ' ')` replaces the first underscore only. */
  function CheckinLabel(status: string): string {
    Upper(ReplaceFirst(status, '_', ' '))
  }

  /** The default status keeps its second underscore in the label. */
  lemma NotCheckedInLabel(status: string)
    requires status == "not_checked_in"
    ensures CheckinLabel(status) == "NOT CHECKED_IN"
    ensures '_' in CheckinLabel(status)
  {
    assert status == "not" + ['_'] + "checked_in";
    ReplaceFirstAt("not", '_', ' ', "checked_in");
    assert CheckinLabel(status)[11] == '_';
  }

  /** The label the status evidently stands for: every underscore a space, upper case. */
  function CheckinLabelAll(status: string): (r: string)
    ensures |r| == |status| && '_' !in r
    ensures forall i :: 0 <= i < |status| && status[i] != '_' ==> r[i] == UpperChar(status[i])
  {
    Upper(ReplaceAll(status, '_', ' '))
  }

  /** For a status with at most one underscore the two labels agree. */
  lemma CheckinLabelsAgree(a: string, b: string)
    requires '_' !in a && '_' !in b
    ensures CheckinLabel(a) == CheckinLabelAll(a)
    ensures CheckinLabel(a + "_" + b) == CheckinLabelAll(a + "_" + b)
  {
    ReplaceFirstAbsent(a, '_', ' ');
    ReplaceFirstIsAll(a, '_', ' ', b);
    assert a + "_" + b == a + ['_'] + b;
  }

  /** The corrected label of the default status. */
  lemma NotCheckedInLabelAll(status: string)
    requires status == "not_checked_in"
    ensures CheckinLabelAll(status) == "NOT CHECKED IN"
  {
  }

  /** The other two statuses have at most one underscore: both definitions give the same label. */
  lemma CheckedInLabels(status: string)
    requires status == "checked_in"
    ensures CheckinLabel(status) == CheckinLabelAll(status) == "CHECKED IN"
  {
    assert status == "checked" + "_" + "in";
    CheckinLabelsAgree("checked", "in");
  }

  lemma BoardedLabels(status: string)
    requires status == "boarded"
    ensures CheckinLabel(status) == CheckinLabelAll(status) == "BOARDED"
  {
    CheckinLabelsAgree(status, "");
  }

  class Page {
    var tickets: seq<Ticket>
    var loading: bool
    var error: Option<string>
    var selected: Option<Ticket>

    constructor ()
      ensures tickets == [] && !loading && error.None? && selected.None?
    {
      tickets, loading, error, selected := [], false, None, None;
    }

    /**
     * The fetch effect: nothing without a user; otherwise `response` is the user's
     * tickets, or `None` when the request failed.
     */
    method FetchTickets(userPresent: bool, response: Option<seq<Ticket>>) returns (requested: bool)
      modifies this
      ensures requested == userPresent
      ensures !userPresent ==>
                tickets == old(tickets) && loading == old(loading) && error == old(error) && selected == old(selected)
      ensures userPresent ==> !loading
      ensures userPresent && response.Some? ==>
                tickets == response.value && error.None?
                && selected == if response.value != [] then Some(response.value[0]) else old(selected)
      ensures userPresent && response.None? ==>
                tickets == old(tickets) && error == Some(FetchFailedMessage) && selected == old(selected)
    {
      if !userPresent {
        return false;
      }
      loading := true;
      if response.Some? {
        tickets := response.value;
        error := None;
        if |response.value| > 0 {
          selected := Some(response.value[0]);
        }
      } else {
        error := Some(FetchFailedMessage);
      }
      loading := false;
      requested := true;
    }

    /** A click on a ticket of the list selects it. */
    method SelectTicket(t: Ticket)
      modifies this`selected
      ensures selected == Some(t)
    {
      selected := Some(t);
    }
  }
}
