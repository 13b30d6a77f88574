/**
 * The ticket endpoints of the back end: which tickets a user sees, and the `pay`,
 * `checkin` and `cancel` actions, which all turn on the ticket's boolean check-in
 * status. Money is kept in cents (the decimal fields have two places); points are
 * whole numbers.
 */
module TicketViews {
  import opened Common

  datatype Payment = Payment(total: int, paidCash: int, paidPoints: int)

  datatype Ticket = Ticket(passenger: int, payment: int, checkinStatus: bool)

  /** A passenger and the user account it belongs to, if any. */
  datatype Passenger = Passenger(user: Option<int>)

  /**
   * The tables the endpoints read and write, by primary key. `points` holds the balance
   * of the frequent-traveller record of a passenger, for the passengers that have one.
   */
  datatype Db = Db(
    tickets: map<int, Ticket>,
    payments: map<int, Payment>,
    passengers: map<int, Passenger>,
    points: map<int, int>)

  /** Every ticket refers to a stored payment and a stored passenger. */
  predicate Consistent(db: Db) {
    forall k :: k in db.tickets ==> db.tickets[k].payment in db.payments && db.tickets[k].passenger in db.passengers
  }

  datatype User = User(id: int, isStaff: bool)

  datatype Body = Message(text: string) | Error(text: string) | Detail(text: string)

  datatype Response = Response(status: int, body: Body)

  /** The tables after a request and the response to it. */
  datatype Outcome = Outcome(db: Db, response: Response)

  const NotFound := Response(404, Detail("Not found."))

  /** `get_queryset`: staff see every ticket, other users the tickets of their own passengers. */
  function Visible(db: Db, user: User): (r: set<int>)
    ensures r <= db.tickets.Keys
    ensures user.isStaff ==> r == db.tickets.Keys
    ensures forall k :: k in r <==>
              k in db.tickets && (user.isStaff ||
                (db.tickets[k].passenger in db.passengers && db.passengers[db.tickets[k].passenger].user == Some(user.id)))
  {
    set k | k in db.tickets && (user.isStaff ||
      (db.tickets[k].passenger in db.passengers && db.passengers[db.tickets[k].passenger].user == Some(user.id)))
  }

  /** `int(payment.total)` in whole currency units: Python's `int` truncates toward zero. */
  function WholeUnits(cents: int): (r: int)
    ensures cents >= 0 ==> 0 <= r * 100 <= cents < r * 100 + 100
    ensures cents < 0 ==> r * 100 - 100 < cents <= r * 100 <= 0
  {
    if cents >= 0 then cents / 100 else -((-cents) / 100)
  }

  /** The outcome of `pay`: the new tables and the response. `payMethod` is absent when the request names none. */
  function Pay(db: Db, user: User, pk: int, payMethod: Option<string>): (o: Outcome)
    requires Consistent(db)
  {
    var m := if payMethod.Some? then payMethod.value else "cash";
    if pk !in Visible(db, user) then Outcome(db, NotFound)
    else if m != "cash" && m != "points" then Outcome(db, Response(400, Error("Invalid payment method")))
    else
      var ticket := db.tickets[pk];
      if ticket.checkinStatus then Outcome(db, Response(400, Error("Already paid or checked in.")))
      else
        var payment := db.payments[ticket.payment];
        var paid := db.tickets[pk := ticket.(checkinStatus := true)];
        var success := Response(200, Message("Payment successful."));
        if m == "cash" then
          Outcome(db.(tickets := paid, payments := db.payments[ticket.payment := payment.(paidCash := payment.total, paidPoints := 0)]),
           success)
        else
          var units := WholeUnits(payment.total);
          if ticket.passenger !in db.points || db.points[ticket.passenger] < units then
            Outcome(db, Response(400, Error("Insufficient points.")))
          else
            Outcome(db.(tickets := paid,
                 payments := db.payments[ticket.payment := payment.(paidCash := 0, paidPoints := units)],
                 points := db.points[ticket.passenger := db.points[ticket.passenger] - units]),
             success)
  }

  /** The outcome of `checkin`. */
  function Checkin(db: Db, user: User, pk: int): (o: Outcome) {
    if pk !in Visible(db, user) then Outcome(db, NotFound)
    else if !db.tickets[pk].checkinStatus then
      Outcome(db.(tickets := db.tickets[pk := db.tickets[pk].(checkinStatus := true)]),
       Response(200, Message("Checked in successfully.")))
    else Outcome(db, Response(400, Error("Already checked in.")))
  }

  /** The outcome of `cancel`. */
  function Cancel(db: Db, user: User, pk: int): (o: Outcome) {
    if pk !in Visible(db, user) then Outcome(db, NotFound)
    else if db.tickets[pk].checkinStatus then Outcome(db, Response(400, Error("Cannot cancel after check-in.")))
    else Outcome(db.(tickets := db.tickets - {pk}), Response(204, Message("Ticket canceled.")))
  }

  // ---------------------------------------------------------------- properties of pay

  /** A request that fails changes nothing, and a request answered 200 is one that paid. */
  lemma PayFailureChangesNothing(db: Db, user: User, pk: int, payMethod: Option<string>)
    requires Consistent(db)
    ensures Pay(db, user, pk, payMethod).response.status != 200 ==> Pay(db, user, pk, payMethod).db == db
    ensures Pay(db, user, pk, payMethod).response.status == 200 <==>
              pk in Visible(db, user)
              && (payMethod.None? || payMethod.value == "cash" || payMethod.value == "points")
              && !db.tickets[pk].checkinStatus
              && (payMethod.Some? && payMethod.value == "points" ==>
                    db.tickets[pk].passenger in db.points
                    && db.points[db.tickets[pk].passenger] >= WholeUnits(db.payments[db.tickets[pk].payment].total))
  {
  }

  /** Any method other than cash or points is refused before the ticket's state is looked at. */
  lemma PayInvalidMethod(db: Db, user: User, pk: int, payMethod: string)
    requires Consistent(db) && pk in Visible(db, user) && payMethod != "cash" && payMethod != "points"
    ensures Pay(db, user, pk, Some(payMethod)) == Outcome(db, Response(400, Error("Invalid payment method")))
  {
  }

  /** A cash payment pays the total in cash and checks the ticket in; no points move. */
  lemma PayCash(db: Db, user: User, pk: int, payMethod: Option<string>)
    requires Consistent(db) && pk in Visible(db, user) && !db.tickets[pk].checkinStatus
    requires payMethod.None? || payMethod == Some("cash")
    ensures var o := Pay(db, user, pk, payMethod);
      var db', r := o.db, o.response;
      var p := db.tickets[pk].payment;
      && r == Response(200, Message("Payment successful."))
      && db'.tickets[pk].checkinStatus
      && db'.payments[p].paidCash == db.payments[p].total && db'.payments[p].paidPoints == 0
      && db'.points == db.points && db'.passengers == db.passengers
  {
  }

  /**
   * A points payment takes exactly the whole units of the total from the passenger's
   * balance and records them as paid: the new balance plus the points paid is the old
   * balance, and nothing is paid in cash.
   */
  lemma PayPointsConserves(db: Db, user: User, pk: int)
    requires Consistent(db)
    requires Pay(db, user, pk, Some("points")).response.status == 200
    ensures var o := Pay(db, user, pk, Some("points"));
      var db', r := o.db, o.response;
      var t := db.tickets[pk];
      && t.passenger in db.points && t.passenger in db'.points
      && db'.points[t.passenger] + db'.payments[t.payment].paidPoints == db.points[t.passenger]
      && db'.payments[t.payment].paidPoints == WholeUnits(db.payments[t.payment].total)
      && db'.payments[t.payment].paidCash == 0
      && forall q :: q in db.points && q != t.passenger ==> q in db'.points && db'.points[q] == db.points[q]
  {
  }

  /** A balance below the whole units of the total, or no frequent-traveller record, refuses the payment. */
  lemma PayInsufficientPoints(db: Db, user: User, pk: int)
    requires Consistent(db) && pk in Visible(db, user) && !db.tickets[pk].checkinStatus
    requires var t := db.tickets[pk];
      t.passenger !in db.points || db.points[t.passenger] < WholeUnits(db.payments[t.payment].total)
    ensures Pay(db, user, pk, Some("points")) == Outcome(db, Response(400, Error("Insufficient points.")))
  {
  }

  /** Paying keeps the tables consistent and touches no other ticket. */
  lemma PayKeepsOthers(db: Db, user: User, pk: int, payMethod: Option<string>)
    requires Consistent(db)
    ensures Consistent(Pay(db, user, pk, payMethod).db)
    ensures Pay(db, user, pk, payMethod).db.tickets.Keys == db.tickets.Keys
    ensures forall k :: k in db.tickets && k != pk ==> Pay(db, user, pk, payMethod).db.tickets[k] == db.tickets[k]
  {
  }

  /** A ticket that was paid cannot be paid again, by any payMethod. */
  lemma PayTwiceFails(db: Db, user: User, pk: int, m1: Option<string>, m2: Option<string>)
    requires Consistent(db)
    requires Pay(db, user, pk, m1).response.status == 200
    ensures Consistent(Pay(db, user, pk, m1).db)
    ensures var db1 := Pay(db, user, pk, m1).db;
      Pay(db1, user, pk, m2).response.status == 400 && Pay(db1, user, pk, m2).db == db1
  {
    PayKeepsOthers(db, user, pk, m1);
    var db1 := Pay(db, user, pk, m1).db;
    assert Visible(db1, user) == Visible(db, user);
  }

  /** A ticket that was checked in can no longer be paid. */
  lemma CheckinThenPayFails(db: Db, user: User, pk: int, m: Option<string>)
    requires Consistent(db) && Checkin(db, user, pk).response.status == 200
    ensures Consistent(Checkin(db, user, pk).db)
    ensures var db1 := Checkin(db, user, pk).db;
      Pay(db1, user, pk, m).response.status == 400 && Pay(db1, user, pk, m).db == db1
  {
    var db1 := Checkin(db, user, pk).db;
    assert Visible(db1, user) == Visible(db, user);
  }

  // ---------------------------------------------------------------- checkin and cancel

  /** Check-in succeeds exactly for a visible ticket not yet checked in, and only sets its status. */
  lemma CheckinProperties(db: Db, user: User, pk: int)
    ensures Checkin(db, user, pk).response.status == 200 <==> pk in Visible(db, user) && !db.tickets[pk].checkinStatus
    ensures Checkin(db, user, pk).response.status == 200 ==>
              Checkin(db, user, pk).db == db.(tickets := db.tickets[pk := db.tickets[pk].(checkinStatus := true)])
    ensures Checkin(db, user, pk).response.status != 200 ==> Checkin(db, user, pk).db == db
    ensures Checkin(db, user, pk).response.status == 200 ==> Checkin(Checkin(db, user, pk).db, user, pk).response.status == 400
  {
    if Checkin(db, user, pk).response.status == 200 {
      assert Visible(Checkin(db, user, pk).db, user) == Visible(db, user);
    }
  }

  /**
   * Cancelling succeeds exactly for a visible ticket that is not checked in, and removes
   * that ticket and nothing else; its payment stays.
   */
  lemma CancelProperties(db: Db, user: User, pk: int)
    requires Consistent(db)
    ensures Cancel(db, user, pk).response.status == 204 <==> pk in Visible(db, user) && !db.tickets[pk].checkinStatus
    ensures Cancel(db, user, pk).response.status == 204 ==>
              var after := Cancel(db, user, pk).db;
              && after.tickets.Keys == db.tickets.Keys - {pk}
              && (forall k :: k in after.tickets ==> after.tickets[k] == db.tickets[k])
              && after.payments == db.payments && after.passengers == db.passengers && after.points == db.points
    ensures Cancel(db, user, pk).response.status != 204 ==> Cancel(db, user, pk).db == db
    ensures Consistent(Cancel(db, user, pk).db)
  {
  }

  /** A user who does not own a ticket, and is not staff, gets 404 from every action and changes nothing. */
  lemma OthersGetNotFound(db: Db, user: User, pk: int, payMethod: Option<string>)
    requires Consistent(db) && pk in db.tickets && !user.isStaff
    requires db.passengers[db.tickets[pk].passenger].user != Some(user.id)
    ensures Pay(db, user, pk, payMethod) == Outcome(db, NotFound)
    ensures Checkin(db, user, pk) == Outcome(db, NotFound)
    ensures Cancel(db, user, pk) == Outcome(db, NotFound)
  {
  }

  // ---------------------------------------------------------------- the view set

  /** The view set over the tables it changes in place. */
  class TicketViewSet {
    var tickets: map<int, Ticket>
    var payments: map<int, Payment>
    var passengers: map<int, Passenger>
    var points: map<int, int>

    function State(): Db
      reads this
    {
      Db(tickets, payments, passengers, points)
    }

    constructor (db: Db)
      ensures State() == db
    {
      tickets, payments, passengers, points := db.tickets, db.payments, db.passengers, db.points;
    }

    /** `get_object`: the ticket when the user may see it. */
    method GetObject(user: User, pk: int) returns (t: Option<Ticket>)
      ensures t.Some? <==> pk in Visible(State(), user)
      ensures t.Some? ==> t.value == tickets[pk]
    {
      if pk in tickets && (user.isStaff ||
          (tickets[pk].passenger in passengers && passengers[tickets[pk].passenger].user == Some(user.id))) {
        t := Some(tickets[pk]);
      } else {
        t := None;
      }
    }

    /** `pay`: the steps of the action, each early return answering an error. */
    method PayAction(user: User, pk: int, payMethod: Option<string>) returns (r: Response)
      requires Consistent(State())
      modifies this
      ensures Outcome(State(), r) == Pay(old(State()), user, pk, payMethod)
      ensures Consistent(State())
    {
      PayKeepsOthers(State(), user, pk, payMethod);
      var ticket := GetObject(user, pk);
      if ticket.None? {
        return NotFound;
      }
      var m := if payMethod.Some? then payMethod.value else "cash";
      if m != "cash" && m != "points" {
        return Response(400, Error("Invalid payment method"));
      }
      var t := ticket.value;
      if t.checkinStatus {
        return Response(400, Error("Already paid or checked in."));
      }
      var payment := payments[t.payment];
      if m == "cash" {
        payment := payment.(paidCash := payment.total, paidPoints := 0);
      } else {
        var units := WholeUnits(payment.total);
        if t.passenger !in points || points[t.passenger] < units {
          return Response(400, Error("Insufficient points."));
        }
        points := points[t.passenger := points[t.passenger] - units];
        payment := payment.(paidPoints := units, paidCash := 0);
      }
      payments := payments[t.payment := payment];
      tickets := tickets[pk := t.(checkinStatus := true)];
      r := Response(200, Message("Payment successful."));
    }

    /** `checkin`. */
    method CheckinAction(user: User, pk: int) returns (r: Response)
      modifies this
      ensures Outcome(State(), r) == Checkin(old(State()), user, pk)
    {
      var ticket := GetObject(user, pk);
      if ticket.None? {
        return NotFound;
      }
      if !ticket.value.checkinStatus {
        tickets := tickets[pk := ticket.value.(checkinStatus := true)];
        return Response(200, Message("Checked in successfully."));
      }
      r := Response(400, Error("Already checked in."));
    }

    /** `cancel`. */
    method CancelAction(user: User, pk: int) returns (r: Response)
      modifies this
      ensures Outcome(State(), r) == Cancel(old(State()), user, pk)
    {
      var ticket := GetObject(user, pk);
      if ticket.None? {
        return NotFound;
      }
      if ticket.value.checkinStatus {
        return Response(400, Error("Cannot cancel after check-in."));
      }
      tickets := tickets - {pk};
      r := Response(204, Message("Ticket canceled."));
    }
  }
}
