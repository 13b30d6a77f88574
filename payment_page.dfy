/**
 * The booking wizard of the payment page: step 1 collects the passenger's details,
 * step 2 the card; submitting builds the ticket that is sent to the ticket endpoint.
 */
module PaymentPage {
  import opened Common
  import opened Text
  import FlightInfoPage

  /** The keys of the passenger record. */
  datatype Field = FirstName | LastName | Email | PhoneNumber | IdType | IdNumber | Birthdate

  /** The key as the record and the error messages spell it. */
  function FieldKey(f: Field): string {
    match f
    case FirstName => "first_name"
    case LastName => "last_name"
    case Email => "email"
    case PhoneNumber => "phone_number"
    case IdType => "id_type"
    case IdNumber => "id_number"
    case Birthdate => "birthdate"
  }

  datatype Passenger = Passenger(
    firstName: string, lastName: string, email: string, phoneNumber: string,
    idType: string, idNumber: string, birthdate: string)

  /** The passenger record the page starts with: every field empty, the document a passport. */
  const InitialPassenger := Passenger("", "", "", "", "passport", "", "")

  function Get(p: Passenger, f: Field): string {
    match f
    case FirstName => p.firstName
    case LastName => p.lastName
    case Email => p.email
    case PhoneNumber => p.phoneNumber
    case IdType => p.idType
    case IdNumber => p.idNumber
    case Birthdate => p.birthdate
  }

  /** `{...prev, [field]: value}`: one field replaced, every other field kept. */
  function Set(p: Passenger, f: Field, v: string): (r: Passenger)
    ensures Get(r, f) == v
    ensures forall g :: g != f ==> Get(r, g) == Get(p, g)
  {
    match f
    case FirstName => p.(firstName := v)
    case LastName => p.(lastName := v)
    case Email => p.(email := v)
    case PhoneNumber => p.(phoneNumber := v)
    case IdType => p.(idType := v)
    case IdNumber => p.(idNumber := v)
    case Birthdate => p.(birthdate := v)
  }

  /** The fields `validatePassengerInfo` checks, in the order it checks them; `id_type` is not among them. */
  const Required: seq<Field> := [FirstName, LastName, Email, PhoneNumber, IdNumber, Birthdate]

  /** The position in `fields` of the first field left empty. */
  function FirstEmpty(p: Passenger, fields: seq<Field>): (r: Option<nat>)
    ensures r.None? <==> forall i :: 0 <= i < |fields| ==> Get(p, fields[i]) != []
    ensures r.Some? ==> r.value < |fields| && Get(p, fields[r.value]) == []
    ensures r.Some? ==> forall i :: 0 <= i < r.value ==> Get(p, fields[i]) != []
  {
    if fields == [] then None
    else if Get(p, fields[0]) == [] then Some(0)
    else
      var rest := FirstEmpty(p, fields[1..]);
      assert forall i :: 1 <= i < |fields| ==> fields[i] == fields[1..][i - 1];
      if rest.Some? then Some(rest.value + 1) else None
  }

  /** The first required field left empty, if any. */
  function FirstMissing(p: Passenger): Option<Field> {
    match FirstEmpty(p, Required)
    case None => None
    case Some(i) => Some(Required[i])
  }

  /**
   * Validation passes exactly when the six required fields are filled; the document
   * type plays no part.
   */
  lemma FirstMissingNone(p: Passenger, v: string)
    ensures FirstMissing(p).None? <==>
              (p.firstName != [] && p.lastName != [] && p.email != [] && p.phoneNumber != []
               && p.idNumber != [] && p.birthdate != [])
    ensures FirstMissing(Set(p, IdType, v)).None? == FirstMissing(p).None?
  {
    assert Required[0] == FirstName && Required[1] == LastName && Required[2] == Email;
    assert Required[3] == PhoneNumber && Required[4] == IdNumber && Required[5] == Birthdate;
  }

  /**
   * A failed validation names an empty required field, and it names the first one:
   * the phone number is reported exactly when the three fields before it are filled
   * and it is empty.
   */
  lemma FirstMissingIsFirst(p: Passenger)
    ensures FirstMissing(p).Some? ==> FirstMissing(p).value != IdType && Get(p, FirstMissing(p).value) == []
    ensures FirstMissing(p) == Some(PhoneNumber) <==>
              (p.firstName != [] && p.lastName != [] && p.email != [] && p.phoneNumber == [])
  {
    assert Required[0] == FirstName && Required[1] == LastName && Required[2] == Email;
    assert Required[3] == PhoneNumber && Required[4] == IdNumber && Required[5] == Birthdate;
    var f := FirstEmpty(p, Required);
    if p.firstName != [] && p.lastName != [] && p.email != [] && p.phoneNumber == [] {
      assert f.Some?;
      assert !(f.value < 3) && !(f.value > 3);
    }
  }

  const MissingPrefix := "Please fill in the "

  /** The message for a missing field: its key with the first underscore replaced by a space. */
  function MissingMessage(f: Field): string {
    MissingPrefix + ReplaceFirst(FieldKey(f), '_', ' ')
  }

  /**
   * The messages read as words: no key has more than one underscore, so replacing the
   * first one replaces them all.
   */
  lemma MissingMessageReadable(f: Field)
    ensures MissingMessage(f) == MissingPrefix + ReplaceAll(FieldKey(f), '_', ' ')
    ensures '_' !in MissingMessage(f)
  {
    KeyReplacedWhole(f);
    PrefixNoUnderscore();
    NoUnderscoreLeft(MissingPrefix, FieldKey(f));
  }

  lemma PrefixNoUnderscore()
    ensures '_' !in MissingPrefix
  {
  }

  /** Replacing every underscore of the key leaves none after a prefix without one. */
  lemma NoUnderscoreLeft(prefix: string, key: string)
    requires '_' !in prefix
    ensures '_' !in prefix + ReplaceAll(key, '_', ' ')
  {
    var m := prefix + ReplaceAll(key, '_', ' ');
    forall i | 0 <= i < |m| ensures m[i] != '_' {
      if i >= |prefix| {
        assert m[i] == ReplaceAll(key, '_', ' ')[i - |prefix|];
      } else {
        assert m[i] == prefix[i];
      }
    }
  }

  lemma KeyReplacedWhole(f: Field)
    ensures ReplaceFirst(FieldKey(f), '_', ' ') == ReplaceAll(FieldKey(f), '_', ' ')
  {
    var k := FieldKey(f);
    if f == FirstName {
      assert k == "first" + ['_'] + "name";
      ReplaceFirstIsAll("first", '_', ' ', "name");
    } else if f == LastName {
      assert k == "last" + ['_'] + "name";
      ReplaceFirstIsAll("last", '_', ' ', "name");
    } else if f == PhoneNumber {
      assert k == "phone" + ['_'] + "number";
      ReplaceFirstIsAll("phone", '_', ' ', "number");
    } else if f == IdType {
      assert k == "id" + ['_'] + "type";
      ReplaceFirstIsAll("id", '_', ' ', "type");
    } else if f == IdNumber {
      assert k == "id" + ['_'] + "number";
      ReplaceFirstIsAll("id", '_', ' ', "number");
    } else {
      assert '_' !in k;
      ReplaceFirstAbsent(k, '_', ' ');
    }
  }

  /** The passenger part of the ticket request. */
  datatype PassengerData = PassengerData(
    firstName: string, lastName: string, email: string, phoneNumber: string,
    idType: string, idNumber: string, birthdate: string,
    idDocument: string, areaCode: string)

  /** The body of the ticket creation request. */
  datatype TicketRequest = TicketRequest(
    ticketNumber: string, pnrNumber: string, seatNumber: string, extraBaggage: bool,
    checkinStatus: string, totalPrice: real, paidCash: real, paidPoints: int,
    flightInstance: int, flightClass: string, passengerData: PassengerData)

  /** `flight.id` is truthy. */
  predicate HasFlightId(f: FlightInfoPage.Flight) {
    f.id.Some? && f.id.value != 0
  }

  /** The class the ticket is booked in: the selected class when set, else Economy. */
  function BookedClass(f: FlightInfoPage.Flight): string {
    if f.selectedClass.Some? && f.selectedClass.value != [] then f.selectedClass.value else "Economy"
  }

  /**
   * The ticket request built from the flight and the passenger. `totalPrice` is the
   * parsed price; `ticketStamp` and `pnrStamp` are the clock readings the numbers are
   * made of.
   */
  function BuildRequest(f: FlightInfoPage.Flight, p: Passenger, totalPrice: real, ticketStamp: nat, pnrStamp: nat)
    : (r: TicketRequest)
    requires HasFlightId(f)
  {
    TicketRequest(
      "TK" + NatToString(ticketStamp), "PNR" + NatToString(pnrStamp), "A1", false,
      "not_checked_in", totalPrice, totalPrice, 0,
      f.id.value, BookedClass(f),
      PassengerData(p.firstName, p.lastName, p.email, p.phoneNumber, p.idType, p.idNumber, p.birthdate,
                    Upper(p.idType) + ": " + p.idNumber, "+1"))
  }

  /** The passenger record a request carries. */
  function PassengerOf(d: PassengerData): Passenger {
    Passenger(d.firstName, d.lastName, d.email, d.phoneNumber, d.idType, d.idNumber, d.birthdate)
  }

  /**
   * The request books the flight's instance in the chosen class (Economy when none is
   * chosen), paid in cash in full and not checked in; it carries the passenger
   * unchanged, and the document line is the upper-cased document type, ": " and the
   * document number.
   */
  lemma RequestProperties(f: FlightInfoPage.Flight, p: Passenger, total: real, t: nat, n: nat)
    requires HasFlightId(f)
    ensures var r := BuildRequest(f, p, total, t, n);
      && r.flightInstance == f.id.value && r.flightInstance != 0
      && r.flightClass == BookedClass(f) && r.flightClass != []
      && r.paidCash == r.totalPrice == total && r.paidPoints == 0
      && r.checkinStatus == "not_checked_in"
      && PassengerOf(r.passengerData) == p
      && |r.passengerData.idDocument| == |p.idType| + 2 + |p.idNumber|
      && r.passengerData.idDocument[|p.idType| + 2..] == p.idNumber
      && r.passengerData.idDocument[..|p.idType|] == Upper(p.idType)
      && r.passengerData.idDocument[|p.idType|..|p.idType| + 2] == ": "
      && r.ticketNumber[..2] == "TK" && ParseDigits(r.ticketNumber[2..]) == t
  {
    var r := BuildRequest(f, p, total, t, n);
    assert r.ticketNumber[2..] == NatToString(t);
    ParsePrinted(t);
  }

  /** The class chosen on the detail page is the class booked; a call without class books Economy. */
  lemma ChosenClassIsBooked(f: FlightInfoPage.Flight, c: Option<string>)
    ensures BookedClass(FlightInfoPage.Proceed(f, c)) == if c.Some? && c.value != [] then c.value else "Economy"
  {
  }

  const MissingFlightIdMessage := "Flight instance ID is missing. Please select a flight again."
  const PaymentFailedMessage := "Payment failed. Please try again."

  /** How the ticket creation request failed: the server's `detail` text, if any, and the error's message. */
  datatype Failure = Failure(detail: Option<string>, message: string)

  /** The error shown for a failed creation: the server's detail, else the message, else a generic text. */
  function FailureMessage(e: Failure): (m: string)
    ensures m != []
    ensures e.detail.Some? && e.detail.value != [] ==> m == e.detail.value
    ensures (e.detail.None? || e.detail.value == []) && e.message != [] ==> m == e.message
  {
    if e.detail.Some? && e.detail.value != [] then e.detail.value
    else if e.message != [] then e.message
    else PaymentFailedMessage
  }

  class Wizard {
    /** The flight handed over by the detail page. */
    const flight: FlightInfoPage.Flight

    var passenger: Passenger
    var cardName: string
    var cardNumber: string
    var expiry: string
    var cvc: string
    var processing: bool
    var error: string
    var success: bool
    /** 1: passenger details, 2: payment. */
    var currentStep: nat

    ghost predicate Valid()
      reads this
    {
      currentStep == 1 || currentStep == 2
    }

    constructor (flight: FlightInfoPage.Flight)
      ensures Valid() && currentStep == 1 && this.flight == flight
      ensures passenger == InitialPassenger
      ensures cardName == cardNumber == expiry == cvc == []
      ensures !processing && error == [] && !success
    {
      this.flight := flight;
      passenger := InitialPassenger;
      cardName, cardNumber, expiry, cvc := "", "", "", "";
      processing, error, success := false, "", false;
      currentStep := 1;
    }

    /** `handlePassengerChange`: one passenger field is replaced. */
    method PassengerChange(f: Field, v: string)
      modifies this`passenger
      ensures passenger == Set(old(passenger), f, v)
    {
      passenger := Set(passenger, f, v);
    }

    /** `validatePassengerInfo`: checks the required fields in order and reports the first empty one. */
    method ValidatePassengerInfo() returns (ok: bool)
      modifies this`error
      ensures ok <==> FirstMissing(passenger).None?
      ensures error == if ok then "" else MissingMessage(FirstMissing(passenger).value)
    {
      var i := 0;
      while i < |Required|
        invariant 0 <= i <= |Required|
        invariant forall j :: 0 <= j < i ==> Get(passenger, Required[j]) != []
      {
        if Get(passenger, Required[i]) == [] {
          error := MissingMessage(Required[i]);
          return false;
        }
        i := i + 1;
      }
      error := "";
      return true;
    }

    /** `handleNextStep`: step 2 only when validation passes. */
    method NextStep()
      requires Valid()
      modifies this`error, this`currentStep
      ensures Valid()
      ensures currentStep == if FirstMissing(passenger).None? then 2 else old(currentStep)
      ensures error == if FirstMissing(passenger).None? then "" else MissingMessage(FirstMissing(passenger).value)
    {
      var ok := ValidatePassengerInfo();
      if ok {
        currentStep := 2;
      }
    }

    /** The back button of step 2: step 1 again, with nothing entered lost. */
    method BackStep()
      modifies this`currentStep
      ensures Valid() && currentStep == 1
    {
      currentStep := 1;
    }

    /** The card inputs. */
    method SetCard(name: string, number: string, exp: string, code: string)
      modifies this`cardName, this`cardNumber, this`expiry, this`cvc
      ensures cardName == name && cardNumber == number && expiry == exp && cvc == code
    {
      cardName, cardNumber, expiry, cvc := name, number, exp, code;
    }

    /** The browser submits the card form only when every card input is filled and the button is enabled. */
    predicate CanSubmit()
      reads this
    {
      !processing && cardName != [] && cardNumber != [] && expiry != [] && cvc != []
    }

    /**
     * `handleSubmit` up to the request: nothing happens when the browser does not submit;
     * otherwise processing starts, and without a flight id it stops at once with an error
     * and no request. The request sent, if any, is returned.
     */
    method BeginSubmit(totalPrice: real, ticketStamp: nat, pnrStamp: nat) returns (sent: Option<TicketRequest>)
      modifies this`processing, this`error
      ensures !old(CanSubmit()) ==> sent.None? && processing == old(processing) && error == old(error)
      ensures old(CanSubmit()) && !HasFlightId(flight) ==>
                sent.None? && !processing && error == MissingFlightIdMessage
      ensures old(CanSubmit()) && HasFlightId(flight) ==>
                sent == Some(BuildRequest(flight, passenger, totalPrice, ticketStamp, pnrStamp))
                && processing && error == []
    {
      if !CanSubmit() {
        return None;
      }
      processing := true;
      error := "";
      if !HasFlightId(flight) {
        error := MissingFlightIdMessage;
        processing := false;
        return None;
      }
      sent := Some(BuildRequest(flight, passenger, totalPrice, ticketStamp, pnrStamp));
    }

    /** The ticket request ends: success is shown, or the failure's message; processing stops either way. */
    method FinishSubmit(outcome: Option<Failure>)
      modifies this`processing, this`error, this`success
      ensures !processing
      ensures outcome.None? ==> success && error == old(error)
      ensures outcome.Some? ==> success == old(success) && error == FailureMessage(outcome.value)
    {
      if outcome.None? {
        success := true;
      } else {
        error := FailureMessage(outcome.value);
      }
      processing := false;
    }
  }
}
