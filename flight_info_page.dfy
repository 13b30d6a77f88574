/**
 * The flight detail page: choosing a class fixes the price the booking uses; the
 * duration in minutes and the seat count are shown.
 */
module FlightInfoPage {
  import opened Common
  import opened Text

  /** A price as the server sends it; it is copied, never computed with, on this page. */
  type Price = string

  /** The flight record passed from the detail page to the payment page. */
  datatype Flight = Flight(
    id: Option<int>,
    economyPrice: Option<Price>,
    businessPrice: Option<Price>,
    firstPrice: Option<Price>,
    durationMinutes: Option<int>,
    seatsBusiness: Option<int>,
    seatsEconomy: Option<int>,
    selectedClass: Option<string>,
    selectedPrice: Option<Price>)

  /**
   * `handleProceed(selectedClass = 'Economy')`: the flight with the chosen class and the
   * price of that class; a class other than Economy and Business takes the first-class price.
   * `None` stands for a call without argument.
   */
  function Proceed(f: Flight, selectedClass: Option<string>): (r: Flight)
    ensures r.selectedClass == Some(selectedClass.GetOr("Economy"))
    ensures selectedClass.GetOr("Economy") == "Economy" ==> r.selectedPrice == f.economyPrice
    ensures selectedClass.GetOr("Economy") == "Business" ==> r.selectedPrice == f.businessPrice
    ensures selectedClass.GetOr("Economy") !in {"Economy", "Business"} ==> r.selectedPrice == f.firstPrice
    ensures r.(selectedClass := f.selectedClass, selectedPrice := f.selectedPrice) == f
  {
    var c := selectedClass.GetOr("Economy");
    f.(selectedClass := Some(c),
       selectedPrice := if c == "Economy" then f.economyPrice
                        else if c == "Business" then f.businessPrice
                        else f.firstPrice)
  }

  /** Choosing a class twice is choosing the second one. */
  lemma ProceedTwice(f: Flight, c1: Option<string>, c2: Option<string>)
    ensures Proceed(Proceed(f, c1), c2) == Proceed(f, c2)
  {
  }

  /** JavaScript's `%` on integers: the remainder takes the sign of the dividend. */
  function JsRem(a: int, b: int): (r: int)
    requires b > 0
    ensures -b < r < b
    ensures a >= 0 ==> r >= 0
    ensures a <= 0 ==> r <= 0
  {
    if a >= 0 then a % b else -((-a) % b)
  }

  /** `Math.floor(d / 60)` and `d % 60`. */
  function DurationParts(d: int): (r: (int, int))
  {
    (d / 60, JsRem(d, 60))
  }

  /** For a non-negative duration the parts are whole hours and the minutes left over. */
  lemma DurationPartsNonNegative(d: int)
    requires d >= 0
    ensures 0 <= DurationParts(d).1 < 60
    ensures DurationParts(d).0 * 60 + DurationParts(d).1 == d
  {
  }

  /**
   * For a negative duration that is not a whole number of hours the floor and the
   * truncating remainder disagree: the parts add up to one hour less than the duration.
   */
  lemma DurationPartsNegative(d: int)
    requires d < 0 && d % 60 != 0
    ensures DurationParts(d).0 * 60 + DurationParts(d).1 == d - 60
  {
    var q := (-d) / 60;
    var m := (-d) % 60;
    assert -d == q * 60 + m && 0 < m < 60;
    assert d == (-q - 1) * 60 + (60 - m);
    assert d / 60 == -q - 1;
  }

  /** `formatDuration`: "N/A" for a missing or zero duration, otherwise "<hours>h <minutes>m". */
  function FormatDuration(d: Option<int>): (r: string)
    ensures d.None? || d == Some(0) ==> r == "N/A"
  {
    if d.None? || d.value == 0 then "N/A"
    else
      var parts := DurationParts(d.value);
      IntToString(parts.0) + "h " + IntToString(parts.1) + "m"
  }

  /** A positive duration is shown as hours and minutes under an hour that add up to it. */
  lemma FormatDurationPositive(d: int)
    requires d > 0
    ensures exists h: nat, m: nat :: m < 60 && h * 60 + m == d
              && FormatDuration(Some(d)) == NatToString(h) + "h " + NatToString(m) + "m"
  {
    DurationPartsNonNegative(d);
    var h: nat, m: nat := d / 60, d % 60;
    assert FormatDuration(Some(d)) == NatToString(h) + "h " + NatToString(m) + "m";
  }

  /** The aircraft's seat count: business plus economy, a missing count counting as zero. */
  function TotalSeats(f: Flight): (r: int)
    ensures f.seatsBusiness.None? ==> r == f.seatsEconomy.GetOr(0)
    ensures f.seatsEconomy.None? ==> r == f.seatsBusiness.GetOr(0)
    ensures f.seatsBusiness.Some? && f.seatsEconomy.Some? ==> r == f.seatsBusiness.value + f.seatsEconomy.value
  {
    f.seatsBusiness.GetOr(0) + f.seatsEconomy.GetOr(0)
  }
}
