/**
 * The booking record of the airline reservation system: class `Ticket` in main.cpp.
 *
 * A ticket is set up once by its constructor, which copies its six arguments into
 * six private fields, and is only ever read afterwards, through `const` accessors.
 * Nothing in the class updates a field, so the record is a value: it is modelled as
 * a datatype whose constructor takes the C++ constructor's parameters in the same
 * order, and whose member functions are the accessors.
 */
module Tickets {
  import opened Wrappers

  /** The C++ `int` used for the booking ID and the price: 32-bit two's complement. */
  newtype Int32 = x: int | -0x8000_0000 <= x < 0x8000_0000

  /**
   * One confirmed booking. The constructor validates nothing: any ID, any price and
   * any strings (empty ones included) make a ticket.
   */
  datatype Ticket = Ticket(id: Int32, d: string, flight: string, seat: string, name: string, price: Int32)
  {
    function BookingID(): Int32 { id }

    function Date(): string { d }

    /**
     * The flight number, one space, then the date. The C++ accessor returns this
     * temporary by `const` reference, which dangles once the call returns; the model
     * gives the value the expression computes.
     */
    function FlightInfo(): (info: string)
      ensures |info| == |flight| + 1 + |d|
      ensures info[..|flight|] == flight
      ensures info[|flight|] == ' '
      ensures info[|flight| + 1..] == d
    {
      flight + " " + d
    }

    function SeatNumber(): string { seat }

    function PassengerName(): string { name }

    function TicketPrice(): Int32 { price }
  }

  /** Every accessor gives back exactly what the constructor received; no precondition. */
  lemma ConstructThenRead(id: Int32, d: string, flight: string, seat: string, name: string, price: Int32)
    ensures var t := Ticket(id, d, flight, seat, name, price);
      && t.BookingID() == id
      && t.Date() == d
      && t.SeatNumber() == seat
      && t.PassengerName() == name
      && t.TicketPrice() == price
      && t.FlightInfo() == flight + " " + d
  {
  }

  /** True when every accessor of `t` and of `u` agrees. */
  predicate SameReadings(t: Ticket, u: Ticket)
  {
    && t.BookingID() == u.BookingID()
    && t.Date() == u.Date()
    && t.FlightInfo() == u.FlightInfo()
    && t.SeatNumber() == u.SeatNumber()
    && t.PassengerName() == u.PassengerName()
    && t.TicketPrice() == u.TicketPrice()
  }

  /**
   * A ticket is determined by its constructor arguments and shows all of them:
   * two tickets read the same through every accessor exactly when they are equal.
   */
  lemma ReadingsDetermineTicket(t: Ticket, u: Ticket)
    ensures SameReadings(t, u) <==> t == u
  {
  }

  /** The index of the first space in `s`, or `|s|` when `s` holds no space. */
  function FirstSpace(s: string): (k: nat)
    ensures k <= |s|
    ensures forall j :: 0 <= j < k ==> s[j] != ' '
    ensures k < |s| ==> s[k] == ' '
  {
    if s == [] || s[0] == ' ' then 0 else FirstSpace(s[1..]) + 1
  }

  /**
   * Splits a flight-info string back into flight number and date at its first space;
   * None when the string holds no space.
   */
  function SplitFlightInfo(info: string): (r: Option<(string, string)>)
    ensures r.None? <==> ' ' !in info
    ensures r.Some? ==> ' ' !in r.value.0 && info == r.value.0 + " " + r.value.1
  {
    var k := FirstSpace(info);
    if k == |info| then
      assert info[..k] == info;
      None
    else
      assert info == info[..k] + " " + info[k + 1..];
      Some((info[..k], info[k + 1..]))
  }

  /** In a flight number without spaces, the separator is the first space of the flight info. */
  lemma {:induction false} SeparatorIsFirstSpace(flight: string, rest: string)
    requires ' ' !in flight
    ensures FirstSpace(flight + " " + rest) == |flight|
  {
    if flight != [] {
      assert (flight + " " + rest)[1..] == flight[1..] + " " + rest;
      assert flight[0] in flight;
      SeparatorIsFirstSpace(flight[1..], rest);
    }
  }

  /** Splitting the flight info at its first space recovers flight number and date. */
  lemma SplitRoundTrip(t: Ticket)
    requires ' ' !in t.flight
    ensures SplitFlightInfo(t.FlightInfo()) == Some((t.flight, t.d))
  {
    SeparatorIsFirstSpace(t.flight, t.d);
  }

  /**
   * Both directions: `info` splits into this ticket's flight number and date exactly
   * when it is this ticket's flight info and the flight number has no space.
   */
  lemma FlightInfoSplitsIff(t: Ticket, info: string)
    ensures SplitFlightInfo(info) == Some((t.flight, t.d)) <==> (' ' !in t.flight && t.FlightInfo() == info)
  {
    if ' ' !in t.flight && t.FlightInfo() == info {
      SplitRoundTrip(t);
    }
  }

  /** With space-free flight numbers, equal flight info means equal flight number and date. */
  lemma FlightInfoInjective(t: Ticket, u: Ticket)
    requires ' ' !in t.flight && ' ' !in u.flight
    requires t.FlightInfo() == u.FlightInfo()
    ensures t.flight == u.flight && t.d == u.d
  {
    SplitRoundTrip(t);
    SplitRoundTrip(u);
  }

  /**
   * The space-free condition is needed: flight "AA 1" on "2024-05-01" and flight "AA"
   * on "1 2024-05-01" give the same flight info.
   */
  lemma SpaceInFlightNumberIsAmbiguous()
    ensures var t := Ticket(1, "2024-05-01", "AA 1", "3C", "alice", 500);
      var u := Ticket(1, "1 2024-05-01", "AA", "3C", "alice", 500);
      t.FlightInfo() == u.FlightInfo() && t.flight != u.flight
      && SplitFlightInfo(t.FlightInfo()) == Some(("AA", "1 2024-05-01"))
  {
    SeparatorIsFirstSpace("AA", "1 2024-05-01");
    assert "AA 1" + " " + "2024-05-01" == "AA" + " " + "1 2024-05-01";
  }
}
