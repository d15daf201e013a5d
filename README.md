# Ticket: the booking record of the airline reservation system

This project models class `Ticket` of `main.cpp`, the record of one confirmed booking. It holds
a booking ID, a date, a flight number, a seat number, a passenger name and a price. Its
constructor copies its six arguments into private fields and validates nothing. Its `const`
accessors read them back. One accessor derives a value: the flight info is the flight number,
one space, then the date.

No member of the class updates a field after construction. So the Dafny model is a datatype
`Tickets.Ticket`, a value that cannot change. Its constructor takes the C++ constructor's
parameters in the same order (`id`, `d`, `flight`, `seat`, `name`, `price`). Its member
functions `BookingID`, `Date`, `FlightInfo`, `SeatNumber`, `PassengerName` and `TicketPrice`
are the accessors. Dafny functions have no side effects, so calling accessors in any order
leaves the ticket as it was. The C++ `int` fields use the newtype `Tickets.Int32` (32-bit two's
complement), and the constructor accepts every value of it.

The flight info has a partner, `SplitFlightInfo`, which splits a string at its first space. The
lemmas show that the split recovers flight number and date whenever the flight number holds no
space, and a concrete pair of tickets shows why that condition is needed.

## Model

| member | source | states |
|---|---|---|
| Tickets.ConstructThenRead | main.cpp:15-40 | for any arguments, with no precondition, each accessor of the constructed ticket returns exactly the argument it stores, and the flight info is built from flight number and date |
| Tickets.ReadingsDetermineTicket | main.cpp:15-40 | two tickets agree on every accessor exactly when they are equal, so a ticket is fixed by its constructor arguments and equal arguments give equal readings |
| Tickets.Ticket.FlightInfo | main.cpp:26-28 | the flight info has length of flight number plus one plus length of date, starts with the flight number, has a space at index length of flight number, and ends with the date |
| Tickets.FirstSpace | main.cpp:27 | yields the index of the first space (a space there, none before it), or the string's length exactly when the string has no space |
| Tickets.SplitFlightInfo | main.cpp:27 | None exactly when the string has no space; otherwise a space-free head and a tail that rebuild the string around one space |
| Tickets.SeparatorIsFirstSpace | main.cpp:27 | when the flight number has no space, the separator added by the flight info is its first space |
| Tickets.SplitRoundTrip | main.cpp:26-28 | splitting a ticket's flight info at the first space gives back its flight number and date when the flight number has no space |
| Tickets.FlightInfoSplitsIff | main.cpp:26-28 | a string splits into a ticket's flight number and date if and only if it is that ticket's flight info and the flight number has no space |
| Tickets.FlightInfoInjective | main.cpp:26-28 | with space-free flight numbers, equal flight info implies equal flight number and equal date |
| Tickets.SpaceInFlightNumberIsAmbiguous | main.cpp:26-28 | flight "AA 1" on "2024-05-01" and flight "AA" on "1 2024-05-01" give the same flight info, and the split returns the second reading |

## Left out

- The reservation engine, seat map, price table, configuration reader and command loop: none of them is in `main.cpp`, which holds only class `Ticket`; they are not part of this model.
- Tickets.Ticket.FlightInfo: the C++ accessor returns a `const std::string&` bound to a temporary, a dangling reference whose use is undefined behaviour; the model gives only the value `flightNo + " " + date` computes.
- Memory layout, copying and allocation of `std::string`: strings are Dafny `string` (a sequence of characters).
- The C++ object's identity and lifetime (construction and destruction of instances): the ticket is a value.
