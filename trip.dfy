/** The seat state of a trip, owned by the trip service: the two lists the
    controller reads from a trip response and writes back when it confirms a seat. */
module Trip {
  import Seqs

  /** A trip response body, reduced to its seat lists. */
  datatype TripSeats = TripSeats(availableSeats: seq<int>, confirmedSeats: seq<int>)

  function IsNot(seat: int): int -> bool {
    x => x != seat
  }

  /** `seats.filter(s => s !== seat)`: every other seat, in its original order. */
  function Without(seats: seq<int>, seat: int): (r: seq<int>)
    ensures seat !in r
    ensures forall x :: x in r <==> x in seats && x != seat
  {
    Seqs.Filter(seats, IsNot(seat))
  }

  /** Removing a seat keeps the order of the others: it distributes over concatenation. */
  lemma WithoutAppend(s: seq<int>, t: seq<int>, seat: int)
    ensures Without(s + t, seat) == Without(s, seat) + Without(t, seat)
  {
    Seqs.FilterAppend(s, t, IsNot(seat));
  }

  /** Removing a seat that is not listed leaves the list as it was. */
  lemma WithoutAbsent(s: seq<int>, seat: int)
    requires seat !in s
    ensures Without(s, seat) == s
  {
    Seqs.FilterAll(s, IsNot(seat));
  }

  /** The trip after confirming `seat`: pushed onto the confirmed seats, filtered out
      of the available ones. */
  function ConfirmSeatIn(t: TripSeats, seat: int): (r: TripSeats)
    ensures seat !in r.availableSeats && seat in r.confirmedSeats
    ensures forall x :: x in r.availableSeats <==> x in t.availableSeats && x != seat
    ensures r.confirmedSeats == t.confirmedSeats + [seat]
  {
    TripSeats(Without(t.availableSeats, seat), t.confirmedSeats + [seat])
  }

  /** No seat is both available and confirmed. */
  predicate Disjoint(t: TripSeats) {
    forall x :: x in t.availableSeats ==> x !in t.confirmedSeats
  }

  /** All seats the trip knows about, available or confirmed. */
  function Seats(t: TripSeats): set<int> {
    (set x | x in t.availableSeats) + (set x | x in t.confirmedSeats)
  }

  /** Confirming an available seat moves it from one list to the other: the two lists
      stay disjoint and together still hold exactly the same seats. */
  lemma ConfirmKeepsPartition(t: TripSeats, seat: int)
    requires Disjoint(t) && seat in t.availableSeats
    ensures Disjoint(ConfirmSeatIn(t, seat))
    ensures Seats(ConfirmSeatIn(t, seat)) == Seats(t)
  {
    var r := ConfirmSeatIn(t, seat);
    assert forall x :: x in r.confirmedSeats <==> x in t.confirmedSeats || x == seat;
  }

  /** The trip object axios parses from a response body; the controller edits its
      two lists in place before sending it back. */
  class TripData {
    var availableSeats: seq<int>
    var confirmedSeats: seq<int>

    constructor FromBody(body: TripSeats)
      ensures Body() == body
    {
      availableSeats := body.availableSeats;
      confirmedSeats := body.confirmedSeats;
    }

    /** The object as a request body. */
    function Body(): TripSeats
      reads this
    {
      TripSeats(availableSeats, confirmedSeats)
    }

    /** `confirmedSeats.push(seat)`, then `availableSeats = availableSeats.filter(...)`. */
    method ConfirmSeat(seat: int)
      modifies this
      ensures Body() == ConfirmSeatIn(old(Body()), seat)
    {
      confirmedSeats := confirmedSeats + [seat];
      availableSeats := Without(availableSeats, seat);
    }
  }
}
