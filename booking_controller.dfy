/** The request handlers of `src/controllers/bookingController.js`, with every call
    to another service replaced by its outcome, given as a parameter. */
module BookingController {
  import opened Wrappers
  import opened BookingModel
  import opened BookingStore
  import opened Trip
  import ParseInt

  /** An HTTP call made with axios: it either throws (a network error, or a response
      outside 2xx, which axios rejects) or resolves with a status and a body. */
  datatype Fetched<T> = Thrown | Resp(status: int, data: T)

  /** Whether awaiting the call throws. */
  predicate Rejects<T>(r: Fetched<T>) {
    r.Thrown? || !(200 <= r.status < 300)
  }

  /** The body of a route-service response, as far as the controller reads it. */
  datatype RouteData = RouteData(startLocation: Option<string>, endLocation: Option<string>)

  /** The body of a schedule-service response. */
  datatype ScheduleData = ScheduleData(
    tripNumber: Option<string>, tripDate: Option<string>,
    departureTime: Option<string>, arrivalTime: Option<string>)

  /** The body of a permit-service response. */
  datatype PermitData = PermitData(
    vehicleNumber: Option<string>, busType: Option<string>, pricePerSeat: Option<int>,
    music: Option<bool>, ac: Option<bool>)

  /** The four responses `createBooking` awaits together. */
  datatype Upstream = Upstream(
    route: Fetched<RouteData>, schedule: Fetched<ScheduleData>,
    permit: Fetched<PermitData>, trip: Fetched<TripSeats>)

  /** The body of a booking request; an absent or `null` field is None. */
  datatype Request = Request(
    bookingId: Option<int>, commuterId: Option<int>, commuterName: Option<string>,
    commuterEmail: Option<string>, nic: Option<string>, seatNumber: Option<string>,
    routeNumber: Option<string>, tripId: Option<int>, scheduleId: Option<int>,
    permitNumber: Option<string>)

  /** JavaScript truthiness of a number and of a string: absent, 0 and "" are falsy. */
  predicate TruthyNum(v: Option<int>) { v.Some? && v.value != 0 }
  predicate TruthyStr(v: Option<string>) { v.Some? && v.value != "" }

  /** The request passes the handler's first check: every field it names is truthy. */
  predicate HasRequiredFields(req: Request) {
    TruthyNum(req.bookingId) && TruthyNum(req.commuterId) && TruthyStr(req.commuterName) &&
    TruthyStr(req.commuterEmail) && TruthyStr(req.nic) && TruthyStr(req.seatNumber) &&
    TruthyStr(req.routeNumber) && TruthyNum(req.tripId) && TruthyNum(req.scheduleId) &&
    TruthyStr(req.permitNumber)
  }

  /** Every upstream call resolved with status 200. */
  predicate AllOk(up: Upstream) {
    up.route.Resp? && up.route.status == 200 && up.schedule.Resp? && up.schedule.status == 200 &&
    up.permit.Resp? && up.permit.status == 200 && up.trip.Resp? && up.trip.status == 200
  }

  /** `availableSeats.includes(seat)`. A NaN seat (None) is never included: the
      seat list comes from a JSON body, and JSON has no NaN. */
  predicate SeatAvailable(seat: Option<int>, seats: seq<int>) {
    seat.Some? && seat.value in seats
  }

  /** The status and `message` of a response. */
  datatype Reply = Reply(status: int, message: string)

  const RequiredFieldsMissing := Reply(400, "Required fields missing")
  const SeatNotAvailable := Reply(400, "Seat not available for booking")
  const ServerError := Reply(500, "Server error")
  const BookingCreated := Reply(201, "Booking created successfully")
  const BookingIdRequired := Reply(400, "Booking ID is required")
  const BookingNotFound := Reply(404, "Booking not found")
  const AlreadySuccess := Reply(400, "Payment status is already SUCCESS")
  const TripNotFound := Reply(404, "Trip not found")
  const PaymentConfirmed := Reply(200, "Payment successful and booking confirmed")
  const NicNotFound := Reply(404, "Booking not found for this NIC")
  const NoTripBookings := Reply(404, "No bookings found for this tripId")

  /** The draft carries the request's fields verbatim and the snapshot fields of the
      route, schedule and permit bodies. */
  predicate Snapshot(d: Draft, req: Request, route: RouteData, schedule: ScheduleData, permit: PermitData) {
    && d.bookingId == req.bookingId && d.commuterId == req.commuterId
    && d.commuterName == req.commuterName && d.commuterEmail == req.commuterEmail
    && d.nic == req.nic && d.seatNumber == req.seatNumber && d.routeNumber == req.routeNumber
    && d.tripId == req.tripId && d.scheduleId == req.scheduleId && d.permitNumber == req.permitNumber
    && d.tripNumber == schedule.tripNumber && d.tripDate == schedule.tripDate
    && d.departureTime == schedule.departureTime && d.arrivalTime == schedule.arrivalTime
    && d.startLocation == route.startLocation && d.endLocation == route.endLocation
    && d.vehicleNumber == permit.vehicleNumber && d.busType == permit.busType
    && d.pricePerSeat == permit.pricePerSeat && d.music == permit.music && d.ac == permit.ac
  }

  /** The upstream bodies supply every field the schema requires of the snapshot. */
  predicate SnapshotComplete(up: Upstream)
    requires AllOk(up)
  {
    && HasText(up.route.data.startLocation) && HasText(up.route.data.endLocation)
    && HasText(up.schedule.data.tripNumber) && HasText(up.schedule.data.tripDate)
    && HasText(up.schedule.data.departureTime) && HasText(up.schedule.data.arrivalTime)
    && HasText(up.permit.data.vehicleNumber) && HasText(up.permit.data.busType)
    && up.permit.data.pricePerSeat.Some? && up.permit.data.music.Some? && up.permit.data.ac.Some?
  }

  /** `createBooking` up to the `save()`: the field check, the four upstream calls,
      the seat check, and the document it then constructs. */
  function PrepareBooking(req: Request, up: Upstream): (r: Result<Draft, Reply>)
    ensures !HasRequiredFields(req) ==> r == Failure(RequiredFieldsMissing)
    ensures HasRequiredFields(req) && !AllOk(up) ==> r == Failure(ServerError)
    ensures HasRequiredFields(req) && AllOk(up) &&
            !SeatAvailable(ParseInt.Parse(req.seatNumber.value), up.trip.data.availableSeats)
            ==> r == Failure(SeatNotAvailable)
    ensures r.Success? <==>
            (HasRequiredFields(req) && AllOk(up) &&
             SeatAvailable(ParseInt.Parse(req.seatNumber.value), up.trip.data.availableSeats))
    ensures r.Success? ==>
            Snapshot(r.value, req, up.route.data, up.schedule.data, up.permit.data) &&
            r.value.paymentStatus == Some(PENDING) && r.value.createdAt == None
  {
    if !HasRequiredFields(req) then Failure(RequiredFieldsMissing)
    // Promise.all rejects as soon as one call throws
    else if Rejects(up.route) || Rejects(up.schedule) || Rejects(up.permit) || Rejects(up.trip) then
      Failure(ServerError)
    // a resolved call with another 2xx status makes the handler throw
    else if up.route.status != 200 || up.schedule.status != 200 ||
            up.permit.status != 200 || up.trip.status != 200 then
      Failure(ServerError)
    else if !SeatAvailable(ParseInt.Parse(req.seatNumber.value), up.trip.data.availableSeats) then
      Failure(SeatNotAvailable)
    else
      var route, schedule, permit := up.route.data, up.schedule.data, up.permit.data;
      Success(Draft(
        req.bookingId, None, req.commuterId, req.commuterName, req.commuterEmail, req.nic,
        req.seatNumber, req.routeNumber, req.tripId, schedule.tripNumber, schedule.tripDate,
        route.startLocation, route.endLocation, req.scheduleId, schedule.departureTime,
        schedule.arrivalTime, req.permitNumber, permit.vehicleNumber, permit.busType,
        permit.pricePerSeat, permit.music, permit.ac, Some(PENDING)))
  }

  /** A handler's reply together with the store it leaves behind. */
  datatype Outcome = Outcome(reply: Reply, records: seq<Booking>)

  /** What `createBooking` does to the store, given the upstream responses and the
      current time. */
  function CreateTransition(records: seq<Booking>, req: Request, up: Upstream, now: int): (o: Outcome)
    ensures o.reply != BookingCreated ==> o.records == records
    ensures o.reply == BookingCreated ==>
            |o.records| == |records| + 1 && o.records[..|records|] == records
    ensures o.reply == BookingCreated ==>
            var b := o.records[|records|];
            && AllOk(up)
            && Snapshot(ToDraft(b), req, up.route.data, up.schedule.data, up.permit.data)
            && b.paymentStatus == PENDING && b.createdAt == now && Conforms(b)
            && SeatAvailable(ParseInt.Parse(b.seatNumber), up.trip.data.availableSeats)
    ensures PrepareBooking(req, up).Failure? ==> o.reply == PrepareBooking(req, up).error
    ensures PrepareBooking(req, up).Success? ==>
            (o.reply == BookingCreated <==> SnapshotComplete(up)) &&
            (o.reply == ServerError <==> !SnapshotComplete(up))
    ensures (HasRequiredFields(req) && AllOk(up) &&
             SeatAvailable(ParseInt.Parse(req.seatNumber.value), up.trip.data.availableSeats) &&
             SnapshotComplete(up)) ==> o.reply == BookingCreated
    ensures o.reply in {RequiredFieldsMissing, ServerError, SeatNotAvailable, BookingCreated}
  {
    match PrepareBooking(req, up)
    case Failure(e) => Outcome(e, records)
    case Success(d) =>
      match Validate(d, now)
      case None => Outcome(ServerError, records)
      case Some(b) => Outcome(BookingCreated, records + [b])
  }

  /** Whether a booking was created does not depend on what the store already holds:
      in particular, an existing `bookingId` does not stop a second booking. */
  lemma CreateIgnoresStore(records: seq<Booking>, others: seq<Booking>, req: Request, up: Upstream, now: int)
    ensures CreateTransition(records, req, up, now).reply == CreateTransition(others, req, up, now).reply
  {
  }

  /** After a booking is created, a later booking with the same `bookingId` is stored
      but stays invisible to `findOne({ bookingId })`. */
  lemma CreateDuplicateShadowed(records: seq<Booking>, req: Request, up: Upstream, now: int)
    requires req.bookingId.Some?
    requires IndexOfBookingId(records, req.bookingId.value).Some?
    ensures var o := CreateTransition(records, req, up, now);
            IndexOfBookingId(o.records, req.bookingId.value) == IndexOfBookingId(records, req.bookingId.value)
  {
    var o := CreateTransition(records, req, up, now);
    if o.reply == BookingCreated {
      var b := o.records[|records|];
      assert o.records == records + [b];
      DuplicateBookingIdShadowed(records, b);
    }
  }

  /** A created booking is listed last among the bookings of its trip. */
  lemma CreatedListedLast(records: seq<Booking>, req: Request, up: Upstream, now: int)
    requires CreateTransition(records, req, up, now).reply == BookingCreated
    ensures var o := CreateTransition(records, req, up, now);
            var b := o.records[|records|];
            GetBookingsByTripId(o.records, b.tripId) == Success(WithTripId(records, b.tripId) + [b])
  {
    var o := CreateTransition(records, req, up, now);
    var b := o.records[|records|];
    assert o.records == records + [b];
    WithTripIdAppend(records, b);
  }

  /** The `createBooking` handler. */
  method CreateBooking(store: Store, req: Request, up: Upstream, now: int) returns (reply: Reply)
    modifies store
    ensures Outcome(reply, store.records) == CreateTransition(old(store.records), req, up, now)
    ensures old(store.Valid()) ==> store.Valid()
  {
    var prepared := PrepareBooking(req, up);
    if prepared.Failure? {
      reply := prepared.error;
      return;
    }
    var saved := store.Insert(prepared.value, now);
    reply := if saved.Some? then BookingCreated else ServerError;
  }

  /** A handler's reply, the store it leaves behind and the trip body it sent with
      its PUT, if it sent one. */
  datatype Payment = Payment(reply: Reply, records: seq<Booking>, sent: Option<TripSeats>)

  /** The booking `updatePaymentStatus` acts on: the first one with that id, when the
      id is truthy. */
  function Target(records: seq<Booking>, bookingId: Option<int>): Option<nat> {
    if TruthyNum(bookingId) then IndexOfBookingId(records, bookingId.value) else None
  }

  /** The seat index of a booking, as `parseInt(booking.seatNumber)`. */
  function SeatOf(b: Booking): Option<int> {
    ParseInt.Parse(b.seatNumber)
  }

  /** The id names a stored booking that is still PENDING. */
  predicate Pending(records: seq<Booking>, bookingId: Option<int>) {
    Target(records, bookingId).Some? && records[Target(records, bookingId).value].paymentStatus == PENDING
  }

  /** The handler reaches its PUT: the booking is PENDING, the trip answered 200 and
      lists the booking's seat as available. */
  predicate Confirmable(records: seq<Booking>, bookingId: Option<int>, trip: Fetched<TripSeats>) {
    Pending(records, bookingId) && trip.Resp? && trip.status == 200 &&
    SeatAvailable(SeatOf(records[Target(records, bookingId).value]), trip.data.availableSeats)
  }

  /** What `updatePaymentStatus` does, given the trip GET and PUT outcomes. */
  function PaymentTransition(records: seq<Booking>, bookingId: Option<int>,
                             trip: Fetched<TripSeats>, put: Fetched<()>): (o: Payment)
    ensures !TruthyNum(bookingId) ==> o == Payment(BookingIdRequired, records, None)
    ensures TruthyNum(bookingId) && Target(records, bookingId).None? ==>
            o == Payment(BookingNotFound, records, None)
    ensures Target(records, bookingId).Some? &&
            records[Target(records, bookingId).value].paymentStatus == SUCCESS ==>
            o == Payment(AlreadySuccess, records, None)
    ensures Pending(records, bookingId) && Rejects(trip) ==> o == Payment(ServerError, records, None)
    ensures Pending(records, bookingId) && !Rejects(trip) && trip.status != 200 ==>
            o == Payment(TripNotFound, records, None)
    ensures Pending(records, bookingId) && trip.Resp? && trip.status == 200 &&
            !SeatAvailable(SeatOf(records[Target(records, bookingId).value]), trip.data.availableSeats) ==>
            o == Payment(SeatNotAvailable, records, None)
    ensures o.reply != PaymentConfirmed ==> o.records == records
    ensures o.sent.Some? <==> Confirmable(records, bookingId, trip)
    ensures o.sent.Some? ==>
            o.sent.value == ConfirmSeatIn(trip.data, SeatOf(records[Target(records, bookingId).value]).value)
    ensures Confirmable(records, bookingId, trip) && Rejects(put) ==>
            o.reply == ServerError && o.records == records
    ensures Confirmable(records, bookingId, trip) && !Rejects(put) ==>
            (o.reply == PaymentConfirmed <==> Conforms(records[Target(records, bookingId).value])) &&
            (o.reply == PaymentConfirmed || o.reply == ServerError)
    ensures o.reply in {BookingIdRequired, BookingNotFound, AlreadySuccess, ServerError,
                        TripNotFound, SeatNotAvailable, PaymentConfirmed}
    ensures o.reply == PaymentConfirmed ==>
            && o.sent.Some? && !Rejects(put)
            && var i := Target(records, bookingId).value;
            && o.records == records[i := records[i].(paymentStatus := SUCCESS)]
  {
    match Target(records, bookingId)
    case None =>
      Payment(if TruthyNum(bookingId) then BookingNotFound else BookingIdRequired, records, None)
    case Some(i) =>
      var booking := records[i];
      if booking.paymentStatus == SUCCESS then Payment(AlreadySuccess, records, None)
      else if Rejects(trip) then Payment(ServerError, records, None)
      else if trip.status != 200 then Payment(TripNotFound, records, None)
      else if !SeatAvailable(SeatOf(booking), trip.data.availableSeats) then
        Payment(SeatNotAvailable, records, None)
      else
        var sent := ConfirmSeatIn(trip.data, SeatOf(booking).value);
        var confirmed := booking.(paymentStatus := SUCCESS);
        if Rejects(put) || !Conforms(confirmed) then Payment(ServerError, records, Some(sent))
        else Payment(PaymentConfirmed, records[i := confirmed], Some(sent))
  }

  /** The `updatePaymentStatus` handler. The booking is marked SUCCESS in memory first,
      but that copy reaches the store only after the trip was written back. */
  method UpdatePaymentStatus(store: Store, bookingId: Option<int>,
                             tripResponse: Fetched<TripSeats>, putResponse: Fetched<()>)
    returns (reply: Reply, sent: Option<TripSeats>)
    modifies store
    ensures Payment(reply, store.records, sent) ==
            PaymentTransition(old(store.records), bookingId, tripResponse, putResponse)
    ensures old(store.Valid()) ==> store.Valid()
  {
    sent := None;
    if !TruthyNum(bookingId) {
      reply := BookingIdRequired;
      return;
    }
    var found := IndexOfBookingId(store.records, bookingId.value);
    if found.None? {
      reply := BookingNotFound;
      return;
    }
    var i := found.value;
    var booking := store.records[i];
    if booking.paymentStatus == SUCCESS {
      reply := AlreadySuccess;
      return;
    }
    booking := booking.(paymentStatus := SUCCESS);
    if Rejects(tripResponse) {
      reply := ServerError;
      return;
    }
    if tripResponse.status != 200 {
      reply := TripNotFound;
      return;
    }
    var tripData := new TripData.FromBody(tripResponse.data);
    var seat := ParseInt.Parse(booking.seatNumber);
    if SeatAvailable(seat, tripData.availableSeats) {
      tripData.ConfirmSeat(seat.value);
      sent := Some(tripData.Body());
      if Rejects(putResponse) {
        reply := ServerError;
        return;
      }
    } else {
      reply := SeatNotAvailable;
      return;
    }
    var ok := store.Update(i, booking);
    reply := if ok then PaymentConfirmed else ServerError;
  }

  /** Confirming a booking twice is rejected: after a confirmation succeeds, any
      further confirmation of the same id answers "already SUCCESS" and changes
      nothing, whatever the trip service answers. */
  lemma ConfirmTwiceRejected(records: seq<Booking>, bookingId: Option<int>,
                             trip: Fetched<TripSeats>, put: Fetched<()>,
                             trip2: Fetched<TripSeats>, put2: Fetched<()>)
    requires PaymentTransition(records, bookingId, trip, put).reply == PaymentConfirmed
    ensures var after := PaymentTransition(records, bookingId, trip, put).records;
            PaymentTransition(after, bookingId, trip2, put2) == Payment(AlreadySuccess, after, None)
  {
    var o := PaymentTransition(records, bookingId, trip, put);
    var i := Target(records, bookingId).value;
    var confirmed := records[i].(paymentStatus := SUCCESS);
    assert TruthyNum(bookingId);
    UpdateKeepsIndex(records, bookingId.value, i, confirmed);
    assert Target(o.records, bookingId) == Some(i);
  }

  /** The payment status only moves forward: a SUCCESS booking is never touched, and
      the one booking that changes goes from PENDING to SUCCESS with all its other
      fields as they were. */
  lemma PaymentOnlyAdvances(records: seq<Booking>, bookingId: Option<int>,
                            trip: Fetched<TripSeats>, put: Fetched<()>, j: nat)
    requires j < |records|
    ensures var after := PaymentTransition(records, bookingId, trip, put).records;
            && |after| == |records|
            && (records[j].paymentStatus == SUCCESS ==> after[j] == records[j])
            && (after[j] != records[j] ==>
                  records[j].paymentStatus == PENDING &&
                  after[j] == records[j].(paymentStatus := SUCCESS))
  {
  }

  /** On a store whose records all passed validation, a pending booking is confirmed
      whenever the trip answers 200 with its seat available and the PUT goes through. */
  lemma ConfirmSucceeds(records: seq<Booking>, bookingId: Option<int>,
                          trip: Fetched<TripSeats>, put: Fetched<()>)
    requires AllConform(records)
    requires Target(records, bookingId).Some?
    requires records[Target(records, bookingId).value].paymentStatus == PENDING
    requires trip.Resp? && trip.status == 200 && !Rejects(put)
    requires SeatAvailable(SeatOf(records[Target(records, bookingId).value]), trip.data.availableSeats)
    ensures PaymentTransition(records, bookingId, trip, put).reply == PaymentConfirmed
  {
    var i := Target(records, bookingId).value;
    assert Conforms(records[i]);
  }

  /** A seat is confirmed at most once: when a trip has been written back with a seat
      confirmed, confirming another booking that holds the same seat is refused
      and changes nothing. */
  lemma SeatConfirmedOnce(records: seq<Booking>, bookingId: Option<int>, before: TripSeats,
                          seat: int, put: Fetched<()>)
    requires Target(records, bookingId).Some?
    requires records[Target(records, bookingId).value].paymentStatus == PENDING
    requires SeatOf(records[Target(records, bookingId).value]) == Some(seat)
    ensures PaymentTransition(records, bookingId, Resp(200, ConfirmSeatIn(before, seat)), put) ==
            Payment(SeatNotAvailable, records, None)
  {
  }

  /** The scenario of a first booking and its payment: a booking for seat "7" of a
      trip that lists seat 7 as available is created PENDING; confirming it answers
      200, marks it SUCCESS and moves seat 7 from the available to the confirmed seats. */
  lemma CreateThenConfirm(req: Request, up: Upstream, now: int, put: Fetched<()>)
    requires HasRequiredFields(req) && req.seatNumber == Some("7") && AllOk(up)
    requires 7 in up.trip.data.availableSeats
    requires SnapshotComplete(up)
    ensures var created := CreateTransition([], req, up, now);
            && created.reply == BookingCreated
            && created.records[0].paymentStatus == PENDING
            && (!Rejects(put) ==>
                  var paid := PaymentTransition(created.records, req.bookingId, up.trip, put);
                  && paid.reply == PaymentConfirmed
                  && paid.records == [created.records[0].(paymentStatus := SUCCESS)]
                  && paid.sent.Some?
                  && 7 !in paid.sent.value.availableSeats
                  && 7 in paid.sent.value.confirmedSeats)
  {
    ParseInt.ParseDecimal(7, "");
    assert ParseInt.DecimalString(7) == "7";
    var created := CreateTransition([], req, up, now);
    assert created.records[0].bookingId == req.bookingId.value;
    assert Target(created.records, req.bookingId) == Some(0);
    if !Rejects(put) {
      ConfirmSucceeds(created.records, req.bookingId, up.trip, put);
    }
  }

  /** `getAllBookings`: every stored booking, in store order. */
  function GetAllBookings(records: seq<Booking>): (r: Result<seq<Booking>, Reply>)
    ensures r.Success? && r.value == records
  {
    Success(records)
  }

  /** `getBookingByNic`: the first stored booking with that NIC, or 404. */
  function GetBookingByNic(records: seq<Booking>, nic: string): (r: Result<Booking, Reply>)
    ensures r.Failure? <==> forall b | b in records :: b.nic != nic
    ensures r.Failure? ==> r.error == NicNotFound
    ensures r.Success? ==>
            exists i | 0 <= i < |records| ::
              (records[i] == r.value && r.value.nic == nic &&
               forall j | 0 <= j < i :: records[j].nic != nic)
  {
    match IndexOfNic(records, nic)
    case Some(i) => Success(records[i])
    case None => Failure(NicNotFound)
  }

  /** `getBookingsByTripId`: the stored bookings of that trip in store order, or 404
      when there are none. */
  function GetBookingsByTripId(records: seq<Booking>, tripId: int): (r: Result<seq<Booking>, Reply>)
    ensures r.Failure? <==> forall b | b in records :: b.tripId != tripId
    ensures r.Failure? ==> r.error == NoTripBookings
    ensures r.Success? ==> r.value != [] && forall b :: b in r.value <==> b in records && b.tripId == tripId
    ensures r.Success? ==> r.value == WithTripId(records, tripId)
  {
    var found := WithTripId(records, tripId);
    if found == [] then Failure(NoTripBookings)
    else assert found[0] in found; Success(found)
  }
}
