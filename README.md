# Booking service — a Dafny model

This project models the core of a bus-booking microservice:

- the Mongoose `Booking` schema (`src/models/bookingModel.js`);
- the five Express handlers that create, confirm and look up bookings (`src/controllers/bookingController.js`).

A booking is created only after several steps succeed, in this order:

1. The request's fields must all be truthy.
2. The route, schedule, permit and trip services must all answer 200.
3. The requested seat, read with `parseInt`, must be listed as available on the trip.
4. The assembled document must pass the schema's required validators.

Confirming a payment works as follows:

- It finds the first booking with the given `bookingId` and refuses one that is already SUCCESS.
- It reads the trip and moves the seat from `availableSeats` to `confirmedSeats`.
- It writes the trip back with a PUT, and only then saves the booking as SUCCESS.

The model is split into modules:

- `Wrappers`: the Option and Result types.
- `Seqs`: `findOne` as the first match and `find` as an order-preserving filter.
- `ParseInt`: JavaScript's `parseInt` without a radix.
- `ParseIntDigits`: what `parseInt` returns on signed decimal and `0x` digit runs.
- `BookingModel`: the schema, its validators and defaults, and the `toJSON` projection.
- `Trip`: the seat lists of a trip body, and the parsed trip object that is edited in place.
- `BookingStore`: the collection as a class over a sequence of records.
- `BookingController`: the handlers.

Each handler has a specification function (`CreateTransition`, `PaymentTransition`) that gives its reply and new store. The imperative handlers (`CreateBooking`, `UpdatePaymentStatus`) are proved equal to those functions.

Calls to the outside world are not modelled as calls; they enter the handlers as parameters:

- Each axios call is a `Fetched` value: it either throws, or resolves with a status and a body. A status outside 2xx counts as thrown, because axios rejects it.
- The time used for `createdAt`'s `Date.now` default is the `now` parameter.
- The body sent with the trip PUT is returned as `sent`.

JavaScript values are typed: an absent or `null` field is `None`, and truthiness treats `0` and `""` as false.

Some consequences of the code that a reader might not expect:

- A trip-service 404 during creation makes axios throw, so the reply is 500.
- During payment, a trip answer that is 2xx but not 200 gives 404 "Trip not found", while a rejected call gives 500.
- `bookingId` is not unique. A second booking with the same id is stored, and `findOne` keeps returning the first one.
- There is no `mobileNumber` field, no forwarding of the commuter profile, and no integer check on `tripId`.

## Model

| member | source | states |
|---|---|---|
| Seqs.FirstIndex | src/controllers/bookingController.js:111 | `findOne` semantics: the result is the first index whose element matches, and None exactly when no element matches |
| Seqs.Filter | src/controllers/bookingController.js:197 | `find`/`filter` keeps exactly the matching elements, never more than the input |
| Seqs.FilterAppend | src/controllers/bookingController.js:141 | filtering distributes over concatenation, so kept elements stay in input order |
| Seqs.FilterAll | src/controllers/bookingController.js:141 | filtering when every element matches returns the sequence unchanged |
| Seqs.FirstIndexAppend | src/controllers/bookingController.js:111 | appending records never moves an existing first match |
| Seqs.FirstIndexUpdate | src/controllers/bookingController.js:150 | overwriting the first match with another matching value keeps it the first match |
| ParseInt.DigitValue | src/controllers/bookingController.js:59 | a character's digit value is at most 36 |
| ParseInt.TrimStart | src/controllers/bookingController.js:59 | `parseInt` skips leading white space: the rest is empty or starts with a non-space, is no longer than the input, and is the input itself when that does not start with white space |
| ParseInt.TrimStartDropsSpace | src/controllers/bookingController.js:59 | what trimming drops is exactly a leading run of white space: the result is a suffix of the input and every character before it is white space |
| ParseInt.DigitPrefix | src/controllers/bookingController.js:59 | the digits `parseInt` reads are the longest prefix of digits in the radix |
| ParseInt.Decimal | src/controllers/bookingController.js:135 | the reference writer that `parseInt` is proved to invert (see `ParseDecimal`); its text is never empty |
| ParseInt.DecimalDigits | src/controllers/bookingController.js:135 | the decimal text of n is all digits, reads back as n, and has no leading zero when n > 0 |
| ParseInt.DigitPrefixOfDigits | src/controllers/bookingController.js:59 | digits followed by a non-digit: the digit prefix is exactly those digits |
| ParseInt.SignOfDecimal | src/controllers/bookingController.js:59 | the decimal text of an integer starts with no white space, and carries a `-` sign exactly when the integer is negative |
| ParseInt.ParseDecimal | src/controllers/bookingController.js:59 | `parseInt` of an integer's decimal text, followed by any non-digit tail, gives that integer back; for 0, a tail starting with `x` or `X` is excluded, being the hexadecimal case |
| ParseInt.ParseSkipsSpace | src/controllers/bookingController.js:59 | leading white space does not change the result of `parseInt` |
| ParseInt.TrimStartSpace | src/controllers/bookingController.js:59 | white space put in front of a string does not change its trimmed form, and trimming white space followed by a string that does not start with white space yields exactly that string |
| ParseInt.Parse | src/controllers/bookingController.js:59 | `parseInt` yields a number only when, after white space, the text starts with a digit or a sign; its value on digit runs is given by `ParseIntDigits.ParseDigits` and `ParseIntDigits.ParseHexDigits`, and its NaN cases by `ParseNotANumber` and `ParseHexWithoutDigits`; `ParseSkipsSpace` adds leading white space |
| ParseInt.ParseNotANumber | src/controllers/bookingController.js:59 | a single sign followed by text whose first character is not a decimal digit is NaN (`"-x"`, `"- 5"`, `"+"`); so is unsigned text whose first character is neither white space, a sign nor a decimal digit (`"x"`, `""`) |
| ParseIntDigits.ParseDigits | src/controllers/bookingController.js:59 | a run of decimal digits, with at most one sign and any leading zeros and followed by a tail that does not start with a digit, parses to the value of the digits, negated after `-` (`"07"`, `"+7"`, `"-007"`, `"12abc"`); a lone `0` before `x` or `X` is excluded, being the hexadecimal case |
| ParseIntDigits.ParseHexDigits | src/controllers/bookingController.js:59 | `0x` or `0X` followed by a run of hexadecimal digits, with at most one sign and followed by a tail that does not start with a hexadecimal digit, parses to the value of the digits in radix 16, negated after `-` (`"0x1A"`, `"-0Xff"`) |
| ParseInt.ParseHexWithoutDigits | src/controllers/bookingController.js:59-60 | a `0x`/`0X` prefix, signed or not, with no hexadecimal digit after it is NaN |
| BookingModel.Validate | src/models/bookingModel.js:3-31 | saving succeeds exactly when every required validator passes, that is, exactly when no required path is missing (an empty string counts as missing). The saved record conforms, keeps every given field, and gets `createdAt` = now and `paymentStatus` = PENDING when they are absent |
| BookingModel.CompleteIffNoneMissing | src/models/bookingModel.js:4-25 | the field-by-field validators pass exactly when no path the schema marks `required` (every path but `createdAt` and `paymentStatus`) is missing |
| BookingModel.ValidateConforming | src/models/bookingModel.js:3-31 | a conforming record, re-saved, comes back unchanged |
| BookingModel.ToDocument | src/models/bookingModel.js:3-31 | a stored document has exactly the schema's fields plus `_id` and `__v` |
| BookingModel.ToJson | src/models/bookingModel.js:33-40 | `toJSON` removes exactly `_id` and `__v` and leaves every other key and value unchanged |
| BookingModel.ToJsonOfDocument | src/models/bookingModel.js:33-40 | the JSON of a stored document has exactly the domain fields, each with the record's value |
| BookingModel.ReadBackNumbers | src/models/bookingModel.js:4-25 | the numeric fields and `createdAt` read back from a booking's JSON |
| BookingModel.ReadBackFlags | src/models/bookingModel.js:7-30 | `music`, `ac`, `paymentStatus`, `commuterName` and `commuterEmail` read back from a booking's JSON |
| BookingModel.ReadBackTrip | src/models/bookingModel.js:9-15 | `nic`, `seatNumber`, `routeNumber`, `tripNumber`, `tripDate` and `startLocation` read back from a booking's JSON |
| BookingModel.ReadBackVehicle | src/models/bookingModel.js:16-22 | `endLocation`, `departureTime`, `arrivalTime`, `permitNumber`, `vehicleNumber` and `busType` read back from a booking's JSON |
| BookingModel.ToJsonRoundTrip | src/models/bookingModel.js:33-40 | `toJSON` loses no domain information: the booking is recovered from it |
| Trip.Without | src/controllers/bookingController.js:141 | `filter(seat => seat !== n)` keeps every other seat and drops n |
| Trip.WithoutAppend | src/controllers/bookingController.js:141 | removing a seat preserves the order of the remaining seats |
| Trip.WithoutAbsent | src/controllers/bookingController.js:141 | removing a seat that is not listed changes nothing |
| Trip.ConfirmSeatIn | src/controllers/bookingController.js:136-141 | a confirmed seat leaves `availableSeats` (others kept) and is appended to `confirmedSeats` |
| Trip.ConfirmKeepsPartition | src/controllers/bookingController.js:136-141 | confirming an available seat keeps the two lists disjoint and their union unchanged |
| Trip.TripData.FromBody | src/controllers/bookingController.js:132 | the parsed trip object holds the response body |
| Trip.TripData.ConfirmSeat | src/controllers/bookingController.js:138-141 | the in-place `push` and `filter` produce `ConfirmSeatIn` of the old body |
| BookingStore.Store.constructor | src/models/bookingModel.js:42 | the collection starts empty |
| BookingStore.Store.Insert | src/controllers/bookingController.js:65-91 | `save()` of a new document validates it, and appends it only on success; every stored record still conforms |
| BookingStore.Store.Update | src/controllers/bookingController.js:150 | `save()` of a fetched document validates it, and writes it back at its position only on success |
| BookingStore.IndexOfBookingId | src/controllers/bookingController.js:111 | `findOne({ bookingId })` finds the first record with that id, or none exactly when no record has it |
| BookingStore.IndexOfNic | src/controllers/bookingController.js:181 | `findOne({ nic })` finds the first record with that NIC, or none exactly when no record has it |
| BookingStore.WithTripId | src/controllers/bookingController.js:197 | `find({ tripId })` returns exactly the records of that trip |
| BookingStore.WithTripIdAppend | src/controllers/bookingController.js:197 | a record appended to the store comes last among its trip's records |
| BookingStore.DuplicateBookingIdShadowed | src/models/bookingModel.js:4 | with no uniqueness on `bookingId`, a duplicate is stored but `findOne` still returns the earlier record |
| BookingStore.UpdateKeepsIndex | src/controllers/bookingController.js:111-150 | saving the found booking back keeps it the one `findOne` finds |
| BookingController.PrepareBooking | src/controllers/bookingController.js:5-88 | falsy field → 400; a throwing or non-200 upstream → 500; seat not available (NaN included) → 400. A document is prepared exactly when the request passes all three checks, and it copies the request fields and the route, schedule and permit snapshot fields, with PENDING |
| BookingController.CreateTransition | src/controllers/bookingController.js:5-98 | any failure leaves the store unchanged. A request passing the three checks gets 201 exactly when the upstream bodies supply every required snapshot field, and 500 otherwise. 201 appends exactly one record, PENDING, stamped `now`, with the snapshot fields, existing records untouched. The reply is one of the four the handler sends |
| BookingController.CreateIgnoresStore | src/controllers/bookingController.js:5-98 | the reply of creation does not depend on the stored bookings: there is no uniqueness check |
| BookingController.CreateDuplicateShadowed | src/controllers/bookingController.js:65-111 | creating a booking whose id is taken leaves `findOne({ bookingId })` pointing at the older record |
| BookingController.CreatedListedLast | src/controllers/bookingController.js:91-201 | a created booking appears last in its trip's listing |
| BookingController.CreateBooking | src/controllers/bookingController.js:5-98 | the handler's reply and new store are those of `CreateTransition`; the store stays valid |
| BookingController.PaymentTransition | src/controllers/bookingController.js:101-163 | falsy id → 400, unknown id → 404, already SUCCESS → 400; for a PENDING booking a throwing trip GET → 500, a 2xx trip answer other than 200 → 404, a seat not listed (or NaN) → 400; in all these the store is unchanged and no PUT is sent. A PUT is sent exactly when the booking is PENDING and its seat is available on a 200 trip, and it carries the trip with that seat confirmed. Then a rejected PUT or a failed save → 500 with the store unchanged, and otherwise 200 with exactly that booking now SUCCESS. The reply is one of the seven the handler sends |
| BookingController.UpdatePaymentStatus | src/controllers/bookingController.js:101-163 | the imperative handler (in-memory SUCCESS copy, in-place trip edit, PUT, then save) yields exactly `PaymentTransition`; the store stays valid |
| BookingController.ConfirmTwiceRejected | src/controllers/bookingController.js:117-120 | after a confirmation succeeds, confirming the same id again answers "already SUCCESS" and changes nothing |
| BookingController.PaymentOnlyAdvances | src/controllers/bookingController.js:118-150 | a SUCCESS booking is never changed; the only change is one booking going from PENDING to SUCCESS with its other fields intact |
| BookingController.ConfirmSucceeds | src/controllers/bookingController.js:123-157 | on a valid store, a PENDING booking whose seat is available on a 200 trip is confirmed when the PUT succeeds |
| BookingController.SeatConfirmedOnce | src/controllers/bookingController.js:136-147 | once a seat is confirmed on the trip, confirming another booking for that seat is refused and changes nothing |
| BookingController.CreateThenConfirm | src/controllers/bookingController.js:5-157 | creating a booking for seat "7" and confirming it gives 201 then 200, the booking SUCCESS, and seat 7 moved to `confirmedSeats` |
| BookingController.GetAllBookings | src/controllers/bookingController.js:166-174 | every stored booking, in store order |
| BookingController.GetBookingByNic | src/controllers/bookingController.js:177-190 | 404 "Booking not found for this NIC" exactly when no booking has the NIC; otherwise the first booking that has it |
| BookingController.GetBookingsByTripId | src/controllers/bookingController.js:193-206 | 404 exactly when no booking has the trip; otherwise the list is non-empty and holds exactly that trip's bookings, in stored order |

## Left out

- Mongoose casting is not modelled: request and upstream values already have the schema's types. A string where a number is expected, for example, is not cast or rejected.
- Database failures are left out: the store never fails except on validation. The three getters' 500 branches and a 500 from `findOne` therefore have no counterpart.
- Concurrency is left out: the `Promise.all` of `createBooking` is one given tuple of outcomes. Concurrent confirmations of one booking, and lost updates between the trip GET and PUT, are not modelled.
- The effect of the PUT on the trip service is not modelled: the model records only the body sent and whether the call was rejected.
- Other fields of a trip body, which the PUT echoes back unchanged, are not modelled: a trip is reduced to its two seat lists.
- A trip body without the seat arrays is not modelled. In the handler, calling `includes` on the missing array raises a `TypeError`, which becomes a 500.
- An upstream body that is `null` or `undefined` is not modelled. Reading a field of it raises a `TypeError`, which becomes a 500.
- Any other upstream body that is not an object, such as a string or a number, has only undefined fields. The model covers these as absent (`None`) fields, and an absent required field fails validation with a 500.
- Numbers are mathematical integers: JavaScript's double-precision numbers, fractions, and `NaN` stored in a field are not modelled. `parseInt` produces an integer or NaN (None).
- `createdAt` is an integer timestamp. `Date` objects and `Date.now` are replaced by the `now` parameter.
- Environment-based URL selection, `console.error` logging, the error text in 500 bodies, and the booking and trip objects echoed in success bodies are not modelled. A reply is a status and its `message`.
- The Express application, the route table and the database connection are not part of this model.
