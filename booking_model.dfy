/** The booking record of `src/models/bookingModel.js`: its fields and their types,
    the schema's required flags, the `paymentStatus` enumeration with its default,
    the `createdAt` default, and the `toJSON` projection. */
module BookingModel {
  import opened Wrappers

  /** The `paymentStatus` enumeration; its default is PENDING. */
  datatype PaymentStatus = PENDING | SUCCESS

  /** A stored booking. Numbers are the schema's `Number` fields, `createdAt` is the
      `Date` as milliseconds since the epoch. */
  datatype Booking = Booking(
    bookingId: int,
    createdAt: int,
    commuterId: int,
    commuterName: string,
    commuterEmail: string,
    nic: string,
    seatNumber: string,
    routeNumber: string,
    tripId: int,
    tripNumber: string,
    tripDate: string,
    startLocation: string,
    endLocation: string,
    scheduleId: int,
    departureTime: string,
    arrivalTime: string,
    permitNumber: string,
    vehicleNumber: string,
    busType: string,
    pricePerSeat: int,
    music: bool,
    ac: bool,
    paymentStatus: PaymentStatus)

  /** The object handed to `new Booking({...})`: every field may be absent
      (`undefined` or `null`, here `None`). */
  datatype Draft = Draft(
    bookingId: Option<int>,
    createdAt: Option<int>,
    commuterId: Option<int>,
    commuterName: Option<string>,
    commuterEmail: Option<string>,
    nic: Option<string>,
    seatNumber: Option<string>,
    routeNumber: Option<string>,
    tripId: Option<int>,
    tripNumber: Option<string>,
    tripDate: Option<string>,
    startLocation: Option<string>,
    endLocation: Option<string>,
    scheduleId: Option<int>,
    departureTime: Option<string>,
    arrivalTime: Option<string>,
    permitNumber: Option<string>,
    vehicleNumber: Option<string>,
    busType: Option<string>,
    pricePerSeat: Option<int>,
    music: Option<bool>,
    ac: Option<bool>,
    paymentStatus: Option<PaymentStatus>)

  /** The keys of a stored booking document: one per schema path, plus the
      storage identity `_id` (Id) and the version key `__v` (Version). */
  datatype Key =
    | BookingId | CreatedAt | CommuterId | CommuterName | CommuterEmail | Nic | SeatNumber
    | RouteNumber | TripId | TripNumber | TripDate | StartLocation | EndLocation | ScheduleId
    | DepartureTime | ArrivalTime | PermitNumber | VehicleNumber | BusType | PricePerSeat
    | Music | Ac | PaymentStatusKey | Id | Version

  /** The schema marks every path `required: true` except `createdAt` and
      `paymentStatus`, which have defaults; `_id` and `__v` are the store's own. */
  predicate IsRequired(k: Key) {
    !(k.CreatedAt? || k.PaymentStatusKey? || k.Id? || k.Version?)
  }

  /** The paths a caller of the service sees: all but `_id` and `__v`. */
  predicate IsDomainField(k: Key) {
    !(k.Id? || k.Version?)
  }

  const RequiredFields: set<Key> := set k: Key | IsRequired(k)
  const DomainFields: set<Key> := set k: Key | IsDomainField(k)
  const DocumentKeys: set<Key> := set k: Key | true

  /** Mongoose's `required` check on a `String` path: present and not empty. */
  predicate HasText(v: Option<string>) {
    v.Some? && v.value != ""
  }

  /** Whether the draft passes the `required` validator of path `k`, read off the
      path's schema type: a `String` path needs a non-empty string, a `Number`,
      `Date` or `Boolean` path (and the enumerated `paymentStatus`) a value. The
      draft carries neither `_id` nor `__v`. */
  predicate Supplies(d: Draft, k: Key) {
    match k
    case BookingId => d.bookingId.Some?
    case CreatedAt => d.createdAt.Some?
    case CommuterId => d.commuterId.Some?
    case CommuterName => HasText(d.commuterName)
    case CommuterEmail => HasText(d.commuterEmail)
    case Nic => HasText(d.nic)
    case SeatNumber => HasText(d.seatNumber)
    case RouteNumber => HasText(d.routeNumber)
    case TripId => d.tripId.Some?
    case TripNumber => HasText(d.tripNumber)
    case TripDate => HasText(d.tripDate)
    case StartLocation => HasText(d.startLocation)
    case EndLocation => HasText(d.endLocation)
    case ScheduleId => d.scheduleId.Some?
    case DepartureTime => HasText(d.departureTime)
    case ArrivalTime => HasText(d.arrivalTime)
    case PermitNumber => HasText(d.permitNumber)
    case VehicleNumber => HasText(d.vehicleNumber)
    case BusType => HasText(d.busType)
    case PricePerSeat => d.pricePerSeat.Some?
    case Music => d.music.Some?
    case Ac => d.ac.Some?
    case PaymentStatusKey => d.paymentStatus.Some?
    case Id => false
    case Version => false
  }

  /** The required paths whose validator fails on the draft. */
  function Missing(d: Draft): set<Key> {
    set k: Key | k in RequiredFields && !Supplies(d, k)
  }

  /** The required validators, path by path as the schema lists them. */
  predicate Complete(d: Draft) {
    && d.bookingId.Some? && d.commuterId.Some? && HasText(d.commuterName)
    && HasText(d.commuterEmail) && HasText(d.nic) && HasText(d.seatNumber)
    && HasText(d.routeNumber) && d.tripId.Some? && HasText(d.tripNumber)
    && HasText(d.tripDate) && HasText(d.startLocation) && HasText(d.endLocation)
    && d.scheduleId.Some? && HasText(d.departureTime) && HasText(d.arrivalTime)
    && HasText(d.permitNumber) && HasText(d.vehicleNumber) && HasText(d.busType)
    && d.pricePerSeat.Some? && d.music.Some? && d.ac.Some?
  }

  /** The list of validators `save()` runs is exactly the set of paths the schema
      marks required: all of them pass precisely when no required path is missing. */
  lemma CompleteIffNoneMissing(d: Draft)
    ensures Complete(d) <==> Missing(d) == {}
  {
    if Complete(d) {
      CompleteNoneMissing(d);
    }
    if Missing(d) == {} {
      NoneMissingComplete(d);
    }
  }

  lemma CompleteNoneMissing(d: Draft)
    requires Complete(d)
    ensures Missing(d) == {}
  {
  }

  lemma NoneMissingComplete(d: Draft)
    requires Missing(d) == {}
    ensures Complete(d)
  {
    NoneMissingCommuter(d);
    NoneMissingSchedule(d);
    NoneMissingPermit(d);
  }

  lemma NoneMissingCommuter(d: Draft)
    requires Missing(d) == {}
    ensures d.bookingId.Some? && d.commuterId.Some? && HasText(d.commuterName) && HasText(d.commuterEmail)
            && HasText(d.nic) && HasText(d.seatNumber) && HasText(d.routeNumber)
  {
    KeySupplied(d, BookingId);
    KeySupplied(d, CommuterId);
    KeySupplied(d, CommuterName);
    KeySupplied(d, CommuterEmail);
    KeySupplied(d, Nic);
    KeySupplied(d, SeatNumber);
    KeySupplied(d, RouteNumber);
  }

  lemma NoneMissingSchedule(d: Draft)
    requires Missing(d) == {}
    ensures d.tripId.Some? && HasText(d.tripNumber) && HasText(d.tripDate) && HasText(d.startLocation)
            && HasText(d.endLocation) && d.scheduleId.Some? && HasText(d.departureTime)
  {
    KeySupplied(d, TripId);
    KeySupplied(d, TripNumber);
    KeySupplied(d, TripDate);
    KeySupplied(d, StartLocation);
    KeySupplied(d, EndLocation);
    KeySupplied(d, ScheduleId);
    KeySupplied(d, DepartureTime);
  }

  lemma NoneMissingPermit(d: Draft)
    requires Missing(d) == {}
    ensures HasText(d.arrivalTime) && HasText(d.permitNumber) && HasText(d.vehicleNumber) && HasText(d.busType)
            && d.pricePerSeat.Some? && d.music.Some? && d.ac.Some?
  {
    KeySupplied(d, ArrivalTime);
    KeySupplied(d, PermitNumber);
    KeySupplied(d, VehicleNumber);
    KeySupplied(d, BusType);
    KeySupplied(d, PricePerSeat);
    KeySupplied(d, Music);
    KeySupplied(d, Ac);
  }

  lemma KeySupplied(d: Draft, k: Key)
    requires Missing(d) == {} && k in RequiredFields
    ensures Supplies(d, k)
  {
    assert k !in Missing(d);
  }

  /** A stored booking satisfies every required validator: its strings are not empty. */
  predicate Conforms(b: Booking) {
    b.commuterName != "" && b.commuterEmail != "" && b.nic != "" && b.seatNumber != "" &&
    b.routeNumber != "" && b.tripNumber != "" && b.tripDate != "" && b.startLocation != "" &&
    b.endLocation != "" && b.departureTime != "" && b.arrivalTime != "" &&
    b.permitNumber != "" && b.vehicleNumber != "" && b.busType != ""
  }

  /** Every record of a collection conforms to the schema. */
  predicate AllConform(records: seq<Booking>) {
    forall i | 0 <= i < |records| :: Conforms(records[i])
  }

  /** The draft that re-saving `b` validates: every field present. */
  function ToDraft(b: Booking): Draft {
    Draft(Some(b.bookingId), Some(b.createdAt), Some(b.commuterId), Some(b.commuterName),
      Some(b.commuterEmail), Some(b.nic), Some(b.seatNumber), Some(b.routeNumber),
      Some(b.tripId), Some(b.tripNumber), Some(b.tripDate), Some(b.startLocation),
      Some(b.endLocation), Some(b.scheduleId), Some(b.departureTime), Some(b.arrivalTime),
      Some(b.permitNumber), Some(b.vehicleNumber), Some(b.busType), Some(b.pricePerSeat),
      Some(b.music), Some(b.ac), Some(b.paymentStatus))
  }

  /** Construction and validation of a document, as `save()` does before it writes:
      the defaults fill `createdAt` (the current time `now`) and `paymentStatus`
      (PENDING); a missing required field makes the save fail (None). */
  function Validate(d: Draft, now: int): (r: Option<Booking>)
    ensures r.Some? <==> Complete(d)
    ensures r.Some? <==> Missing(d) == {}
    ensures r.Some? ==> Conforms(r.value)
    ensures r.Some? ==> r.value.createdAt == d.createdAt.GetOr(now)
    ensures r.Some? ==> r.value.paymentStatus == d.paymentStatus.GetOr(PENDING)
    ensures r.Some? ==> ToDraft(r.value) == d.(createdAt := Some(r.value.createdAt),
                                                 paymentStatus := Some(r.value.paymentStatus))
  {
    CompleteIffNoneMissing(d);
    if Complete(d) then
      Some(Booking(d.bookingId.value, d.createdAt.GetOr(now), d.commuterId.value,
        d.commuterName.value, d.commuterEmail.value, d.nic.value, d.seatNumber.value,
        d.routeNumber.value, d.tripId.value, d.tripNumber.value, d.tripDate.value,
        d.startLocation.value, d.endLocation.value, d.scheduleId.value,
        d.departureTime.value, d.arrivalTime.value, d.permitNumber.value,
        d.vehicleNumber.value, d.busType.value, d.pricePerSeat.value, d.music.value,
        d.ac.value, d.paymentStatus.GetOr(PENDING)))
    else
      None
  }

  /** Saving a booking that already conforms succeeds and stores it unchanged,
      whatever the clock says. */
  lemma ValidateConforming(b: Booking, now: int)
    requires Conforms(b)
    ensures Validate(ToDraft(b), now) == Some(b)
  {
    assert Complete(ToDraft(b));
  }

  /** A value of a document field. */
  datatype Value = Str(s: string) | Num(n: int) | Bool(b: bool) | Date(ms: int) | ObjectId(id: string)

  function StatusName(p: PaymentStatus): string {
    match p
    case PENDING => "PENDING"
    case SUCCESS => "SUCCESS"
  }

  /** The value a stored document holds under `k`. */
  function FieldValue(b: Booking, id: string, version: int, k: Key): Value {
    match k
    case Id => ObjectId(id)
    case Version => Num(version)
    case BookingId => Num(b.bookingId)
    case CreatedAt => Date(b.createdAt)
    case CommuterId => Num(b.commuterId)
    case CommuterName => Str(b.commuterName)
    case CommuterEmail => Str(b.commuterEmail)
    case Nic => Str(b.nic)
    case SeatNumber => Str(b.seatNumber)
    case RouteNumber => Str(b.routeNumber)
    case TripId => Num(b.tripId)
    case TripNumber => Str(b.tripNumber)
    case TripDate => Str(b.tripDate)
    case StartLocation => Str(b.startLocation)
    case EndLocation => Str(b.endLocation)
    case ScheduleId => Num(b.scheduleId)
    case DepartureTime => Str(b.departureTime)
    case ArrivalTime => Str(b.arrivalTime)
    case PermitNumber => Str(b.permitNumber)
    case VehicleNumber => Str(b.vehicleNumber)
    case BusType => Str(b.busType)
    case PricePerSeat => Num(b.pricePerSeat)
    case Music => Bool(b.music)
    case Ac => Bool(b.ac)
    case PaymentStatusKey => Str(StatusName(b.paymentStatus))
  }

  /** A stored document: the booking's fields under their schema paths, plus the
      storage identity `_id` and the version key `__v`. */
  function ToDocument(b: Booking, id: string, version: int): (m: map<Key, Value>)
    ensures m.Keys == DocumentKeys
  {
    map k | k in DocumentKeys :: FieldValue(b, id, version, k)
  }

  /** The schema's `toJSON` transform: delete `_id` and `__v`, keep the rest. */
  function ToJson<V>(doc: map<Key, V>): (r: map<Key, V>)
    ensures r.Keys == doc.Keys - {Id, Version}
    ensures forall k | k in r :: r[k] == doc[k]
  {
    doc - {Id, Version}
  }

  function GetStr(m: map<Key, Value>, k: Key): Option<string> {
    if k in m && m[k].Str? then Some(m[k].s) else None
  }

  function GetNum(m: map<Key, Value>, k: Key): Option<int> {
    if k in m && m[k].Num? then Some(m[k].n) else None
  }

  function GetBool(m: map<Key, Value>, k: Key): Option<bool> {
    if k in m && m[k].Bool? then Some(m[k].b) else None
  }

  function GetDate(m: map<Key, Value>, k: Key): Option<int> {
    if k in m && m[k].Date? then Some(m[k].ms) else None
  }

  function GetStatus(m: map<Key, Value>): Option<PaymentStatus> {
    match GetStr(m, PaymentStatusKey)
    case Some(name) =>
      if name == StatusName(PENDING) then Some(PENDING)
      else if name == StatusName(SUCCESS) then Some(SUCCESS)
      else None
    case None => None
  }

  /** Whether every field of a booking is present in `m` with its schema type. */
  predicate HasBookingFields(m: map<Key, Value>) {
    GetNum(m, BookingId).Some? && GetDate(m, CreatedAt).Some? && GetNum(m, CommuterId).Some? &&
    GetStr(m, CommuterName).Some? && GetStr(m, CommuterEmail).Some? && GetStr(m, Nic).Some? &&
    GetStr(m, SeatNumber).Some? && GetStr(m, RouteNumber).Some? && GetNum(m, TripId).Some? &&
    GetStr(m, TripNumber).Some? && GetStr(m, TripDate).Some? && GetStr(m, StartLocation).Some? &&
    GetStr(m, EndLocation).Some? && GetNum(m, ScheduleId).Some? && GetStr(m, DepartureTime).Some? &&
    GetStr(m, ArrivalTime).Some? && GetStr(m, PermitNumber).Some? && GetStr(m, VehicleNumber).Some? &&
    GetStr(m, BusType).Some? && GetNum(m, PricePerSeat).Some? && GetBool(m, Music).Some? &&
    GetBool(m, Ac).Some? && GetStatus(m).Some?
  }

  /** Reads a booking back from its JSON fields, as a client of the service would;
      None when a field is absent or of the wrong type. */
  function FromJson(m: map<Key, Value>): Option<Booking> {
    if HasBookingFields(m) then
      Some(Booking(GetNum(m, BookingId).value, GetDate(m, CreatedAt).value,
        GetNum(m, CommuterId).value, GetStr(m, CommuterName).value,
        GetStr(m, CommuterEmail).value, GetStr(m, Nic).value, GetStr(m, SeatNumber).value,
        GetStr(m, RouteNumber).value, GetNum(m, TripId).value, GetStr(m, TripNumber).value,
        GetStr(m, TripDate).value, GetStr(m, StartLocation).value,
        GetStr(m, EndLocation).value, GetNum(m, ScheduleId).value,
        GetStr(m, DepartureTime).value, GetStr(m, ArrivalTime).value,
        GetStr(m, PermitNumber).value, GetStr(m, VehicleNumber).value,
        GetStr(m, BusType).value, GetNum(m, PricePerSeat).value, GetBool(m, Music).value,
        GetBool(m, Ac).value, GetStatus(m).value))
    else
      None
  }

  /** The projection of a stored document holds exactly the domain fields, each
      with the value the document stores. */
  lemma ToJsonOfDocument(b: Booking, id: string, version: int)
    ensures ToJson(ToDocument(b, id, version)).Keys == DomainFields
    ensures forall k | k in DomainFields ::
      ToJson(ToDocument(b, id, version))[k] == FieldValue(b, id, version, k)
  {
    assert Id !in DomainFields && Version !in DomainFields;
  }

  lemma ReadBackNumbers(b: Booking, id: string, version: int)
    ensures var m := ToJson(ToDocument(b, id, version));
      && GetNum(m, BookingId) == Some(b.bookingId) && GetDate(m, CreatedAt) == Some(b.createdAt)
      && GetNum(m, CommuterId) == Some(b.commuterId) && GetNum(m, TripId) == Some(b.tripId)
      && GetNum(m, ScheduleId) == Some(b.scheduleId) && GetNum(m, PricePerSeat) == Some(b.pricePerSeat)
  {
    var m := ToJson(ToDocument(b, id, version));
    assert GetNum(m, BookingId) == Some(b.bookingId) && GetDate(m, CreatedAt) == Some(b.createdAt);
    assert GetNum(m, CommuterId) == Some(b.commuterId) && GetNum(m, TripId) == Some(b.tripId);
  }

  lemma ReadBackFlags(b: Booking, id: string, version: int)
    ensures var m := ToJson(ToDocument(b, id, version));
      && GetBool(m, Music) == Some(b.music) && GetBool(m, Ac) == Some(b.ac)
      && GetStatus(m) == Some(b.paymentStatus)
      && GetStr(m, CommuterName) == Some(b.commuterName) && GetStr(m, CommuterEmail) == Some(b.commuterEmail)
  {
    var m := ToJson(ToDocument(b, id, version));
    assert m[PaymentStatusKey] == Str(StatusName(b.paymentStatus));
  }

  lemma ReadBackTrip(b: Booking, id: string, version: int)
    ensures var m := ToJson(ToDocument(b, id, version));
      && GetStr(m, Nic) == Some(b.nic) && GetStr(m, SeatNumber) == Some(b.seatNumber)
      && GetStr(m, RouteNumber) == Some(b.routeNumber) && GetStr(m, TripNumber) == Some(b.tripNumber)
      && GetStr(m, TripDate) == Some(b.tripDate) && GetStr(m, StartLocation) == Some(b.startLocation)
  {
    var m := ToJson(ToDocument(b, id, version));
    assert GetStr(m, Nic) == Some(b.nic) && GetStr(m, SeatNumber) == Some(b.seatNumber);
    assert GetStr(m, RouteNumber) == Some(b.routeNumber) && GetStr(m, TripNumber) == Some(b.tripNumber);
  }

  lemma ReadBackVehicle(b: Booking, id: string, version: int)
    ensures var m := ToJson(ToDocument(b, id, version));
      && GetStr(m, EndLocation) == Some(b.endLocation) && GetStr(m, DepartureTime) == Some(b.departureTime)
      && GetStr(m, ArrivalTime) == Some(b.arrivalTime) && GetStr(m, PermitNumber) == Some(b.permitNumber)
      && GetStr(m, VehicleNumber) == Some(b.vehicleNumber) && GetStr(m, BusType) == Some(b.busType)
  {
    var m := ToJson(ToDocument(b, id, version));
    assert GetStr(m, EndLocation) == Some(b.endLocation) && GetStr(m, DepartureTime) == Some(b.departureTime);
    assert GetStr(m, ArrivalTime) == Some(b.arrivalTime) && GetStr(m, PermitNumber) == Some(b.permitNumber);
  }

  /** `toJSON` loses no domain field: the booking can be read back in full from
      the projection of its stored document, which holds neither `_id` nor `__v`. */
  lemma ToJsonRoundTrip(b: Booking, id: string, version: int)
    ensures FromJson(ToJson(ToDocument(b, id, version))) == Some(b)
  {
    ReadBackNumbers(b, id, version);
    ReadBackFlags(b, id, version);
    ReadBackTrip(b, id, version);
    ReadBackVehicle(b, id, version);
  }
}
