/** The booking collection: records in insertion order, the `save()` of a new and of
    an existing document, and the `findOne`/`find` queries the controller issues. */
module BookingStore {
  import opened Wrappers
  import opened BookingModel
  import Seqs

  class Store {
    var records: seq<Booking>

    constructor ()
      ensures records == []
    {
      records := [];
    }

    /** Every stored record passed the schema's validators when it was saved. */
    ghost predicate Valid()
      reads this
    {
      AllConform(records)
    }

    /** `new Booking(d).save()`: validate, then append. Nothing makes `bookingId`
        unique, so a record with an existing `bookingId` is appended like any other. */
    method Insert(d: Draft, now: int) returns (saved: Option<Booking>)
      modifies this
      ensures saved == Validate(d, now)
      ensures records == if saved.Some? then old(records) + [saved.value] else old(records)
      ensures old(Valid()) ==> Valid()
    {
      saved := Validate(d, now);
      if saved.Some? {
        records := records + [saved.value];
      }
    }

    /** `doc.save()` on the document read from position `i`: validate, then write it
        back in place. */
    method Update(i: nat, b: Booking) returns (ok: bool)
      requires i < |records|
      modifies this
      ensures ok == Conforms(b)
      ensures records == if ok then old(records)[i := b] else old(records)
      ensures old(Valid()) ==> Valid()
    {
      ok := Conforms(b);
      if ok {
        records := records[i := b];
      }
    }
  }

  function HasBookingId(id: int): Booking -> bool {
    (b: Booking) => b.bookingId == id
  }

  function HasNic(nic: string): Booking -> bool {
    (b: Booking) => b.nic == nic
  }

  function HasTripId(tripId: int): Booking -> bool {
    (b: Booking) => b.tripId == tripId
  }

  /** `findOne({ bookingId })`: the position of the first record with that id. */
  function IndexOfBookingId(records: seq<Booking>, id: int): (r: Option<nat>)
    ensures r.Some? ==> r.value < |records| && records[r.value].bookingId == id
    ensures r.Some? ==> forall j :: 0 <= j < r.value ==> records[j].bookingId != id
    ensures r.None? <==> forall j :: 0 <= j < |records| ==> records[j].bookingId != id
  {
    Seqs.FirstIndex(records, HasBookingId(id))
  }

  /** `findOne({ nic })`: the position of the first record with that NIC. */
  function IndexOfNic(records: seq<Booking>, nic: string): (r: Option<nat>)
    ensures r.Some? ==> r.value < |records| && records[r.value].nic == nic
    ensures r.Some? ==> forall j :: 0 <= j < r.value ==> records[j].nic != nic
    ensures r.None? <==> forall j :: 0 <= j < |records| ==> records[j].nic != nic
  {
    Seqs.FirstIndex(records, HasNic(nic))
  }

  /** `find({ tripId })`: the records of that trip, in store order. */
  function WithTripId(records: seq<Booking>, tripId: int): (r: seq<Booking>)
    ensures forall b :: b in r <==> b in records && b.tripId == tripId
  {
    Seqs.Filter(records, HasTripId(tripId))
  }

  /** A record appended to the store comes last among the records of its trip. */
  lemma WithTripIdAppend(records: seq<Booking>, b: Booking)
    ensures WithTripId(records + [b], b.tripId) == WithTripId(records, b.tripId) + [b]
  {
    Seqs.FilterAppend(records, [b], HasTripId(b.tripId));
    assert [b][1..] == [];
  }

  /** Appending a record whose `bookingId` is already taken does not change what
      `findOne({ bookingId })` finds: the earlier record shadows the new one. */
  lemma DuplicateBookingIdShadowed(records: seq<Booking>, b: Booking)
    requires IndexOfBookingId(records, b.bookingId).Some?
    ensures IndexOfBookingId(records + [b], b.bookingId) == IndexOfBookingId(records, b.bookingId)
  {
    Seqs.FirstIndexAppend(records, [b], HasBookingId(b.bookingId));
  }

  /** Writing a record back with the same `bookingId` keeps it the one `findOne` finds. */
  lemma UpdateKeepsIndex(records: seq<Booking>, id: int, i: nat, b: Booking)
    requires IndexOfBookingId(records, id) == Some(i)
    requires b.bookingId == id
    ensures IndexOfBookingId(records[i := b], id) == Some(i)
  {
    Seqs.FirstIndexUpdate(records, HasBookingId(id), i, b);
  }
}
