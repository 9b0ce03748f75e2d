/**
 * The booking store and the transaction of `POST /api/bookings`: validate the
 * request, find the slot, check the seats left, price the booking, insert one
 * confirmed booking and raise the slot's booked count, all or nothing.
 */
module Bookings {
  import opened Wrappers
  import opened Text
  import opened Pricing
  import opened ReferenceIds
  import opened BookingRequests

  datatype Experience = Experience(title: string, location: string, price: int, category: string)

  datatype Slot = Slot(experienceId: string, date: string, time: string, capacity: int, bookedCount: int)

  datatype Booking = Booking(
    slotId: string,
    userName: string,
    userEmail: string,
    promoCode: Option<string>,
    quantity: int,
    subtotal: int,
    taxes: int,
    discount: int,
    total: int,
    referenceId: string,
    status: string)

  const Confirmed: string := "confirmed"

  /** The range of the database's `Int` columns: signed 32-bit integers. */
  const MinInt32: int := -0x8000_0000
  const MaxInt32: int := 0x7fff_ffff

  predicate FitsInt32(x: int)
  {
    MinInt32 <= x <= MaxInt32
  }

  /** Every amount of a quote fits its `Int` column. */
  predicate AmountsFit(q: Quote)
  {
    FitsInt32(q.subtotal) && FitsInt32(q.taxes) && FitsInt32(q.discount) && FitsInt32(q.total)
  }

  /** Why a booking was refused; every one of them is answered with status 400. */
  datatype BookingError =
    | InvalidRequest(issues: seq<Field>)
    | SlotNotFound
    | NotEnoughSeats(available: int)
    | AmountOutOfRange
    | ReferenceTaken

  /** The `message` of the error response. */
  function Message(e: BookingError): (m: string)
  {
    match e
    case InvalidRequest(_) => "Invalid request data"
    case SlotNotFound => "Slot not found"
    case NotEnoughSeats(n) => "Only " + IntToDecimal(n) + " seats available"
    case AmountOutOfRange => "Unable to fit integer value into an INT4 (32-bit signed integer)"
    case ReferenceTaken => "Unique constraint failed on the fields: (`referenceId`)"
  }

  /** The seat count can be read back from the "Only N seats available" message. */
  lemma SeatsMessageNamesCount(n: nat)
    ensures var m := Message(NotEnoughSeats(n));
      && |m| == 5 + |NatToDecimal(n)| + 16
      && m[..5] == "Only "
      && m[|m| - 16..] == " seats available"
      && AllDigits(m[5..|m| - 16])
      && DecimalValue(m[5..|m| - 16]) == n
  {
    var m := Message(NotEnoughSeats(n));
    assert m == "Only " + NatToDecimal(n) + " seats available";
    assert m[5..|m| - 16] == NatToDecimal(n);
    DecimalRoundTrip(n);
  }

  /** The refusal after a slot fills up reads "Only 0 seats available". */
  lemma FullSlotMessage()
    ensures Message(NotEnoughSeats(0)) == "Only 0 seats available"
  {
    assert IntToDecimal(0) == [DigitChar(0)] == "0";
  }

  /** Seats still free in a slot. */
  function Available(s: Slot): (n: int)
  {
    s.capacity - s.bookedCount
  }

  /** `promoCode || null`: an absent or empty code is stored as null. */
  function StoredPromo(p: Option<string>): (r: Option<string>)
    ensures r.None? <==> (p.None? || p.value == "")
    ensures r.Some? ==> r == p
  {
    if p.Some? && p.value != "" then p else None
  }

  /** Seats taken by the bookings of one slot. */
  function BookedBy(bs: seq<Booking>, slotId: string): (n: int)
  {
    if bs == [] then 0
    else (if bs[0].slotId == slotId then bs[0].quantity else 0) + BookedBy(bs[1..], slotId)
  }

  /** Appending a booking adds its quantity to its own slot's tally and nothing elsewhere. */
  lemma {:induction false} BookedByAppend(bs: seq<Booking>, b: Booking, slotId: string)
    ensures BookedBy(bs + [b], slotId) == BookedBy(bs, slotId) + (if b.slotId == slotId then b.quantity else 0)
  {
    if bs != [] {
      assert (bs + [b])[1..] == bs[1..] + [b];
      BookedByAppend(bs[1..], b, slotId);
    }
  }

  /**
   * How far a slot's booked count is from the seats its bookings hold.
   * Every transaction keeps it; it is zero when the slot began empty.
   */
  ghost function Drift(slots: map<string, Slot>, bs: seq<Booking>, slotId: string): int
    requires slotId in slots
  {
    slots[slotId].bookedCount - BookedBy(bs, slotId)
  }

  /** Booking `b` and raising its slot by its quantity leaves every slot's drift as it was. */
  lemma BookingKeepsDrift(slots: map<string, Slot>, bs: seq<Booking>, b: Booking)
    requires b.slotId in slots
    ensures forall id :: id in slots ==> Drift(Raise(slots, b.slotId, b.quantity), bs + [b], id) == Drift(slots, bs, id)
  {
    forall id | id in slots
      ensures BookedBy(bs + [b], id) == BookedBy(bs, id) + (if b.slotId == id then b.quantity else 0)
    {
      BookedByAppend(bs, b, id);
    }
  }

  /** Slot rows as the catalogue holds them: owned by an experience, not overbooked. */
  predicate SlotsWellFormed(experiences: map<string, Experience>, slots: map<string, Slot>)
  {
    forall id :: id in slots ==>
      slots[id].experienceId in experiences && 0 <= slots[id].bookedCount <= slots[id].capacity
  }

  /** Whether some booking already carries a reference id (the column is unique). */
  predicate ReferenceInUse(bs: seq<Booking>, referenceId: string)
  {
    exists i :: 0 <= i < |bs| && bs[i].referenceId == referenceId
  }

  /**
   * A stored booking: for a known slot, confirmed, 1 to 8 seats, amounts
   * that fit their columns, a well-formed reference id.
   */
  predicate BookingWellFormed(slotIds: set<string>, b: Booking)
  {
    && b.slotId in slotIds
    && AmountsFit(Quote(b.subtotal, b.taxes, b.discount, b.total))
    && b.status == Confirmed
    && MinQuantity <= b.quantity <= MaxQuantity
    && IsReferenceId(b.referenceId)
  }

  /** Every booking well formed, and no two sharing a reference id. */
  predicate BookingsWellFormed(slotIds: set<string>, bs: seq<Booking>)
  {
    && (forall i :: 0 <= i < |bs| ==> BookingWellFormed(slotIds, bs[i]))
    && (forall i, j :: 0 <= i < j < |bs| ==> bs[i].referenceId != bs[j].referenceId)
  }

  /** Inserting a well-formed booking with an unused reference id keeps the table well formed. */
  lemma AppendKeepsWellFormed(slotIds: set<string>, bs: seq<Booking>, b: Booking)
    requires BookingsWellFormed(slotIds, bs) && BookingWellFormed(slotIds, b)
    requires !ReferenceInUse(bs, b.referenceId)
    ensures BookingsWellFormed(slotIds, bs + [b])
  {
    var bs' := bs + [b];
    forall i, j | 0 <= i < j < |bs'|
      ensures bs'[i].referenceId != bs'[j].referenceId
    {
      if j == |bs| {
        assert bs'[i] == bs[i];
      }
    }
  }

  /** Raising one slot's count within its capacity keeps the slot rows well formed. */
  lemma RaiseKeepsWellFormed(experiences: map<string, Experience>, slots: map<string, Slot>, slotId: string, quantity: int)
    requires SlotsWellFormed(experiences, slots) && slotId in slots
    requires 0 <= quantity <= Available(slots[slotId])
    ensures SlotsWellFormed(experiences, Raise(slots, slotId, quantity))
  {
  }

  /** The slot rows after `quantity` more seats of `slotId` are taken. */
  function Raise(slots: map<string, Slot>, slotId: string, quantity: int): (r: map<string, Slot>)
    requires slotId in slots
    ensures r.Keys == slots.Keys
    ensures r[slotId].bookedCount == slots[slotId].bookedCount + quantity
    ensures r[slotId] == slots[slotId].(bookedCount := r[slotId].bookedCount)
    ensures forall id :: id in slots && id != slotId ==> r[id] == slots[id]
  {
    slots[slotId := slots[slotId].(bookedCount := slots[slotId].bookedCount + quantity)]
  }

  /**
   * The outcome of the transaction from a store state: the checks in the
   * source's order, then the booking row it inserts.
   */
  function Decide(experiences: map<string, Experience>, slots: map<string, Slot>, bs: seq<Booking>,
                  req: BookingRequest, referenceId: string): (r: Result<Booking, BookingError>)
    requires SlotsWellFormed(experiences, slots)
  {
    if req.slotId !in slots then Failure(SlotNotFound)
    else
      var slot := slots[req.slotId];
      if Available(slot) < req.quantity then Failure(NotEnoughSeats(Available(slot)))
      else
        var quote := PriceBooking(experiences[slot.experienceId].price, req.quantity, req.promoCode);
        if !AmountsFit(quote) then Failure(AmountOutOfRange)
        else if ReferenceInUse(bs, referenceId) then Failure(ReferenceTaken)
        else Success(Booking(req.slotId, req.userName, req.userEmail, StoredPromo(req.promoCode),
                        req.quantity, quote.subtotal, quote.taxes, quote.discount, quote.total,
                        referenceId, Confirmed))
  }

  /**
   * The refusals: an unknown slot, too few seats (reporting the seats that
   * are left, never negative and fewer than asked for), an amount too large
   * for its column, a reference id already taken.
   */
  lemma DecideRefusals(experiences: map<string, Experience>, slots: map<string, Slot>, bs: seq<Booking>,
                       req: BookingRequest, referenceId: string)
    requires SlotsWellFormed(experiences, slots)
    ensures var r := Decide(experiences, slots, bs, req, referenceId);
      && (r == Failure(SlotNotFound) <==> req.slotId !in slots)
      && (r.Failure? && r.error.NotEnoughSeats? <==>
            req.slotId in slots && slots[req.slotId].capacity - slots[req.slotId].bookedCount < req.quantity)
      && (r.Failure? && r.error.NotEnoughSeats? ==>
            r.error.available == slots[req.slotId].capacity - slots[req.slotId].bookedCount
            && 0 <= r.error.available < req.quantity)
      && (r == Failure(AmountOutOfRange) <==>
            req.slotId in slots && req.quantity <= Available(slots[req.slotId])
            && !AmountsFit(PriceBooking(experiences[slots[req.slotId].experienceId].price, req.quantity, req.promoCode)))
      && (r == Failure(ReferenceTaken) <==>
            req.slotId in slots && req.quantity <= Available(slots[req.slotId])
            && AmountsFit(PriceBooking(experiences[slots[req.slotId].experienceId].price, req.quantity, req.promoCode))
            && ReferenceInUse(bs, referenceId))
      && (r.Failure? ==> r.error.SlotNotFound? || r.error.NotEnoughSeats? || r.error.AmountOutOfRange? || r.error.ReferenceTaken?)
  {
  }

  /**
   * An accepted booking is the requested one: its slot, seats and customer,
   * the promo code or null, its price from the slot's experience with every
   * amount within 32 bits, the given reference id, and status "confirmed".
   */
  lemma DecideAcceptedBooking(experiences: map<string, Experience>, slots: map<string, Slot>, bs: seq<Booking>,
                              req: BookingRequest, referenceId: string)
    requires SlotsWellFormed(experiences, slots)
    requires Decide(experiences, slots, bs, req, referenceId).Success?
    ensures var b := Decide(experiences, slots, bs, req, referenceId).value;
      var price := experiences[slots[req.slotId].experienceId].price;
      && b.slotId == req.slotId && b.userName == req.userName && b.userEmail == req.userEmail
      && b.quantity == req.quantity
      && b.promoCode == StoredPromo(req.promoCode)
      && (b.promoCode.None? <==> req.promoCode.None? || req.promoCode.value == "")
      && (req.promoCode.Some? && req.promoCode.value != "" ==> b.promoCode == req.promoCode)
      && b.subtotal == price * req.quantity
      && b.taxes == Taxes(b.subtotal)
      && b.discount == (if b.promoCode.None? then 0 else Discount(b.promoCode.value, b.subtotal))
      && b.total == b.subtotal + b.taxes - b.discount
      && FitsInt32(b.subtotal) && FitsInt32(b.taxes) && FitsInt32(b.discount) && FitsInt32(b.total)
      && b.referenceId == referenceId && !ReferenceInUse(bs, referenceId)
      && b.status == Confirmed
  {
  }

  /**
   * An accepted booking of a positive number of seats raises its slot by
   * exactly that many, to at most the capacity, and leaves the other slots.
   */
  lemma {:induction false} DecideKeepsCapacity(experiences: map<string, Experience>, slots: map<string, Slot>,
                                               bs: seq<Booking>, req: BookingRequest, referenceId: string)
    requires SlotsWellFormed(experiences, slots)
    requires req.quantity >= 1
    requires Decide(experiences, slots, bs, req, referenceId).Success?
    ensures SlotsWellFormed(experiences, Raise(slots, req.slotId, req.quantity))
    ensures Raise(slots, req.slotId, req.quantity)[req.slotId].bookedCount <= slots[req.slotId].capacity
    ensures Raise(slots, req.slotId, req.quantity)[req.slotId].bookedCount == slots[req.slotId].bookedCount + req.quantity
  {
    RaiseKeepsWellFormed(experiences, slots, req.slotId, req.quantity);
  }

  class Store {
    var experiences: map<string, Experience>
    var slots: map<string, Slot>
    var bookings: seq<Booking>

    /**
     * Slots belong to an experience and are never overbooked; bookings refer
     * to a slot, are confirmed, hold 1 to 8 seats and carry distinct
     * well-formed reference ids.
     */
    ghost predicate Valid()
      reads this
    {
      SlotsWellFormed(experiences, slots) && BookingsWellFormed(slots.Keys, bookings)
    }

    constructor (experiences: map<string, Experience>, slots: map<string, Slot>)
      requires SlotsWellFormed(experiences, slots)
      ensures Valid()
      ensures this.experiences == experiences && this.slots == slots && bookings == []
    {
      this.experiences := experiences;
      this.slots := slots;
      bookings := [];
    }

    /**
     * `POST /api/bookings`: the request is validated first; an accepted one
     * runs the transaction.
     */
    method Book(req: BookingRequest, isUuid: string -> bool, isEmail: string -> bool, picks: seq<nat>)
      returns (r: Result<Booking, BookingError>)
      requires Valid() && ValidPicks(picks)
      modifies this
      ensures Valid() && experiences == old(experiences)
      ensures !Accepted(req, isUuid, isEmail) ==> r == Failure(InvalidRequest(Issues(req, isUuid, isEmail)))
      ensures Accepted(req, isUuid, isEmail) ==> r == Decide(old(experiences), old(slots), old(bookings), req, Spell(picks))
      ensures r.Failure? ==> slots == old(slots) && bookings == old(bookings)
      ensures r.Success? ==>
        && bookings == old(bookings) + [r.value]
        && slots == Raise(old(slots), req.slotId, req.quantity)
      ensures forall id :: id in old(slots) ==> id in slots && Drift(slots, bookings, id) == Drift(old(slots), old(bookings), id)
    {
      if !Accepted(req, isUuid, isEmail) {
        return Failure(InvalidRequest(Issues(req, isUuid, isEmail)));
      }
      r := Transact(req, picks);
    }

    /**
     * The body of the database transaction: find the slot, check the seats
     * left, price the booking, insert it, raise the slot's booked count;
     * on any failure nothing is written.
     */
    method Transact(req: BookingRequest, picks: seq<nat>) returns (r: Result<Booking, BookingError>)
      requires Valid() && ValidPicks(picks)
      requires MinQuantity <= req.quantity <= MaxQuantity
      modifies this
      ensures Valid() && experiences == old(experiences)
      ensures r == Decide(old(experiences), old(slots), old(bookings), req, Spell(picks))
      ensures r.Failure? ==> slots == old(slots) && bookings == old(bookings)
      ensures r.Success? ==>
        && bookings == old(bookings) + [r.value]
        && slots == Raise(old(slots), req.slotId, req.quantity)
      ensures forall id :: id in old(slots) ==> id in slots && Drift(slots, bookings, id) == Drift(old(slots), old(bookings), id)
    {
      if req.slotId !in slots {
        return Failure(SlotNotFound);
      }
      var slot := slots[req.slotId];
      var availableSeats := slot.capacity - slot.bookedCount;
      if availableSeats < req.quantity {
        return Failure(NotEnoughSeats(availableSeats));
      }
      var quote := PriceBooking(experiences[slot.experienceId].price, req.quantity, req.promoCode);
      if !AmountsFit(quote) {
        return Failure(AmountOutOfRange);
      }
      var referenceId := GenerateReferenceId(picks);
      if ReferenceInUse(bookings, referenceId) {
        return Failure(ReferenceTaken);
      }
      var booking := Booking(req.slotId, req.userName, req.userEmail, StoredPromo(req.promoCode),
                             req.quantity, quote.subtotal, quote.taxes, quote.discount, quote.total,
                             referenceId, Confirmed);
      BookingKeepsDrift(slots, bookings, booking);
      AppendKeepsWellFormed(slots.Keys, bookings, booking);
      RaiseKeepsWellFormed(experiences, slots, req.slotId, req.quantity);
      bookings := bookings + [booking];
      slots := Raise(slots, req.slotId, req.quantity);
      return Success(booking);
    }
  }

  /**
   * Capacity 8 with 6 booked: two seats succeed and fill the slot, after
   * which one more seat is refused with "Only 0 seats available".
   */
  lemma FillingScenario()
    ensures var experiences := map["e1" := Experience("Kayaking", "Udupi", 999, "Adventure")];
      var slots := map["s1" := Slot("e1", "2025-10-22", "07:00 am", 8, 6)];
      var first := Decide(experiences, slots, [], BookingRequest("s1", 2, "Asha", "asha@example.com", None), "AB12CD34");
      var filled := Raise(slots, "s1", 2);
      && first.Success?
      && first.value.total == 2 * 999 + 120
      && filled["s1"].bookedCount == filled["s1"].capacity == 8
      && Decide(experiences, filled, [first.value], BookingRequest("s1", 1, "Ravi", "ravi@example.com", None), "ZZ99ZZ99")
         == Failure(NotEnoughSeats(0))
  {
    var slots := map["s1" := Slot("e1", "2025-10-22", "07:00 am", 8, 6)];
    assert !ReferenceInUse([], "AB12CD34");
    assert PriceBooking(999, 2, None) == Quote(1998, 120, 0, 2118);
    assert Available(Raise(slots, "s1", 2)["s1"]) == 0;
  }

  /**
   * One seat at the largest price the `Int` column holds: the taxes push the
   * total past 32 bits, so the insert fails and nothing is written.
   */
  lemma OverflowingTotalRefused()
    ensures var experiences := map["e1" := Experience("Kayaking", "Udupi", MaxInt32, "Adventure")];
      var slots := map["s1" := Slot("e1", "2025-10-22", "07:00 am", 8, 0)];
      && PriceBooking(MaxInt32, 1, None).total == 2276332666
      && Decide(experiences, slots, [], BookingRequest("s1", 1, "Asha", "asha@example.com", None), "AB12CD34")
         == Failure(AmountOutOfRange)
  {
    assert Taxes(MaxInt32) == 128849019;
  }
}
