/**
 * The guest checkout and the owner's create: sweep, quote, refuse or insert, as one transaction.
 */
module BookingService {
  import opened Options
  import opened Bookings
  import opened Tables
  import opened Ledger
  import opened LedgerService
  import Availability
  import Pricing

  datatype RefusalReason = Overlaps | BelowMinStay | TooManyGuests | NotOnOffer

  /** `Broken` is the failure of a price no client could read. */
  datatype Outcome =
    | Booked(wish: Wish, nights: int)
    | Refusing(reasons: seq<RefusalReason>)
    | PaymentsNotConfigured
    | NoUnit
    | Broken

  /** A walk-in, at a price agreed with the guest or at the quote, or a block. */
  datatype OwnerKind = OwnerWalkIn(agreed: Option<nat>) | OwnerBlock

  /** Every booking's unit belongs to the booking's tenant: the composite foreign key. */
  ghost predicate UnitsOwn(rows: Rows, units: map<nat, Availability.Unit>) {
    forall k | k in rows :: rows[k].unit in units && units[rows[k].unit].tenant == rows[k].tenant
  }

  /** The table the quote looks at: the unit's lapsed holds swept. */
  function Swept(db: Tables, tenant: nat, unit: nat): Rows {
    Expire(db.rows, UnitLapsed(db.rows, tenant, unit, db.now))
  }

  /** A night of the window is taken once the unit's lapsed holds are swept. */
  ghost predicate NightTaken(db: Tables, tenant: nat, unit: nat, checkIn: int, checkOut: int) {
    exists n | checkIn <= n < checkOut :: Availability.Taken(Swept(db, tenant, unit), tenant, unit, n)
  }

  /**
   * A night is taken for a new booking by a paid stay, or by a hold of the unit that has not lapsed by now.
   */
  lemma NightTakenIff(db: Tables, tenant: nat, unit: nat, checkIn: int, checkOut: int)
    requires StaysNonEmpty(db.rows) && checkIn < checkOut
    ensures NightTaken(db, tenant, unit, checkIn, checkOut) <==> exists k | k in db.rows ::
              var b := db.rows[k];
              && b.tenant == tenant && b.unit == unit && b.checkIn < checkOut && checkIn < b.checkOut
              && (b.status == Confirmed
                  || (b.status == PendingPayment && (b.holdExpires.None? || db.now <= b.holdExpires.value)))
  {
    var swept := Swept(db, tenant, unit);
    if NightTaken(db, tenant, unit, checkIn, checkOut) {
      var n :| checkIn <= n < checkOut && Availability.Taken(swept, tenant, unit, n);
      Availability.TakenIff(swept, tenant, unit, n);
      var k :| && k in swept && swept[k].tenant == tenant && swept[k].unit == unit
               && (swept[k].status == PendingPayment || swept[k].status == Confirmed)
               && swept[k].checkIn <= n < swept[k].checkOut;
      assert k in db.rows && swept[k] == db.rows[k];
    }
    if k :| && k in db.rows && db.rows[k].tenant == tenant && db.rows[k].unit == unit
            && db.rows[k].checkIn < checkOut && checkIn < db.rows[k].checkOut
            && (db.rows[k].status == Confirmed
                || (db.rows[k].status == PendingPayment
                    && (db.rows[k].holdExpires.None? || db.now <= db.rows[k].holdExpires.value))) {
      var n := Pricing.Max(checkIn, db.rows[k].checkIn);
      assert swept[k] == db.rows[k];
      Availability.TakenIff(swept, tenant, unit, n);
    }
  }

  lemma SweptStays(db: Tables, tenant: nat, unit: nat, units: map<nat, Availability.Unit>)
    requires StaysNonEmpty(db.rows) && UnitsOwn(db.rows, units)
    ensures StaysNonEmpty(Swept(db, tenant, unit)) && UnitsOwn(Swept(db, tenant, unit), units)
  {
  }

  /** A window with no taken night is one the constraint takes: the re-check and the insert agree. */
  lemma QuotedFreeIsAccepted(db: Tables, units: map<nat, Availability.Unit>, w: Wish)
    requires StaysNonEmpty(db.rows) && UnitsOwn(db.rows, units) && Direct(w.id) !in db.rows && w.checkIn < w.checkOut
    requires w.unit in units && units[w.unit].tenant == w.tenant
    ensures Refused(Swept(db, w.tenant, w.unit), Direct(w.id), Row(w, db.now))
            <==> NightTaken(db, w.tenant, w.unit, w.checkIn, w.checkOut)
  {
    SweptStays(db, w.tenant, w.unit, units);
    Availability.FreeIffAccepted(Swept(db, w.tenant, w.unit), w.tenant, Row(w, db.now), Direct(w.id));
  }

  /**
   * The guest's checkout. A tenant that cannot take payments sells nothing. Otherwise booked exactly when the unit is
   * on offer, every night is free, the stay is long enough and the party fits, at the nightly price; or every reason
   * at once and nothing changed, the sweep included.
   */
  method CreatePublicBooking(store: Store, units: map<nat, Availability.Unit>, overrides: seq<Availability.Override>,
                             payable: bool, tenant: nat, unit: nat, checkIn: int, checkOut: int, guests: int, id: nat)
    returns (r: Outcome)
    requires checkIn < checkOut && Direct(id) !in store.rows
    requires StaysNonEmpty(store.rows) && UnitsOwn(store.rows, units) && Availability.OverridesHold(overrides)
    modifies store`rows
    ensures r.NoUnit? <==> unit !in units || units[unit].tenant != tenant
    ensures r.PaymentsNotConfigured? <==> !r.NoUnit? && !payable
    ensures !r.Booked? ==> store.Db() == old(store.Db())
    ensures r.Refusing? && units[unit].archived ==> r.reasons == [NotOnOffer]
    ensures r.Refusing? && !units[unit].archived ==>
              && r.reasons != [] && NotOnOffer !in r.reasons
              && r.reasons == (if NightTaken(old(store.Db()), tenant, unit, checkIn, checkOut) then [Overlaps] else [])
                              + (if checkOut - checkIn < units[unit].minStay then [BelowMinStay] else [])
                              + (if guests > units[unit].maxGuests then [TooManyGuests] else [])
    ensures r.Booked? ==>
              && !units[unit].archived && !NightTaken(old(store.Db()), tenant, unit, checkIn, checkOut)
              && checkOut - checkIn >= units[unit].minStay && guests <= units[unit].maxGuests
              && r.nights == checkOut - checkIn && r.wish.kind.Hold?
              && r.wish.kind.total ==
                 Pricing.NightlySum(units[unit].basePrice, Availability.SpansOf(overrides, tenant, unit),
                                    checkIn, checkOut)
              && r.wish == Wish(id, tenant, unit, checkIn, checkOut, r.wish.kind)
              && State(store.Db(), map[]) ==
                 Run(State(old(store.Db()), map[]), WriteSteps(r.wish, true))
              && Direct(id) in store.rows
    ensures r.Booked? ==>
              && store.rows.Keys == old(store.rows).Keys + {Direct(id)}
              && forall k | k in old(store.rows) ::
                   var b := old(store.rows)[k];
                   store.rows[k] == if && b.tenant == tenant && b.unit == unit && b.status == PendingPayment
                                       && b.holdExpires.Some? && b.holdExpires.value < store.now
                                    then b.(status := Expired) else b
    ensures r.Booked? ==>
              store.rows[Direct(id)]
              == Booking(tenant, unit, DirectSale, PendingPayment, checkIn, checkOut, Some(r.wish.kind.total),
                         Some(store.now + 15 * 60_000))
    ensures !r.NoUnit? && payable && !units[unit].archived ==>
              (r.Broken? <==>
               !(0 <= Pricing.NightlySum(units[unit].basePrice, Availability.SpansOf(overrides, tenant, unit),
                                                checkIn, checkOut)
                         <= 9_007_199_254_740_991))
    ensures r.Broken? ==> !r.NoUnit? && payable && !units[unit].archived
    ensures !r.NoUnit? && 0 <= units[unit].basePrice <= 1_000_000_000 && checkOut - checkIn <= 366 ==> !r.Broken?
  {
    if unit !in units || units[unit].tenant != tenant {
      return NoUnit;
    }
    if !payable {
      return PaymentsNotConfigured;
    }
    var q := SweepAndQuote(store, units, overrides, tenant, unit, checkIn, checkOut);
    if q.NotRupiah? {
      return Broken;
    }
    if q.Archived? {
      return Refusing([NotOnOffer]);
    }
    var reasons := [];
    if Availability.Overlap in q.response.reasons {
      reasons := reasons + [Overlaps];
    }
    if Availability.MinStay in q.response.reasons {
      reasons := reasons + [BelowMinStay];
    }
    if guests > units[unit].maxGuests {
      reasons := reasons + [TooManyGuests];
    }
    if reasons != [] {
      return Refusing(reasons);
    }
    hide Run, Refused, WriteSteps, Pricing.NightlySum, Availability.SpansOf, StaysNonEmpty, UnitsOwn;
    var w := Wish(id, tenant, unit, checkIn, checkOut, Hold(q.response.total));
    QuotedFreeIsAccepted(store.Db(), units, w);
    var created := store.CreateBooking(w, true);
    return Booked(w, q.response.nights);
  }

  /** The owner's create obeys the calendar and nothing else: neither the minimum stay nor the party size. */
  method CreateOwnerBooking(store: Store, units: map<nat, Availability.Unit>, overrides: seq<Availability.Override>,
                            tenant: nat, unit: nat, checkIn: int, checkOut: int, kind: OwnerKind, id: nat)
    returns (r: Outcome)
    requires checkIn < checkOut && Direct(id) !in store.rows
    requires StaysNonEmpty(store.rows) && UnitsOwn(store.rows, units) && Availability.OverridesHold(overrides)
    modifies store`rows
    ensures r.NoUnit? <==> unit !in units || units[unit].tenant != tenant
    ensures !r.PaymentsNotConfigured?
    ensures !r.Booked? ==> store.Db() == old(store.Db())
    ensures r.Refusing? ==> r.reasons == if units[unit].archived then [NotOnOffer] else [Overlaps]
    ensures r.Refusing? ==> units[unit].archived || NightTaken(old(store.Db()), tenant, unit, checkIn, checkOut)
    ensures r.Booked? ==>
              && !units[unit].archived && !NightTaken(old(store.Db()), tenant, unit, checkIn, checkOut)
              && r.nights == checkOut - checkIn
              && r.wish == Wish(id, tenant, unit, checkIn, checkOut, r.wish.kind)
              && (kind.OwnerBlock? <==> r.wish.kind == Block) && !r.wish.kind.Hold?
              && (kind.OwnerWalkIn? ==>
                    r.wish.kind.total == if kind.agreed.Some? then kind.agreed.value
                                         else Pricing.NightlySum(units[unit].basePrice,
                                                                 Availability.SpansOf(overrides, tenant, unit),
                                                                 checkIn, checkOut))
              && State(store.Db(), map[]) ==
                 Run(State(old(store.Db()), map[]), WriteSteps(r.wish, true))
              && Direct(id) in store.rows
    ensures r.Booked? ==>
              && store.rows.Keys == old(store.rows).Keys + {Direct(id)}
              && forall k | k in old(store.rows) ::
                   var b := old(store.rows)[k];
                   store.rows[k] == if && b.tenant == tenant && b.unit == unit && b.status == PendingPayment
                                       && b.holdExpires.Some? && b.holdExpires.value < store.now
                                    then b.(status := Expired) else b
    ensures r.Booked? ==>
              store.rows[Direct(id)]
              == match kind
                 case OwnerBlock => Booking(tenant, unit, ManualBlock, Confirmed, checkIn, checkOut, None, None)
                 case OwnerWalkIn(_) =>
                   Booking(tenant, unit, DirectSale, Confirmed, checkIn, checkOut, Some(r.wish.kind.total), None)
    ensures !r.NoUnit? && !units[unit].archived ==>
              (r.Broken? <==>
               !(0 <= Pricing.NightlySum(units[unit].basePrice, Availability.SpansOf(overrides, tenant, unit),
                                                checkIn, checkOut)
                         <= 9_007_199_254_740_991))
    ensures r.Broken? ==> !r.NoUnit? && !units[unit].archived
    ensures !r.NoUnit? && 0 <= units[unit].basePrice <= 1_000_000_000 && checkOut - checkIn <= 366 ==> !r.Broken?
  {
    var q := SweepAndQuote(store, units, overrides, tenant, unit, checkIn, checkOut);
    if q.NotFound? {
      return NoUnit;
    }
    if q.NotRupiah? {
      return Broken;
    }
    if q.Archived? {
      return Refusing([NotOnOffer]);
    }
    if Availability.Overlap in q.response.reasons {
      return Refusing([Overlaps]);
    }
    var price: WishKind := match kind
      case OwnerBlock => Block
      case OwnerWalkIn(agreed) => WalkIn(if agreed.Some? then agreed.value else q.response.total);
    var w := Wish(id, tenant, unit, checkIn, checkOut, price);
    QuotedFreeIsAccepted(store.Db(), units, w);
    var created := store.CreateBooking(w, true);
    return Booked(w, q.response.nights);
  }

  /** The quote on the swept table; the sweep itself is only kept by the insert that follows. */
  method SweepAndQuote(store: Store, units: map<nat, Availability.Unit>, overrides: seq<Availability.Override>,
                       tenant: nat, unit: nat, checkIn: int, checkOut: int) returns (q: Availability.QuoteOutcome)
    requires checkIn < checkOut && StaysNonEmpty(store.rows) && UnitsOwn(store.rows, units)
    requires Availability.OverridesHold(overrides)
    ensures q.NotFound? <==> unit !in units || units[unit].tenant != tenant
    ensures !q.NotFound? ==> (q.Archived? <==> units[unit].archived)
    ensures q.Quoted? ==>
              && q.response.nights == checkOut - checkIn
              && q.response.total == Pricing.NightlySum(units[unit].basePrice,
                                                        Availability.SpansOf(overrides, tenant, unit), checkIn,
                                                        checkOut)
              && 0 <= q.response.total
              && (Availability.Overlap in q.response.reasons
                  <==> NightTaken(store.Db(), tenant, unit, checkIn, checkOut))
              && (Availability.MinStay in q.response.reasons <==> checkOut - checkIn < units[unit].minStay)
    ensures !q.NotFound? && !q.Archived? ==>
              (q.NotRupiah? <==>
               !(0 <= Pricing.NightlySum(units[unit].basePrice, Availability.SpansOf(overrides, tenant, unit),
                                                checkIn, checkOut)
                         <= 9_007_199_254_740_991))
    ensures !q.NotFound? && 0 <= units[unit].basePrice <= 1_000_000_000 && checkOut - checkIn <= 366 ==>
              !q.NotRupiah?
  {
    SweptStays(store.Db(), tenant, unit, units);
    q := Availability.Quote(Swept(store.Db(), tenant, unit), units, overrides, tenant, unit, checkIn, checkOut);
  }
}
