/**
 * Booking rows and the one constraint every writer answers to.
 *
 * A row imported from a feed is addressed by (connection, UID), the pair the partial unique index
 * `booking_external_uid_uniq` makes unique; every other row by its own id. Stays are half-open
 * ranges of day numbers (module Calendar relates day numbers to `YYYY-MM-DD` strings).
 */
module Bookings {
  import opened Options

  datatype Status = PendingPayment | Confirmed | Cancelled | Expired

  datatype Source = DirectSale | Airbnb | BookingCom | Vrbo | ManualBlock

  datatype Key = Direct(id: nat) | Imported(conn: nat, uid: string)

  datatype Booking = Booking(
    tenant: nat,
    unit: nat,
    source: Source,
    status: Status,
    checkIn: int,
    checkOut: int,
    price: Option<nat>,
    holdExpires: Option<int>)

  type Rows = map<Key, Booking>

  /** The statuses that hold a unit's calendar. */
  predicate Occupying(b: Booking) {
    b.status == PendingPayment || b.status == Confirmed
  }

  /** Night n belongs to the stay; the check-out day does not. */
  predicate HasNight(b: Booking, n: int) {
    b.checkIn <= n < b.checkOut
  }

  /** `daterange(check_in, check_out, '[)') && daterange(...)` on non-empty ranges. */
  predicate RangesOverlap(a: Booking, b: Booking) {
    a.checkIn < b.checkOut && b.checkIn < a.checkOut
  }

  /** Row k is in the way of storing b under another key. */
  predicate Blocks(rows: Rows, k: Key, b: Booking) {
    k in rows && Occupying(rows[k]) && rows[k].unit == b.unit && RangesOverlap(rows[k], b)
  }

  /** `booking_no_overlap` refuses to store the occupying row b under `key`. */
  predicate Refused(rows: Rows, key: Key, b: Booking) {
    exists k | k in rows :: k != key && Blocks(rows, k, b)
  }

  /** The `booking_stay_nonempty` check on every row. */
  ghost predicate StaysNonEmpty(rows: Rows) {
    forall k | k in rows :: rows[k].checkIn < rows[k].checkOut
  }

  /** What the exclusion constraint keeps true of the table. */
  ghost predicate Exclusive(rows: Rows) {
    forall k, j | k in rows && j in rows && k != j && Occupying(rows[j]) :: !Blocks(rows, k, rows[j])
  }

  ghost predicate ValidRows(rows: Rows) {
    StaysNonEmpty(rows) && Exclusive(rows)
  }

  /** No night of a unit is sold twice: the constraint said night by night. */
  ghost predicate NoNightSoldTwice(rows: Rows) {
    forall k, j, n |
      && k in rows && j in rows && k != j
      && Occupying(rows[k]) && Occupying(rows[j]) && rows[k].unit == rows[j].unit
      && HasNight(rows[k], n) ::
      !HasNight(rows[j], n)
  }

  /** On non-empty stays the range test of the constraint is exactly "no shared night". */
  lemma ExclusiveMeansNoNightSoldTwice(rows: Rows)
    requires StaysNonEmpty(rows)
    ensures Exclusive(rows) <==> NoNightSoldTwice(rows)
  {
    if NoNightSoldTwice(rows) {
      forall k, j | k in rows && j in rows && k != j && Occupying(rows[j])
        ensures !Blocks(rows, k, rows[j])
      {
        var n := if rows[k].checkIn < rows[j].checkIn then rows[j].checkIn else rows[k].checkIn;
        assert Blocks(rows, k, rows[j]) ==> HasNight(rows[k], n) && HasNight(rows[j], n);
      }
    }
  }

  /** Storing a row the constraint accepts keeps the table valid. */
  lemma StoreKeepsValid(rows: Rows, key: Key, b: Booking)
    requires ValidRows(rows)
    requires b.checkIn < b.checkOut
    requires Occupying(b) ==> !Refused(rows, key, b)
    ensures ValidRows(rows[key := b])
  {
  }

  /** `after` is `before` with some rows taken off the calendar and nothing else about stays changed. */
  ghost predicate OnlyFrees(before: Rows, after: Rows) {
    && after.Keys == before.Keys
    && forall k | k in before ::
         && after[k].unit == before[k].unit
         && after[k].checkIn == before[k].checkIn
         && after[k].checkOut == before[k].checkOut
         && (Occupying(after[k]) ==> Occupying(before[k]))
  }

  /** Freeing nights never needs the constraint's permission. */
  lemma FreeingKeepsValid(before: Rows, after: Rows)
    requires ValidRows(before) && OnlyFrees(before, after)
    ensures ValidRows(after)
  {
  }
}
