/**
 * The booking and payment tables, and what each statement or single-transaction service call does to them.
 */
module Tables {
  import opened Options
  import opened Bookings

  /** A hold's time to live: fifteen minutes, in milliseconds. */
  const HOLD_TTL: int := 15 * 60_000

  datatype PayStatus = Pending | Paid | Failed

  /** A payment row; its id is the provider's order id, `session` what the provider gave back for it. */
  datatype Payment = Payment(booking: Key, amount: nat, status: PayStatus, handledAt: Option<int>, session: string)

  /** What the provider's status means; InFlight and Ignored change nothing. */
  datatype Outcome = Settlement | Failure | InFlight | Ignored

  /** A verified provider event; the id determines the event. */
  datatype ProviderEvent = ProviderEvent(id: nat, order: nat, gross: int, outcome: Outcome)

  /** The tables; `recorded` holds the provider events in the order they were recorded. */
  datatype Tables = Tables(
    rows: Rows,
    payments: map<nat, Payment>,
    recorded: seq<ProviderEvent>,
    notices: seq<Key>,
    now: int)

  // ---- Sweeps -----------------------------------------------------------------------------------------

  predicate Lapsed(b: Booking, now: int) {
    b.status == PendingPayment && b.holdExpires.Some? && b.holdExpires.value < now
  }

  /** The lapsed holds of one unit: what the in-transaction sweep expires. */
  function UnitLapsed(rows: Rows, tenant: nat, unit: nat, now: int): set<Key> {
    set k | k in rows && rows[k].unit == unit && rows[k].tenant == tenant && Lapsed(rows[k], now)
  }

  /** Every lapsed hold: what the cron expires. */
  function AllLapsed(rows: Rows, now: int): set<Key> {
    set k | k in rows && Lapsed(rows[k], now)
  }

  function Expire(rows: Rows, keys: set<Key>): Rows {
    map k | k in rows :: if k in keys then rows[k].(status := Expired) else rows[k]
  }

  // ---- Cancelling -------------------------------------------------------------------------------------

  /** The guarded UPDATE of a cancel matches. */
  predicate Cancellable(rows: Rows, tenant: nat, k: Key) {
    k in rows && rows[k].tenant == tenant && Occupying(rows[k])
  }

  function Cancel(rows: Rows, tenant: nat, k: Key): Rows {
    if Cancellable(rows, tenant, k) then rows[k := rows[k].(status := Cancelled)] else rows
  }

  // ---- Provider events --------------------------------------------------------------------------------

  predicate Matches(db: Tables, e: ProviderEvent) {
    e.order in db.payments && e.gross == db.payments[e.order].amount
  }

  /** Applying e flips its booking from `pending_payment` to `confirmed`. */
  predicate Flips(db: Tables, e: ProviderEvent) {
    && Matches(db, e) && e.outcome == Settlement
    && db.payments[e.order].booking in db.rows
    && db.rows[db.payments[e.order].booking].status == PendingPayment
  }

  /** `pending → paid` or `pending → failed`; every other status stays. */
  function Verdict(s: PayStatus, outcome: Outcome): PayStatus {
    if s == Pending && outcome == Settlement then Paid
    else if s == Pending && outcome == Failure then Failed
    else s
  }

  function ApplyOutcome(db: Tables, e: ProviderEvent): Tables
    requires e.order in db.payments
  {
    if !Matches(db, e) then db
    else
      var pay := db.payments[e.order];
      var rows := if Flips(db, e) then db.rows[pay.booking := db.rows[pay.booking].(status := Confirmed)] else db.rows;
      db.(payments := db.payments[e.order := pay.(status := Verdict(pay.status, e.outcome))], rows := rows)
  }

  /** `payment_event_provider_event_uniq` would refuse the event. */
  predicate Recorded(db: Tables, id: nat) {
    exists e | e in db.recorded :: e.id == id
  }

  /** One delivery, pushed or pulled: a known order's new event is recorded and applied; the notice follows a flip. */
  function Delivered(db: Tables, e: ProviderEvent, notify: bool): Tables {
    if e.order !in db.payments || Recorded(db, e.id) then db
    else
      var after := ApplyOutcome(db.(recorded := db.recorded + [e]), e);
      if Flips(db, e) && notify then after.(notices := after.notices + [db.payments[e.order].booking]) else after
  }

  // ---- The pay step -----------------------------------------------------------------------------------

  /** The deposit share, floored. */
  function Deposit(total: nat, pct: nat): nat {
    total * pct / 100
  }

  predicate OpenSession(payments: map<nat, Payment>, k: Key) {
    exists p | p in payments :: payments[p].booking == k && payments[p].status == Pending
  }

  // ---- The paid-but-lapsed inbox ----------------------------------------------------------------------

  predicate LapsedStatus(s: Status) {
    s == Expired || s == Cancelled
  }

  /** A paid payment whose booking no longer holds its dates. */
  predicate LapsedPaid(db: Tables, tenant: nat, p: nat) {
    && p in db.payments && db.payments[p].status == Paid
    && db.payments[p].booking in db.rows
    && db.rows[db.payments[p].booking].tenant == tenant
    && LapsedStatus(db.rows[db.payments[p].booking].status)
  }

  predicate InInbox(db: Tables, tenant: nat, p: nat) {
    LapsedPaid(db, tenant, p) && db.payments[p].handledAt == None
  }

  function Handle(db: Tables, tenant: nat, p: nat): Tables {
    if InInbox(db, tenant, p) then db.(payments := db.payments[p := db.payments[p].(handledAt := Some(db.now))]) else db
  }
}
