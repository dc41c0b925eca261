/**
 * Bookings and payments under concurrency: committed tables, open transactions with their row locks, and one
 * action per statement or commit. A step that would have to wait for a row lock leaves the state as it is.
 */
module Ledger {
  import opened Options
  import opened Bookings
  import opened Tables
  import Reconcile

  /** A row a checkout or an owner write wants to insert. */
  datatype Wish = Wish(id: nat, tenant: nat, unit: nat, checkIn: int, checkOut: int, kind: WishKind)

  /** A guest's hold at the quoted price, a walk-in at a price, or a block. */
  datatype WishKind = Hold(total: nat) | WalkIn(total: nat) | Block

  /** `property_deposit_pct_range`: a whole percentage from 1 to 100. */
  type Percent = n: nat | 1 <= n <= 100 witness 100

  /**
   * A checkout or owner write that has begun, has swept its unit, has re-checked its window; a pay step that has begun,
   * holds its booking, is at the gateway.
   */
  datatype Tx =
    | Begun(began: int, wish: Wish)
    | Cleared(began: int, wish: Wish, swept: set<Key>)
    | Writing(began: int, wish: Wish, swept: set<Key>)
    | Paying(began: int, booking: Key)
    | Locked(began: int, booking: Key, pct: Percent)
    | Minting(began: int, booking: Key, pct: Percent, swept: set<Key>)

  datatype State = State(db: Tables, txs: map<nat, Tx>)

  datatype Fate = Commit | CommitThenCrash | Crash

  datatype Action =
    | BeginWrite(t: nat, wish: Wish)
    | Sweep(t: nat)
    | Recheck(t: nat, welcome: bool)
    | Insert(t: nat)
    | BeginPay(t: nat, booking: Key)
    | Lock(t: nat, pct: Percent)
    | Check(t: nat)
    | Mint(t: nat, order: nat, session: string)
    | Abort(t: nat)
    | Deliver(event: ProviderEvent, fate: Fate)
    | CancelBooking(tenant: nat, booking: Key)
    | SweepUnit(tenant: nat, unit: nat, began: int)
    | SweepAll(began: int)
    | MarkHandled(tenant: nat, payment: nat)
    | Pull(conn: Reconcile.Connection, events: seq<Reconcile.Event>, faulted: set<nat>)
    | Tick(elapsed: nat)

  // ---- Locks ------------------------------------------------------------------------------------------

  function Held(tx: Tx): set<Key> {
    match tx
    case Begun(_, _) => {}
    case Cleared(_, _, swept) => swept
    case Writing(_, _, swept) => swept
    case Paying(_, _) => {}
    case Locked(_, k, _) => {k}
    case Minting(_, k, _, swept) => swept + {k}
  }

  /** Some transaction other than t holds row k. */
  predicate Busy(txs: map<nat, Tx>, t: nat, k: Key) {
    exists u | u in txs :: u != t && k in Held(txs[u])
  }

  predicate AnyBusy(txs: map<nat, Tx>, t: nat, keys: set<Key>) {
    exists k | k in keys :: Busy(txs, t, k)
  }

  /** Row k is locked by some transaction: what a step that is its own transaction waits for. */
  predicate LockedRow(txs: map<nat, Tx>, k: Key) {
    exists u | u in txs :: k in Held(txs[u])
  }

  predicate AnyLocked(txs: map<nat, Tx>, keys: set<Key>) {
    exists k | k in keys :: LockedRow(txs, k)
  }

  // ---- Writes -----------------------------------------------------------------------------------------

  /** The row a wish inserts; a hold expires its time to live after the transaction began. */
  function Row(w: Wish, began: int): Booking {
    match w.kind
    case Hold(total) =>
      Booking(w.tenant, w.unit, DirectSale, PendingPayment, w.checkIn, w.checkOut, Some(total), Some(began + HOLD_TTL))
    case WalkIn(total) =>
      Booking(w.tenant, w.unit, DirectSale, Confirmed, w.checkIn, w.checkOut, Some(total), None)
    case Block =>
      Booking(w.tenant, w.unit, ManualBlock, Confirmed, w.checkIn, w.checkOut, None, None)
  }

  /** A transaction's clock is the one it began with. */
  function DoBeginWrite(s: State, t: nat, w: Wish): State {
    if t in s.txs then s else s.(txs := s.txs[t := Begun(s.db.now, w)])
  }

  /** Sweep the unit's lapsed holds; it waits for any that is locked. */
  function DoSweepOwn(s: State, t: nat): State {
    if t !in s.txs || !s.txs[t].Begun? then s
    else
      var tx := s.txs[t];
      var swept := UnitLapsed(s.db.rows, tx.wish.tenant, tx.wish.unit, tx.began);
      if AnyBusy(s.txs, t, swept) then s else s.(txs := s.txs[t := Cleared(tx.began, tx.wish, swept)])
  }

  /** Re-check the window, own sweep included; a refusal throws, and the sweep goes with it. */
  function DoRecheck(s: State, t: nat, welcome: bool): State {
    if t !in s.txs || !s.txs[t].Cleared? then s
    else
      var tx := s.txs[t];
      var w := tx.wish;
      if !welcome || w.checkIn >= w.checkOut
         || Refused(Expire(s.db.rows, tx.swept), Direct(w.id), Row(w, tx.began)) then s.(txs := s.txs - {t})
      else s.(txs := s.txs[t := Writing(tx.began, w, tx.swept)])
  }

  /** The rows a transaction has changed and not yet committed. */
  function Changed(tx: Tx): set<Key> {
    if tx.Cleared? || tx.Writing? || tx.Minting? then tx.swept else {}
  }

  /** A row in the way of the insert is being expired by another transaction: the insert waits for it. */
  predicate MustWait(s: State, t: nat, b: Booking) {
    exists k, u | k in s.db.rows && u in s.txs :: u != t && k in Changed(s.txs[u]) && Blocks(s.db.rows, k, b)
  }

  /** The insert the exclusion constraint arbitrates, and the commit. */
  function DoInsert(s: State, t: nat): State {
    if t !in s.txs || !s.txs[t].Writing? then s
    else
      var tx := s.txs[t];
      var key := Direct(tx.wish.id);
      var b := Row(tx.wish, tx.began);
      var rows := Expire(s.db.rows, tx.swept);
      if MustWait(s, t, b) then s
      else if key in rows || Refused(rows, key, b) then s.(txs := s.txs - {t})
      else State(s.db.(rows := rows[key := b]), s.txs - {t})
  }

  // ---- The pay step, around its row lock --------------------------------------------------------------

  function DoBeginPay(s: State, t: nat, k: Key): State {
    if t in s.txs then s else s.(txs := s.txs[t := Paying(s.db.now, k)])
  }

  function DoLock(s: State, t: nat, pct: Percent): State {
    if t !in s.txs || !s.txs[t].Paying? then s
    else
      var tx := s.txs[t];
      if tx.booking !in s.db.rows then s.(txs := s.txs - {t})
      else if LockedRow(s.txs, tx.booking) then s
      else s.(txs := s.txs[t := Locked(tx.began, tx.booking, pct)])
  }

  /** Sweep, read the status, look for an open session: refuse, reuse, or go on to the gateway. */
  function DoCheck(s: State, t: nat): State {
    if t !in s.txs || !s.txs[t].Locked? then s
    else
      var tx := s.txs[t];
      if tx.booking !in s.db.rows then s.(txs := s.txs - {t})
      else
        var b := s.db.rows[tx.booking];
        var swept := UnitLapsed(s.db.rows, b.tenant, b.unit, tx.began);
        if AnyBusy(s.txs, t, swept) then s
        else if tx.booking in swept || b.status != PendingPayment || b.price == None then s.(txs := s.txs - {t})
        else if OpenSession(s.db.payments, tx.booking) then
          State(s.db.(rows := Expire(s.db.rows, swept)), s.txs - {t})
        else s.(txs := s.txs[t := Minting(tx.began, tx.booking, tx.pct, swept)])
  }

  /** The gateway answered: insert the payment row and commit. */
  function DoMint(s: State, t: nat, order: nat, session: string): State {
    if t !in s.txs || !s.txs[t].Minting? then s
    else
      var tx := s.txs[t];
      if order in s.db.payments || tx.booking !in s.db.rows || s.db.rows[tx.booking].price == None then
        s.(txs := s.txs - {t})
      else
        var amount := Deposit(s.db.rows[tx.booking].price.value, tx.pct);
        State(s.db.(rows := Expire(s.db.rows, tx.swept),
                    payments := s.db.payments[order := Payment(tx.booking, amount, Pending, None, session)]),
              s.txs - {t})
  }

  // ---- Everything else is one transaction -------------------------------------------------------------

  /** A crash before the commit rolls back the event with its effect; one after it only loses the notice. */
  function DoDeliver(s: State, e: ProviderEvent, fate: Fate): State {
    if fate == Crash || (Flips(s.db, e) && LockedRow(s.txs, s.db.payments[e.order].booking)) then s
    else s.(db := Delivered(s.db, e, fate == Commit))
  }

  function DoCancel(s: State, tenant: nat, k: Key): State {
    if LockedRow(s.txs, k) then s else s.(db := s.db.(rows := Cancel(s.db.rows, tenant, k)))
  }

  /** A sweep of its own that began at some time up to now. */
  function DoSweep(s: State, began: int, lapsed: set<Key>): State {
    if began > s.db.now || AnyLocked(s.txs, lapsed) then s else s.(db := s.db.(rows := Expire(s.db.rows, lapsed)))
  }

  /** Event i of the pull would meet a row that an open transaction is expiring. */
  predicate MeetsExpiring(s: State, conn: Reconcile.Connection, events: seq<Reconcile.Event>, faulted: set<nat>, i: nat)
    requires i < |events|
  {
    var rows := Reconcile.RowsAfter(s.db.rows, conn, events, faulted, i);
    exists k, u | k in rows && u in s.txs ::
      k in Changed(s.txs[u]) && Blocks(rows, k, Reconcile.Landing(rows, conn, events[i]))
  }

  /** The pull waits for a row of its own that is locked, and for a row in an event's way that is being expired. */
  predicate PullWaits(s: State, conn: Reconcile.Connection, events: seq<Reconcile.Event>, faulted: set<nat>) {
    || AnyLocked(s.txs, set k | k in s.db.rows && k.Imported? && k.conn == conn.id)
    || exists i | 0 <= i < |events| :: i !in faulted && MeetsExpiring(s, conn, events, faulted, i)
  }

  /** One healthy pull of a feed (module Reconcile). */
  function DoPull(s: State, conn: Reconcile.Connection, events: seq<Reconcile.Event>, faulted: set<nat>): State {
    if PullWaits(s, conn, events, faulted) then s
    else s.(db := s.db.(rows := Reconcile.PullRows(s.db.rows, conn, events, faulted)))
  }

  function Do(s: State, a: Action): State {
    match a
    case BeginWrite(t, wish) => DoBeginWrite(s, t, wish)
    case Sweep(t) => DoSweepOwn(s, t)
    case Recheck(t, welcome) => DoRecheck(s, t, welcome)
    case Insert(t) => DoInsert(s, t)
    case BeginPay(t, k) => DoBeginPay(s, t, k)
    case Lock(t, pct) => DoLock(s, t, pct)
    case Check(t) => DoCheck(s, t)
    case Mint(t, order, session) => DoMint(s, t, order, session)
    case Abort(t) => s.(txs := s.txs - {t})
    case Deliver(e, fate) => DoDeliver(s, e, fate)
    case CancelBooking(tenant, k) => DoCancel(s, tenant, k)
    case SweepUnit(tenant, unit, began) => DoSweep(s, began, UnitLapsed(s.db.rows, tenant, unit, began))
    case SweepAll(began) => DoSweep(s, began, AllLapsed(s.db.rows, began))
    case MarkHandled(tenant, p) => s.(db := Handle(s.db, tenant, p))
    case Pull(conn, events, faulted) => DoPull(s, conn, events, faulted)
    case Tick(elapsed) => s.(db := s.db.(now := s.db.now + elapsed))
  }

  function Run(s: State, actions: seq<Action>): State {
    if actions == [] then s else Do(Run(s, actions[..|actions| - 1]), actions[|actions| - 1])
  }

  const EMPTY := State(Tables(map[], map[], [], [], 0), map[])
}
