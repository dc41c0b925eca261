/**
 * What every step of the ledger keeps.
 */
module LedgerInvariant {
  import opened Options
  import opened Bookings
  import opened Tables
  import opened Ledger
  import Reconcile
  import Convergence

  // ---- The invariant ----------------------------------------------------------------------------------

  /** Only guest checkouts make a row pending, and they give it a price and an expiry. */
  ghost predicate HoldsShaped(rows: Rows) {
    forall k | k in rows && rows[k].status == PendingPayment ::
        k.Direct? && rows[k].price.Some? && rows[k].holdExpires.Some?
  }

  predicate Active(p: Payment) {
    p.status == Pending || p.status == Paid
  }

  /** The payment charges at most the price of a row that is there, and if it is paid, that row is not pending. */
  ghost predicate Backed(rows: Rows, p: Payment) {
    && p.booking.Direct? && p.booking in rows
    && rows[p.booking].price.Some? && p.amount <= rows[p.booking].price.value
    && (p.status == Paid ==> rows[p.booking].status != PendingPayment)
  }

  ghost predicate AllBacked(db: Tables) {
    forall p | p in db.payments :: Backed(db.rows, db.payments[p])
  }

  /** At most one payment per booking is pending or paid. */
  ghost predicate OneActive(payments: map<nat, Payment>) {
    forall p, q | p in payments && q in payments && Active(payments[p]) && Active(payments[q])
                  && payments[p].booking == payments[q].booking ::
      p == q
  }

  ghost predicate NoActive(payments: map<nat, Payment>, k: Key) {
    forall p | p in payments && payments[p].booking == k :: !Active(payments[p])
  }

  /** Each booking is announced at most once, and only after it has left `pending_payment`. */
  ghost predicate NoticesOk(db: Tables) {
    && (forall i, j | 0 <= i < j < |db.notices| :: db.notices[i] != db.notices[j])
    && (forall k | k in db.notices :: k in db.rows && k.Direct? && db.rows[k].status != PendingPayment)
  }

  ghost predicate TablesOk(db: Tables) {
    && ValidRows(db.rows) && HoldsShaped(db.rows)
    && AllBacked(db) && OneActive(db.payments) && NoticesOk(db)
  }

  /** Rows a transaction has swept are, in the committed table, still holds that had lapsed when it began. */
  ghost predicate StillPending(rows: Rows, swept: set<Key>, began: int) {
    forall k | k in swept :: k in rows && Lapsed(rows[k], began)
  }

  ghost predicate TxOk(db: Tables, tx: Tx) {
    && tx.began <= db.now
    && match tx
       case Begun(_, _) => true
       case Cleared(began, _, swept) => StillPending(db.rows, swept, began)
       case Writing(began, w, swept) => StillPending(db.rows, swept, began) && w.checkIn < w.checkOut
       case Paying(_, _) => true
       case Locked(_, k, _) => k in db.rows
       case Minting(began, k, _, swept) =>
         && StillPending(db.rows, swept, began) && k !in swept
         && k in db.rows && db.rows[k].status == PendingPayment
         && NoActive(db.payments, k)
  }

  ghost predicate LocksApart(txs: map<nat, Tx>) {
    forall t, u | t in txs && u in txs && t != u :: Held(txs[t]) !! Held(txs[u])
  }

  ghost predicate TxsOk(s: State) {
    LocksApart(s.txs) && forall t | t in s.txs :: TxOk(s.db, s.txs[t])
  }

  ghost predicate Inv(s: State) {
    TablesOk(s.db) && TxsOk(s)
  }

  // ---- How rows move ----------------------------------------------------------------------------------

  /** No row disappears, a direct row changes nothing but its status, and nothing becomes pending again. */
  ghost predicate Evolves(rows: Rows, after: Rows) {
    forall k | k in rows ::
      && k in after
      && (k.Direct? ==> after[k] == rows[k].(status := after[k].status))
      && (after[k].status == PendingPayment ==> rows[k].status == PendingPayment)
  }

  lemma EvolvesTrans(a: Rows, b: Rows, c: Rows)
    requires Evolves(a, b) && Evolves(b, c)
    ensures Evolves(a, c)
  {
  }

  lemma ExpireKeeps(rows: Rows, keys: set<Key>)
    requires ValidRows(rows) && HoldsShaped(rows)
    ensures var after := Expire(rows, keys);
            ValidRows(after) && HoldsShaped(after) && Evolves(rows, after)
  {
    FreeingKeepsValid(rows, Expire(rows, keys));
  }

  lemma CancelKeeps(rows: Rows, tenant: nat, k: Key)
    requires ValidRows(rows) && HoldsShaped(rows)
    ensures var after := Cancel(rows, tenant, k);
            ValidRows(after) && HoldsShaped(after) && Evolves(rows, after)
  {
    FreeingKeepsValid(rows, Cancel(rows, tenant, k));
  }

  lemma StoreKeeps(rows: Rows, key: Key, b: Booking)
    requires ValidRows(rows) && HoldsShaped(rows)
    requires key.Direct? && key !in rows && b.checkIn < b.checkOut && !Refused(rows, key, b)
    requires b.status == PendingPayment ==> b.price.Some? && b.holdExpires.Some?
    ensures var after := rows[key := b];
            ValidRows(after) && HoldsShaped(after) && Evolves(rows, after)
  {
    StoreKeepsValid(rows, key, b);
  }

  lemma {:induction false} UpsertsKeep(rows: Rows, conn: Reconcile.Connection, events: seq<Reconcile.Event>,
                                      faulted: set<nat>, i: nat)
    requires ValidRows(rows) && HoldsShaped(rows) && i <= |events|
    ensures var after := Reconcile.RowsAfter(rows, conn, events, faulted, i);
            ValidRows(after) && HoldsShaped(after) && Evolves(rows, after)
  {
    if i > 0 {
      UpsertsKeep(rows, conn, events, faulted, i - 1);
      var before := Reconcile.RowsAfter(rows, conn, events, faulted, i - 1);
      var e := events[i - 1];
      if !Reconcile.Clashes(before, conn, e) {
        UpsertKeeps(before, conn, e);
        EvolvesTrans(rows, before, Reconcile.Upsert(before, conn, e));
      }
    }
  }

  lemma UpsertKeeps(rows: Rows, conn: Reconcile.Connection, e: Reconcile.Event)
    requires ValidRows(rows) && HoldsShaped(rows) && !Reconcile.Clashes(rows, conn, e)
    ensures var after := Reconcile.Upsert(rows, conn, e);
            ValidRows(after) && HoldsShaped(after) && Evolves(rows, after)
  {
    StoreKeepsValid(rows, Reconcile.RowKey(conn, e), Reconcile.Landing(rows, conn, e));
  }

  /** An import keeps the table valid and never touches a direct row. */
  lemma PullKeeps(rows: Rows, conn: Reconcile.Connection, events: seq<Reconcile.Event>, faulted: set<nat>)
    requires ValidRows(rows) && HoldsShaped(rows)
    ensures var after := Reconcile.PullRows(rows, conn, events, faulted);
            ValidRows(after) && HoldsShaped(after) && Evolves(rows, after)
  {
    hide Reconcile.RowsAfter;
    UpsertsKeep(rows, conn, events, faulted, |events|);
    var mid := Reconcile.RowsAfter(rows, conn, events, faulted, |events|);
    var after := Reconcile.CancelAbsent(mid, conn, events);
    FreeingKeepsValid(mid, after);
    EvolvesTrans(rows, mid, after);
  }

  // ---- Rows move, payments stay -----------------------------------------------------------------------

  /** When only rows move, and they evolve, the tables stay in order. */
  lemma RowsMove(db: Tables, after: Tables)
    requires TablesOk(db) && after.payments == db.payments && after.notices == db.notices
    requires ValidRows(after.rows) && HoldsShaped(after.rows) && Evolves(db.rows, after.rows)
    ensures TablesOk(after)
  {
    hide ValidRows, HoldsShaped;
  }

  /** Row k is as it was. */
  ghost predicate Kept(rows: Rows, after: Rows, k: Key) {
    k in rows ==> k in after && after[k] == rows[k]
  }

  /** A transaction is undisturbed by a step that leaves its rows alone and adds no payment to a row it mints for. */
  lemma TxStays(db: Tables, after: Tables, tx: Tx)
    requires TxOk(db, tx) && db.now <= after.now
    requires forall k | k in Held(tx) :: Kept(db.rows, after.rows, k)
    requires tx.Minting? && NoActive(db.payments, tx.booking) ==> NoActive(after.payments, tx.booking)
    ensures TxOk(after, tx)
  {
    assert forall k | k in Held(tx) && k in db.rows :: Kept(db.rows, after.rows, k) && k in after.rows;
    if tx.Locked? || tx.Minting? {
      assert tx.booking in Held(tx);
    }
  }

  /** Every open transaction but those that just ended is undisturbed. */
  lemma OthersStay(s: State, after: Tables, ended: set<nat>)
    requires TxsOk(s) && s.db.now <= after.now
    requires forall u, k | u in s.txs && u !in ended && k in Held(s.txs[u]) :: Kept(s.db.rows, after.rows, k)
    requires forall u | u in s.txs && u !in ended && s.txs[u].Minting? && NoActive(s.db.payments, s.txs[u].booking) ::
               NoActive(after.payments, s.txs[u].booking)
    ensures TxsOk(State(after, s.txs - ended))
  {
    forall u | u in s.txs && u !in ended
      ensures TxOk(after, s.txs[u])
    {
      TxStays(s.db, after, s.txs[u]);
    }
  }

  /** A transaction that is the only one to hold its rows may begin. */
  lemma MayBegin(s: State, t: nat, tx: Tx)
    requires TxsOk(s) && TxOk(s.db, tx)
    requires forall k | k in Held(tx) :: !Busy(s.txs, t, k)
    ensures TxsOk(s.(txs := s.txs[t := tx]))
  {
  }

  // ---- Step by step -----------------------------------------------------------------------------------

  lemma EndKeeps(s: State, t: nat)
    requires Inv(s)
    ensures Inv(s.(txs := s.txs - {t}))
  {
    hide TablesOk;
    OthersStay(s, s.db, {t});
  }

  lemma BeginKeeps(s: State, t: nat, tx: Tx)
    requires Inv(s) && (tx.Begun? || tx.Paying?) && tx.began <= s.db.now
    ensures Inv(if t in s.txs then s else s.(txs := s.txs[t := tx]))
  {
    hide TablesOk;
    if t !in s.txs {
      MayBegin(s, t, tx);
    }
  }

  lemma SweepOwnKeeps(s: State, t: nat)
    requires Inv(s)
    ensures Inv(DoSweepOwn(s, t))
  {
    hide TablesOk;
    if DoSweepOwn(s, t) != s {
      var tx := s.txs[t];
      var swept := UnitLapsed(s.db.rows, tx.wish.tenant, tx.wish.unit, tx.began);
      MayBegin(s, t, Cleared(tx.began, tx.wish, swept));
    }
  }

  lemma RecheckKeeps(s: State, t: nat, welcome: bool)
    requires Inv(s)
    ensures Inv(DoRecheck(s, t, welcome))
  {
    hide TablesOk, Refused;
    var after := DoRecheck(s, t, welcome);
    if after == s {
    } else if after == s.(txs := s.txs - {t}) {
      EndKeeps(s, t);
    } else {
      var tx := s.txs[t];
      assert TxOk(s.db, tx);
      MayBegin(s, t, Writing(tx.began, tx.wish, tx.swept));
    }
  }

  /** Committing a sweep touches only rows the transaction holds. */
  lemma SweepIsOwn(s: State, t: nat, keys: set<Key>, u: nat, k: Key)
    requires LocksApart(s.txs) && t in s.txs && keys <= Held(s.txs[t])
    requires u in s.txs && u != t && k in Held(s.txs[u])
    ensures Kept(s.db.rows, Expire(s.db.rows, keys), k)
  {
    assert k !in keys;
  }

  lemma InsertKeeps(s: State, t: nat)
    requires Inv(s)
    ensures Inv(DoInsert(s, t))
  {
    var after := DoInsert(s, t);
    if t in s.txs && after == s.(txs := s.txs - {t}) {
      EndKeeps(s, t);
    } else if after != s {
      var tx := s.txs[t];
      var rows := Expire(s.db.rows, tx.swept);
      var key := Direct(tx.wish.id);
      hide ValidRows, HoldsShaped, Refused, Expire;
      ExpireKeeps(s.db.rows, tx.swept);
      assert TxOk(s.db, tx);
      StoreKeeps(rows, key, Row(tx.wish, tx.began));
      EvolvesTrans(s.db.rows, rows, after.db.rows);
      RowsMove(s.db, after.db);
      forall u, k | u in s.txs && u !in {t} && k in Held(s.txs[u])
        ensures Kept(s.db.rows, after.db.rows, k)
      {
        SweepIsOwn(s, t, tx.swept, u, k);
        assert k in s.db.rows ==> k in rows && k != key;
      }
      OthersStay(s, after.db, {t});
    }
  }

  lemma LockKeeps(s: State, t: nat, pct: Percent)
    requires Inv(s)
    ensures Inv(DoLock(s, t, pct))
  {
    hide TablesOk;
    var after := DoLock(s, t, pct);
    if after == s {
    } else if after == s.(txs := s.txs - {t}) {
      EndKeeps(s, t);
    } else {
      MayBegin(s, t, Locked(s.txs[t].began, s.txs[t].booking, pct));
    }
  }

  /** Without an open session, a pending booking has no active payment. */
  lemma NoSessionNoActive(db: Tables, k: Key)
    requires AllBacked(db) && k in db.rows && db.rows[k].status == PendingPayment && !OpenSession(db.payments, k)
    ensures NoActive(db.payments, k)
  {
  }

  lemma CheckKeeps(s: State, t: nat)
    requires Inv(s)
    ensures Inv(DoCheck(s, t))
  {
    var after := DoCheck(s, t);
    if after == s {
    } else if after == s.(txs := s.txs - {t}) {
      EndKeeps(s, t);
    } else {
      var tx := s.txs[t];
      var b := s.db.rows[tx.booking];
      var swept := UnitLapsed(s.db.rows, b.tenant, b.unit, tx.began);
      if OpenSession(s.db.payments, tx.booking) {
        CommitSweepKeeps(s, t, swept);
      } else {
        hide ValidRows, HoldsShaped;
        NoSessionNoActive(s.db, tx.booking);
        MayBegin(s, t, Minting(tx.began, tx.booking, tx.pct, swept));
      }
    }
  }

  lemma CommitSweepKeeps(s: State, t: nat, swept: set<Key>)
    requires Inv(s) && !AnyBusy(s.txs, t, swept)
    ensures Inv(State(s.db.(rows := Expire(s.db.rows, swept)), s.txs - {t}))
  {
    hide ValidRows, HoldsShaped;
    var after := s.db.(rows := Expire(s.db.rows, swept));
    ExpireKeeps(s.db.rows, swept);
    RowsMove(s.db, after);
    OthersStay(s, after, {t});
  }

  lemma DepositFits(total: nat, pct: Percent)
    ensures Deposit(total, pct) <= total
  {
    assert total * pct <= total * 100;
  }

  /** Minting for a booking without an active payment keeps at most one. */
  lemma MintAdds(db: Tables, order: nat, p: Payment)
    requires TablesOk(db) && order !in db.payments && p.status == Pending
    requires Backed(db.rows, p) && NoActive(db.payments, p.booking)
    ensures TablesOk(db.(payments := db.payments[order := p]))
  {
    hide ValidRows, HoldsShaped;
  }

  lemma MintKeeps(s: State, t: nat, order: nat, session: string)
    requires Inv(s)
    ensures Inv(DoMint(s, t, order, session))
  {
    var after := DoMint(s, t, order, session);
    if after == s {
    } else if after == s.(txs := s.txs - {t}) {
      EndKeeps(s, t);
    } else {
      var tx := s.txs[t];
      var mid := s.db.(rows := Expire(s.db.rows, tx.swept));
      assert TxOk(s.db, tx);
      MintCommit(s, t, tx, order, session);
    }
  }

  lemma MintCommit(s: State, t: nat, tx: Tx, order: nat, session: string)
    requires Inv(s) && t in s.txs && tx == s.txs[t] && tx.Minting? && order !in s.db.payments
    requires TxOk(s.db, tx) && s.db.rows[tx.booking].price.Some?
    ensures var amount := Deposit(s.db.rows[tx.booking].price.value, tx.pct);
            Inv(State(s.db.(rows := Expire(s.db.rows, tx.swept),
                            payments := s.db.payments[order := Payment(tx.booking, amount, Pending, None, session)]),
                      s.txs - {t}))
  {
    hide ValidRows, HoldsShaped, OneActive;
    var mid := s.db.(rows := Expire(s.db.rows, tx.swept));
    var amount := Deposit(s.db.rows[tx.booking].price.value, tx.pct);
    var p := Payment(tx.booking, amount, Pending, None, session);
    DepositFits(s.db.rows[tx.booking].price.value, tx.pct);
    assert tx.booking.Direct? by { HeldIsDirect(s.db.rows, tx.booking); }
    ExpireKeeps(s.db.rows, tx.swept);
    RowsMove(s.db, mid);
    MintAdds(mid, order, p);
    var after := mid.(payments := mid.payments[order := p]);
    forall u, k | u in s.txs && u !in {t} && k in Held(s.txs[u])
      ensures Kept(s.db.rows, after.rows, k)
    {
      SweepIsOwn(s, t, tx.swept, u, k);
    }
    forall u | u in s.txs && u !in {t} && s.txs[u].Minting? && NoActive(s.db.payments, s.txs[u].booking)
      ensures NoActive(after.payments, s.txs[u].booking)
    {
      assert s.txs[u].booking in Held(s.txs[u]) && tx.booking in Held(tx);
    }
    OthersStay(s, after, {t});
  }

  lemma HeldIsDirect(rows: Rows, k: Key)
    requires HoldsShaped(rows) && k in rows && rows[k].status == PendingPayment
    ensures k.Direct? && rows[k].price.Some?
  {
  }

  // ---- Deliveries -------------------------------------------------------------------------------------

  lemma ConfirmKeeps(rows: Rows, k: Key)
    requires ValidRows(rows) && HoldsShaped(rows) && k in rows && rows[k].status == PendingPayment
    ensures var after := rows[k := rows[k].(status := Confirmed)];
            ValidRows(after) && HoldsShaped(after) && Evolves(rows, after)
  {
    FreeingKeepsValid(rows, rows[k := rows[k].(status := Confirmed)]);
  }

  /** A verdict moves one payment out of pending, and to paid only beside a booking that is not pending. */
  lemma VerdictKeeps(db: Tables, order: nat, status: PayStatus)
    requires TablesOk(db) && order in db.payments
    requires status == db.payments[order].status || db.payments[order].status == Pending
    requires status == Paid ==> db.rows[db.payments[order].booking].status != PendingPayment
    ensures TablesOk(db.(payments := db.payments[order := db.payments[order].(status := status)]))
  {
    hide ValidRows, HoldsShaped;
  }

  lemma NoticeKeeps(db: Tables, k: Key)
    requires TablesOk(db) && k !in db.notices && k in db.rows && k.Direct? && db.rows[k].status != PendingPayment
    ensures TablesOk(db.(notices := db.notices + [k]))
  {
    hide ValidRows, HoldsShaped, OneActive, Backed;
  }

  lemma DeliveredKeeps(db: Tables, e: ProviderEvent, notify: bool)
    requires TablesOk(db)
    ensures TablesOk(Delivered(db, e, notify))
  {
    if e.order in db.payments && !Recorded(db, e.id) && Matches(db, e) {
      hide ValidRows, HoldsShaped, OneActive;
      var pay := db.payments[e.order];
      var k := pay.booking;
      assert Backed(db.rows, pay);
      var noted := db.(recorded := db.recorded + [e]);
      var mid := if Flips(db, e) then noted.(rows := db.rows[k := db.rows[k].(status := Confirmed)]) else noted;
      if Flips(db, e) {
        ConfirmKeeps(db.rows, k);
      }
      RowsMove(db, mid);
      VerdictKeeps(mid, e.order, Verdict(pay.status, e.outcome));
      var after := mid.(payments := mid.payments[e.order := pay.(status := Verdict(pay.status, e.outcome))]);
      assert after == ApplyOutcome(noted, e);
      if Flips(db, e) {
        assert k !in db.notices;
        NoticeKeeps(after, k);
      }
    }
  }

  /** A delivery changes no row but the one it confirms, and makes no payment active. */
  lemma DeliveredFrame(db: Tables, e: ProviderEvent, notify: bool)
    ensures forall k | !(Flips(db, e) && k == db.payments[e.order].booking) ::
              Kept(db.rows, Delivered(db, e, notify).rows, k)
    ensures forall k | NoActive(db.payments, k) :: NoActive(Delivered(db, e, notify).payments, k)
  {
  }

  lemma DeliverKeeps(s: State, e: ProviderEvent, fate: Fate)
    requires Inv(s)
    ensures Inv(DoDeliver(s, e, fate))
  {
    var after := DoDeliver(s, e, fate);
    if after != s {
      DeliveredKeeps(s.db, e, fate == Commit);
      DeliveredFrame(s.db, e, fate == Commit);
      hide TablesOk, Delivered;
      OthersStay(s, after.db, {});
      assert s.txs - {} == s.txs;
    }
  }

  // ---- Single-transaction row changes -----------------------------------------------------------------

  /** A step that moves rows nobody holds keeps the invariant. */
  lemma RowsStep(s: State, rows: Rows)
    requires Inv(s) && ValidRows(rows) && HoldsShaped(rows) && Evolves(s.db.rows, rows)
    requires forall k | LockedRow(s.txs, k) :: Kept(s.db.rows, rows, k)
    ensures Inv(s.(db := s.db.(rows := rows)))
  {
    hide ValidRows, HoldsShaped;
    var after := s.db.(rows := rows);
    RowsMove(s.db, after);
    OthersStay(s, after, {});
    assert s.txs - {} == s.txs;
  }

  lemma CancelStep(s: State, tenant: nat, k: Key)
    requires Inv(s)
    ensures Inv(DoCancel(s, tenant, k))
  {
    CancelKeeps(s.db.rows, tenant, k);
    if !LockedRow(s.txs, k) {
      RowsStep(s, Cancel(s.db.rows, tenant, k));
    }
  }

  lemma SweepStep(s: State, began: int, lapsed: set<Key>)
    requires Inv(s)
    ensures Inv(DoSweep(s, began, lapsed))
  {
    ExpireKeeps(s.db.rows, lapsed);
    if !AnyLocked(s.txs, lapsed) {
      RowsStep(s, Expire(s.db.rows, lapsed));
    }
  }

  lemma PullStep(s: State, conn: Reconcile.Connection, events: seq<Reconcile.Event>, faulted: set<nat>)
    requires Inv(s)
    ensures Inv(DoPull(s, conn, events, faulted))
  {
    PullKeeps(s.db.rows, conn, events, faulted);
    var own := set k | k in s.db.rows && k.Imported? && k.conn == conn.id;
    if !PullWaits(s, conn, events, faulted) {
      assert !AnyLocked(s.txs, own);
      var after := Reconcile.PullRows(s.db.rows, conn, events, faulted);
      forall k | LockedRow(s.txs, k)
        ensures Kept(s.db.rows, after, k)
      {
        if k in s.db.rows {
          assert k !in own;
          PullKeepsOthers(s.db.rows, conn, events, faulted, k);
        }
      }
      hide Reconcile.PullRows, PullWaits;
      RowsStep(s, after);
    }
  }

  lemma PullKeepsOthers(rows: Rows, conn: Reconcile.Connection, events: seq<Reconcile.Event>, faulted: set<nat>, k: Key)
    requires k in rows && !(k.Imported? && k.conn == conn.id)
    ensures Kept(rows, Reconcile.PullRows(rows, conn, events, faulted), k)
  {
    Convergence.RowsAfterFrame(rows, conn, events, faulted, 0, |events|, k);
  }

  lemma HandleStep(s: State, tenant: nat, p: nat)
    requires Inv(s)
    ensures Inv(s.(db := Handle(s.db, tenant, p)))
  {
    hide ValidRows, HoldsShaped;
    var after := Handle(s.db, tenant, p);
    OthersStay(s, after, {});
    assert s.txs - {} == s.txs;
  }

  lemma TickStep(s: State, elapsed: nat)
    requires Inv(s)
    ensures Inv(s.(db := s.db.(now := s.db.now + elapsed)))
  {
    hide ValidRows, HoldsShaped;
    var after := s.db.(now := s.db.now + elapsed);
    OthersStay(s, after, {});
    assert s.txs - {} == s.txs;
  }

  /** Every action keeps the invariant. */
  lemma DoKeeps(s: State, a: Action)
    requires Inv(s)
    ensures Inv(Do(s, a))
  {
    hide Inv, DoSweepOwn, DoRecheck, DoInsert, DoLock, DoCheck, DoMint, DoDeliver, DoCancel, DoSweep, DoPull;
    match a
    case BeginWrite(t, wish) => BeginKeeps(s, t, Begun(s.db.now, wish));
    case Sweep(t) => SweepOwnKeeps(s, t);
    case Recheck(t, welcome) => RecheckKeeps(s, t, welcome);
    case Insert(t) => InsertKeeps(s, t);
    case BeginPay(t, k) => BeginKeeps(s, t, Paying(s.db.now, k));
    case Lock(t, pct) => LockKeeps(s, t, pct);
    case Check(t) => CheckKeeps(s, t);
    case Mint(t, order, session) => MintKeeps(s, t, order, session);
    case Abort(t) => EndKeeps(s, t);
    case Deliver(e, fate) => DeliverKeeps(s, e, fate);
    case CancelBooking(tenant, k) => CancelStep(s, tenant, k);
    case SweepUnit(tenant, unit, began) => SweepStep(s, began, UnitLapsed(s.db.rows, tenant, unit, began));
    case SweepAll(began) => SweepStep(s, began, AllLapsed(s.db.rows, began));
    case MarkHandled(tenant, p) => HandleStep(s, tenant, p);
    case Pull(conn, events, faulted) => PullStep(s, conn, events, faulted);
    case Tick(elapsed) => TickStep(s, elapsed);
  }

  /** So every run from the empty ledger does. */
  lemma {:induction false} RunKeeps(actions: seq<Action>)
    ensures Inv(Run(EMPTY, actions))
  {
    if actions != [] {
      RunKeeps(actions[..|actions| - 1]);
      DoKeeps(Run(EMPTY, actions[..|actions| - 1]), actions[|actions| - 1]);
    }
  }
}
