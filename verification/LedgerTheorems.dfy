/**
 * What the ledger promises over every run: the calendar, the money, and the events.
 */
module LedgerTheorems {
  import opened Options
  import opened Bookings
  import opened Tables
  import opened Ledger
  import opened LedgerInvariant
  import Reconcile

  // ---- The calendar -----------------------------------------------------------------------------------

  /** Whatever guests, owners, sweeps, payments and feeds do, no night of a unit is sold twice. */
  lemma NoNightEverSoldTwice(actions: seq<Action>)
    ensures NoNightSoldTwice(Run(EMPTY, actions).db.rows)
  {
    RunKeeps(actions);
    ExclusiveMeansNoNightSoldTwice(Run(EMPTY, actions).db.rows);
  }

  /** Row k stands in the way of what transaction tx is about to insert. */
  predicate InTheWay(rows: Rows, tx: Tx, k: Key)
    requires tx.Writing?
  {
    Blocks(Expire(rows, tx.swept), k, Row(tx.wish, tx.began))
  }

  /** The window the re-check looked at is free. */
  ghost predicate WindowFree(rows: Rows, tx: Tx)
    requires tx.Writing?
  {
    forall k | k in rows && k != Direct(tx.wish.id) :: !InTheWay(rows, tx, k)
  }

  /** A re-check that opens a write saw a free window. */
  lemma RecheckSawFree(s: State, t: nat, welcome: bool)
    requires t in s.txs && s.txs[t].Cleared? && t in Do(s, Recheck(t, welcome)).txs
    ensures Do(s, Recheck(t, welcome)).txs[t].Writing?
    ensures WindowFree(s.db.rows, Do(s, Recheck(t, welcome)).txs[t])
  {
    var tx := Do(s, Recheck(t, welcome)).txs[t];
    var rows := Expire(s.db.rows, tx.swept);
    forall k | k in s.db.rows && k != Direct(tx.wish.id)
      ensures !InTheWay(s.db.rows, tx, k)
    {
      assert k in rows;
    }
  }

  /** Only an insert or an import puts a row where none stood before. */
  lemma OthersOnlyFree(s: State, a: Action)
    requires Inv(s) && !a.Insert? && !a.Pull?
    ensures OnlyFrees(s.db.rows, Do(s, a).db.rows)
  {
    hide ValidRows, AllBacked, OneActive, NoticesOk, TxsOk;
    if a.Deliver? && Do(s, a) != s && Flips(s.db, a.event) {
      assert Occupying(s.db.rows[s.db.payments[a.event.order].booking]);
    }
  }

  lemma FreeingClears(rows: Rows, after: Rows, tx: Tx, k: Key)
    requires tx.Writing? && OnlyFrees(rows, after) && InTheWay(after, tx, k)
    ensures InTheWay(rows, tx, k)
  {
  }

  ghost predicate OpenThroughout(s: State, actions: seq<Action>, t: nat, tx: Tx) {
    forall i | 0 <= i <= |actions| :: t in Run(s, actions[..i]).txs && Run(s, actions[..i]).txs[t] == tx
  }

  /** Step i of the run committed row k into the way of tx. */
  ghost predicate TookWindow(s: State, actions: seq<Action>, tx: Tx, i: nat, k: Key)
    requires tx.Writing? && i < |actions|
  {
    && (actions[i].Insert? || actions[i].Pull?)
    && !InTheWay(Run(s, actions[..i]).db.rows, tx, k)
    && InTheWay(Run(s, actions[..i + 1]).db.rows, tx, k)
  }

  lemma RunFromKeeps(s: State, actions: seq<Action>)
    requires Inv(s)
    ensures Inv(Run(s, actions))
  {
    hide Inv;
    if actions != [] {
      RunFromKeeps(s, actions[..|actions| - 1]);
      DoKeeps(Run(s, actions[..|actions| - 1]), actions[|actions| - 1]);
    }
  }

  lemma {:induction false} SomeoneTookWindow(s: State, actions: seq<Action>, tx: Tx, k: Key)
    requires Inv(s) && tx.Writing? && !InTheWay(s.db.rows, tx, k)
    requires InTheWay(Run(s, actions).db.rows, tx, k)
    ensures exists i | 0 <= i < |actions| :: TookWindow(s, actions, tx, i, k)
  {
    hide InTheWay, Inv;
    assert actions != [];
    var n := |actions| - 1;
    var init := actions[..n];
    var before := Run(s, init);
    assert actions[..n + 1] == actions;
    if InTheWay(before.db.rows, tx, k) {
      SomeoneTookWindow(s, init, tx, k);
      var i :| 0 <= i < |init| && TookWindow(s, init, tx, i, k);
      assert init[..i] == actions[..i] && init[..i + 1] == actions[..i + 1];
      assert TookWindow(s, actions, tx, i, k);
    } else {
      RunFromKeeps(s, init);
      if !actions[n].Insert? && !actions[n].Pull? {
        OthersOnlyFree(before, actions[n]);
        FreeingClears(before.db.rows, Run(s, actions).db.rows, tx, k);
      }
      assert TookWindow(s, actions, tx, n, k);
    }
  }

  /**
   * A write whose re-check saw a free window is refused at its insert only if, after that re-check, another
   * insert or an import committed an overlapping row.
   */
  lemma RefusedOnlyIfTaken(s: State, actions: seq<Action>, t: nat, tx: Tx)
    requires Inv(s) && tx.Writing? && WindowFree(s.db.rows, tx) && OpenThroughout(s, actions, t, tx)
    requires var end := Run(s, actions);
             !MustWait(end, t, Row(tx.wish, tx.began)) && Direct(tx.wish.id) !in end.db.rows
             && t !in Do(end, Insert(t)).txs && Direct(tx.wish.id) !in Do(end, Insert(t)).db.rows
    ensures exists i, k | 0 <= i < |actions| :: TookWindow(s, actions, tx, i, k)
  {
    var end := Run(s, actions);
    assert actions[..|actions|] == actions;
    assert end.txs[t] == tx;
    var rows := Expire(end.db.rows, tx.swept);
    var k :| k in rows && k != Direct(tx.wish.id) && Blocks(rows, k, Row(tx.wish, tx.began));
    assert InTheWay(end.db.rows, tx, k);
    assert !InTheWay(s.db.rows, tx, k);
    SomeoneTookWindow(s, actions, tx, k);
  }

  /** A dead direct booking is out of every later step's reach. */
  lemma DeadStays(s: State, a: Action, k: Key)
    requires Inv(s) && k.Direct? && k in s.db.rows && LapsedStatus(s.db.rows[k].status)
    ensures Kept(s.db.rows, Do(s, a).db.rows, k)
  {
    hide ValidRows, HoldsShaped, AllBacked, OneActive, NoticesOk, LocksApart, Reconcile.PullRows;
    assert forall t | t in s.txs :: TxOk(s.db, s.txs[t]);
    if a.Pull? {
      PullKeepsOthers(s.db.rows, a.conn, a.events, a.faulted, k);
    }
  }

  /** No late settlement, sweep or import ever brings an expired or cancelled direct booking back. */
  lemma {:induction false} NeverResurrected(s: State, actions: seq<Action>, k: Key)
    requires Inv(s) && k.Direct? && k in s.db.rows && LapsedStatus(s.db.rows[k].status)
    ensures k in Run(s, actions).db.rows && Run(s, actions).db.rows[k] == s.db.rows[k]
  {
    hide Inv;
    if actions != [] {
      var init := actions[..|actions| - 1];
      NeverResurrected(s, init, k);
      RunFromKeeps(s, init);
      DeadStays(Run(s, init), actions[|actions| - 1], k);
    }
  }

  /** A hold that has not run out is out of reach of everything but an owner's cancel and the provider's word. */
  lemma LiveHoldKept(s: State, a: Action, k: Key)
    requires Inv(s) && !a.CancelBooking? && !a.Deliver?
    requires k in s.db.rows && s.db.rows[k].status == PendingPayment
    requires s.db.rows[k].holdExpires.Some? && s.db.rows[k].holdExpires.value >= s.db.now
    ensures k in Do(s, a).db.rows && Do(s, a).db.rows[k] == s.db.rows[k]
  {
    hide ValidRows, AllBacked, OneActive, NoticesOk, LocksApart, Reconcile.PullRows, Refused, OpenSession, Deposit;
    assert forall t | t in s.txs :: TxOk(s.db, s.txs[t]);
    if a.Pull? {
      PullKeepsOthers(s.db.rows, a.conn, a.events, a.faulted, k);
    }
  }

  // ---- Money ------------------------------------------------------------------------------------------

  /**
   * The deposit is the percentage rounded down: never more than the share, less than a rupiah short, all of it at
   * 100.
   */
  lemma DepositIsFloor(total: nat, pct: Percent)
    ensures var amount := Deposit(total, pct);
            && amount * 100 <= total * pct < (amount + 1) * 100
            && amount <= total
            && (pct == 100 ==> amount == total)
  {
    DepositFits(total, pct);
  }

  /** A sweep expires the lapsed holds of its scope, and changes nothing else about them or about any other row. */
  lemma SweepIsExact(rows: Rows, tenant: nat, unit: nat, now: int, k: Key)
    requires k in rows
    ensures var after := Expire(rows, UnitLapsed(rows, tenant, unit, now));
            && k in after
            && after[k] == rows[k].(status := after[k].status)
            && (after[k].status != rows[k].status <==>
                  rows[k].unit == unit && rows[k].tenant == tenant && rows[k].status == PendingPayment
                  && rows[k].holdExpires.Some? && rows[k].holdExpires.value < now)
            && (after[k].status != rows[k].status ==> after[k].status == Expired)
    ensures UnitLapsed(Expire(rows, UnitLapsed(rows, tenant, unit, now)), tenant, unit, now) == {}
  {
  }

  /** Where a paid payment stands: on a confirmed booking, in the lapsed inbox, or dealt with. */
  ghost predicate AccountedFor(db: Tables, p: nat)
    requires p in db.payments && db.payments[p].booking in db.rows
  {
    var b := db.rows[db.payments[p].booking];
    b.status == Confirmed || InInbox(db, b.tenant, p) || (LapsedStatus(b.status) && db.payments[p].handledAt.Some?)
  }

  /**
   * Under every interleaving at most one payment of a booking is pending or paid, and a paid one's booking has
   * left `pending_payment` and can be found.
   */
  lemma PaymentsInOrder(actions: seq<Action>)
    ensures var db := Run(EMPTY, actions).db;
            && (forall p, q | p in db.payments && q in db.payments && Active(db.payments[p]) && Active(db.payments[q])
                              && db.payments[p].booking == db.payments[q].booking :: p == q)
            && (forall p | p in db.payments :: db.payments[p].booking in db.rows)
            && (forall p | p in db.payments && db.payments[p].status == Paid ::
                  db.rows[db.payments[p].booking].status != PendingPayment && AccountedFor(db, p))
  {
    RunKeeps(actions);
    var db := Run(EMPTY, actions).db;
    forall p | p in db.payments
      ensures db.payments[p].booking in db.rows
      ensures db.payments[p].status == Paid ==>
                db.rows[db.payments[p].booking].status != PendingPayment && AccountedFor(db, p)
    {
      assert Backed(db.rows, db.payments[p]);
    }
  }

  /** `sum(amount) where booking = k and status = 'paid'` over the payments in ids. */
  ghost function PaidSum(payments: map<nat, Payment>, ids: set<nat>, k: Key): int {
    if ids == {} then 0
    else
      var p :| p in ids;
      PaidSum(payments, ids - {p}, k)
      + if p in payments && payments[p].booking == k && payments[p].status == Paid then payments[p].amount else 0
  }

  /** The sum is the amount of the one paid payment of the booking, if it has one. */
  lemma {:induction false} PaidSumAtMostOne(payments: map<nat, Payment>, ids: set<nat>, k: Key)
    requires OneActive(payments)
    ensures forall p | p in ids && p in payments && payments[p].booking == k && payments[p].status == Paid ::
              PaidSum(payments, ids, k) == payments[p].amount
    ensures (forall p | p in ids && p in payments && payments[p].booking == k :: payments[p].status != Paid) ==>
              PaidSum(payments, ids, k) == 0
  {
    if ids != {} {
      var p :| p in ids && PaidSum(payments, ids, k) == PaidSum(payments, ids - {p}, k)
                           + if p in payments && payments[p].booking == k && payments[p].status == Paid
                             then payments[p].amount else 0;
      PaidSumAtMostOne(payments, ids - {p}, k);
      forall q | q in ids && q in payments && payments[q].booking == k && payments[q].status == Paid
        ensures PaidSum(payments, ids, k) == payments[q].amount
      {
        OnlyPaid(payments, ids, k, q);
      }
    }
  }

  /** No other payment of the booking is paid. */
  lemma OnlyPaid(payments: map<nat, Payment>, ids: set<nat>, k: Key, q: nat)
    requires OneActive(payments) && q in payments && payments[q].booking == k && payments[q].status == Paid
    ensures forall p | p in ids && p in payments && payments[p].booking == k && p != q :: payments[p].status != Paid
  {
    assert Active(payments[q]);
    assert forall p | p in payments && payments[p].status == Paid :: Active(payments[p]);
  }

  /** The balance the confirmation page shows: clamped at zero. */
  function Balance(total: nat, paid: int): int {
    if total > paid then total - paid else 0
  }

  /** What was paid and what is left always add up to the price: the clamp hides nothing. */
  lemma PaidPlusBalanceIsTotal(actions: seq<Action>, k: Key)
    requires var db := Run(EMPTY, actions).db; k in db.rows && db.rows[k].price.Some?
    ensures var db := Run(EMPTY, actions).db;
            var total := db.rows[k].price.value;
            var paid := PaidSum(db.payments, db.payments.Keys, k);
            && 0 <= paid <= total && paid + Balance(total, paid) == total
            && forall p | p in db.payments && db.payments[p].booking == k && db.payments[p].status == Paid ::
                 paid == db.payments[p].amount
  {
    RunKeeps(actions);
    var db := Run(EMPTY, actions).db;
    PaidSumAtMostOne(db.payments, db.payments.Keys, k);
    assert forall p | p in db.payments :: Backed(db.rows, db.payments[p]);
  }

  // ---- Events: at least once becomes at most once -----------------------------------------------------

  lemma RecordedStep(s: State, a: Action, e: nat)
    requires Recorded(s.db, e)
    ensures Recorded(Do(s, a).db, e)
  {
  }

  /** A recorded event stays recorded. */
  lemma {:induction false} RecordedForGood(s: State, actions: seq<Action>, e: nat)
    requires Recorded(s.db, e)
    ensures Recorded(Run(s, actions).db, e)
  {
    hide Do;
    if actions != [] {
      RecordedForGood(s, actions[..|actions| - 1], e);
      RecordedStep(Run(s, actions[..|actions| - 1]), actions[|actions| - 1], e);
    }
  }

  /** However often a recorded event is delivered again, pushed or pulled, it never changes anything. */
  lemma RecordedNeverReplays(s: State, actions: seq<Action>, e: ProviderEvent, fate: Fate)
    requires Recorded(s.db, e.id)
    ensures Run(s, actions + [Deliver(e, fate)]) == Run(s, actions)
  {
    hide Do, Recorded;
    RecordedForGood(s, actions, e.id);
    assert (actions + [Deliver(e, fate)])[..|actions|] == actions;
    ChangesNothing(Run(s, actions), e, fate);
  }

  lemma ChangesNothing(s: State, e: ProviderEvent, fate: Fate)
    requires Recorded(s.db, e.id)
    ensures Do(s, Deliver(e, fate)) == s
  {
    assert Delivered(s.db, e, fate == Commit) == s.db;
  }

  /** A delivery that changes anything records its event, which was not recorded before. */
  lemma ChangingIsRecording(s: State, e: ProviderEvent, fate: Fate)
    requires Do(s, Deliver(e, fate)) != s
    ensures !Recorded(s.db, e.id) && Recorded(Do(s, Deliver(e, fate)).db, e.id) && fate != Crash
  {
  }

  lemma ActedIsRecorded(s: State, actions: seq<Action>, i: nat)
    requires i < |actions| && actions[i].Deliver? && Run(s, actions[..i + 1]) != Run(s, actions[..i])
    ensures Recorded(Run(s, actions[..i + 1]).db, actions[i].event.id)
  {
    hide Do;
    assert actions[..i + 1][..i] == actions[..i];
    ChangingIsRecording(Run(s, actions[..i]), actions[i].event, actions[i].fate);
  }

  /** So over a whole run an event takes effect at most once. */
  lemma EventActsAtMostOnce(s: State, actions: seq<Action>, e: ProviderEvent, i: nat, j: nat)
    requires i < j < |actions|
    requires actions[i].Deliver? && actions[i].event.id == e.id && Run(s, actions[..i + 1]) != Run(s, actions[..i])
    requires actions[j].Deliver? && actions[j].event == e
    ensures Run(s, actions[..j + 1]) == Run(s, actions[..j])
  {
    hide Do, Run;
    var s1 := Run(s, actions[..i + 1]);
    ActedIsRecorded(s, actions, i);
    var between := actions[i + 1..j];
    RunJoins(s, actions[..i + 1], between);
    RunJoins(s, actions[..i + 1], between + [actions[j]]);
    assert actions[..i + 1] + between == actions[..j];
    assert actions[..i + 1] + (between + [actions[j]]) == actions[..j + 1];
    RecordedNeverReplays(s1, between, e, actions[j].fate);
  }

  lemma {:induction false} RunJoins(s: State, a: seq<Action>, b: seq<Action>)
    ensures Run(s, a + b) == Run(Run(s, a), b)
  {
    if b == [] {
      assert a + b == a;
    } else {
      RunJoins(s, a, b[..|b| - 1]);
      assert (a + b)[..|a + b| - 1] == a + b[..|b| - 1];
    }
  }

  /**
   * The three fates: a crash before the commit changes nothing, a crash after it loses the notice and nothing else, and
   * a delivery that would confirm waits while its booking's row is locked.
   */
  lemma Fates(s: State, e: ProviderEvent)
    ensures Do(s, Deliver(e, Crash)) == s
    ensures Do(s, Deliver(e, CommitThenCrash)) ==
            Do(s, Deliver(e, Commit)).(db := Do(s, Deliver(e, Commit)).db.(notices := s.db.notices))
    ensures Do(s, Deliver(e, Commit)).txs == s.txs
    ensures (&& e.order in s.db.payments && e.gross == s.db.payments[e.order].amount && e.outcome == Settlement
             && s.db.payments[e.order].booking in s.db.rows
             && s.db.rows[s.db.payments[e.order].booking].status == PendingPayment
             && LockedRow(s.txs, s.db.payments[e.order].booking)) ==>
              Do(s, Deliver(e, Commit)) == s
  {
  }

  /** Which rows a transaction holds: those it swept, and the booking a pay step locked. */
  lemma HeldRows(tx: Tx, k: Key)
    ensures k in Held(tx) <==>
            || ((tx.Cleared? || tx.Writing? || tx.Minting?) && k in tx.swept)
            || ((tx.Locked? || tx.Minting?) && k == tx.booking)
  {
  }

  /** What waits for a row lock, and for nothing else. */
  lemma WaitsExactly(s: State, t: nat)
    requires t in s.txs
    ensures s.txs[t].Paying? && s.txs[t].booking in s.db.rows ==>
              forall pct: Percent ::
                Do(s, Lock(t, pct)) ==
                if exists u | u in s.txs :: s.txs[t].booking in Held(s.txs[u]) then s
                else s.(txs := s.txs[t := Locked(s.txs[t].began, s.txs[t].booking, pct)])
    ensures s.txs[t].Begun? ==>
              var tx := s.txs[t];
              var lapsed := set k | && k in s.db.rows && s.db.rows[k].unit == tx.wish.unit
                                    && s.db.rows[k].tenant == tx.wish.tenant && s.db.rows[k].status == PendingPayment
                                    && s.db.rows[k].holdExpires.Some? && s.db.rows[k].holdExpires.value < tx.began;
              Do(s, Sweep(t)) ==
              if exists u, k | u in s.txs && u != t && k in lapsed :: k in Held(s.txs[u]) then s
              else s.(txs := s.txs[t := Cleared(tx.began, tx.wish, lapsed)])
  {
    if s.txs[t].Begun? {
      var tx := s.txs[t];
      var lapsed := UnitLapsed(s.db.rows, tx.wish.tenant, tx.wish.unit, tx.began);
      assert lapsed == set k | && k in s.db.rows && s.db.rows[k].unit == tx.wish.unit
                               && s.db.rows[k].tenant == tx.wish.tenant && s.db.rows[k].status == PendingPayment
                               && s.db.rows[k].holdExpires.Some? && s.db.rows[k].holdExpires.value < tx.began;
    }
  }

  /** An insert waits exactly for a row in its way that another transaction is expiring. */
  lemma InsertWaitsExactly(s: State, t: nat)
    requires t in s.txs && s.txs[t].Writing?
    ensures Do(s, Insert(t)) == s <==>
            exists k, u | k in s.db.rows && u in s.txs && u != t ::
              && (s.txs[u].Cleared? || s.txs[u].Writing? || s.txs[u].Minting?) && k in s.txs[u].swept
              && Blocks(s.db.rows, k, Row(s.txs[t].wish, s.txs[t].began))
  {
    var b := Row(s.txs[t].wish, s.txs[t].began);
    if MustWait(s, t, b) {
      var k, u :| k in s.db.rows && u in s.txs && u != t && k in Changed(s.txs[u]) && Blocks(s.db.rows, k, b);
    } else {
      assert t !in Do(s, Insert(t)).txs;
    }
  }

  /** A run takes its steps one after another, and time moves by what has elapsed. */
  lemma RunSteps(s: State, actions: seq<Action>, a: Action)
    ensures Run(s, []) == s
    ensures Run(s, actions + [a]) == Do(Run(s, actions), a)
    ensures a.Tick? ==> Do(s, a) == s.(db := s.db.(now := s.db.now + a.elapsed))
    ensures a.Abort? ==> Do(s, a) == State(s.db, s.txs - {a.t})
  {
    hide Refused, Reconcile.PullRows, PullWaits, Delivered;
    assert (actions + [a])[..|actions|] == actions;
  }

  /** The gateway's answer ends the pay step: with a new pending payment of the deposit, or with nothing written. */
  lemma MintExactly(s: State, t: nat, order: nat, session: string)
    requires t in s.txs && s.txs[t].Minting?
    ensures var tx, after := s.txs[t], Do(s, Mint(t, order, session));
            && after.txs == s.txs - {t}
            && after.db ==
               if order in s.db.payments || tx.booking !in s.db.rows || s.db.rows[tx.booking].price == None then s.db
               else s.db.(rows := Expire(s.db.rows, tx.swept),
                          payments := s.db.payments[order := Payment(tx.booking,
                                        Deposit(s.db.rows[tx.booking].price.value, tx.pct), Pending, None, session)])
  {
    hide Expire, Deposit;
  }

  /** A cancel, and a sweep of its own, wait exactly for the rows they would write, and then write them. */
  lemma OwnTransactionsWaitExactly(s: State, tenant: nat, unit: nat, k: Key, began: int)
    ensures Do(s, CancelBooking(tenant, k)) ==
            if exists u | u in s.txs :: k in Held(s.txs[u]) then s
            else s.(db := s.db.(rows := Cancel(s.db.rows, tenant, k)))
    ensures Do(s, SweepUnit(tenant, unit, began)) ==
            var lapsed := UnitLapsed(s.db.rows, tenant, unit, began);
            if began > s.db.now || exists j, u | j in lapsed && u in s.txs :: j in Held(s.txs[u]) then s
            else s.(db := s.db.(rows := Expire(s.db.rows, lapsed)))
    ensures Do(s, SweepAll(began)) ==
            var lapsed := AllLapsed(s.db.rows, began);
            if began > s.db.now || exists j, u | j in lapsed && u in s.txs :: j in Held(s.txs[u]) then s
            else s.(db := s.db.(rows := Expire(s.db.rows, lapsed)))
  {
    hide Cancel, UnitLapsed, AllLapsed, Expire, Held;
    LockedIff(s, UnitLapsed(s.db.rows, tenant, unit, began));
    LockedIff(s, AllLapsed(s.db.rows, began));
  }

  lemma LockedIff(s: State, keys: set<Key>)
    ensures AnyLocked(s.txs, keys) <==> exists j, u | j in keys && u in s.txs :: j in Held(s.txs[u])
  {
    hide Held;
    if AnyLocked(s.txs, keys) {
      var j :| j in keys && LockedRow(s.txs, j);
      var u :| u in s.txs && j in Held(s.txs[u]);
    }
    if j, u :| j in keys && u in s.txs && j in Held(s.txs[u]) {
      assert LockedRow(s.txs, j);
    }
  }

  /** Some transaction is expiring, uncommitted, a row that would refuse b. */
  ghost predicate ExpiringInTheWay(txs: map<nat, Tx>, rows: Rows, b: Booking) {
    exists k, u | k in rows && u in txs ::
      (txs[u].Cleared? || txs[u].Writing? || txs[u].Minting?) && k in txs[u].swept && Blocks(rows, k, b)
  }

  /**
   * A pull waits exactly while one of its connection's rows is locked, or while another transaction is expiring a row
   * that refuses an event in its turn; otherwise it is the reconciliation of module Reconcile.
   */
  lemma PullWaitsExactly(s: State, conn: Reconcile.Connection, events: seq<Reconcile.Event>, faulted: set<nat>)
    ensures Do(s, Pull(conn, events, faulted)) ==
            if || (exists k, u | k in s.db.rows && u in s.txs ::
                     k.Imported? && k.conn == conn.id && k in Held(s.txs[u]))
               || exists i | 0 <= i < |events| && i !in faulted ::
                    var rows := Reconcile.RowsAfter(s.db.rows, conn, events, faulted, i);
                    ExpiringInTheWay(s.txs, rows, Reconcile.Landing(rows, conn, events[i]))
            then s
            else s.(db := s.db.(rows := Reconcile.PullRows(s.db.rows, conn, events, faulted)))
  {
    hide Held, Reconcile.PullRows, Reconcile.RowsAfter, Reconcile.Landing, ExpiringInTheWay, MeetsExpiring;
    var own := set k | k in s.db.rows && k.Imported? && k.conn == conn.id;
    OwnLockedIff(s, conn, own);
    forall i | 0 <= i < |events|
      ensures MeetsExpiring(s, conn, events, faulted, i) <==>
              var rows := Reconcile.RowsAfter(s.db.rows, conn, events, faulted, i);
              ExpiringInTheWay(s.txs, rows, Reconcile.Landing(rows, conn, events[i]))
    {
      ExpiringIff(s, conn, events, faulted, i);
    }
  }

  lemma OwnLockedIff(s: State, conn: Reconcile.Connection, own: set<Key>)
    requires forall k :: k in own <==> k in s.db.rows && k.Imported? && k.conn == conn.id
    ensures AnyLocked(s.txs, own) <==>
            exists k, u | k in s.db.rows && u in s.txs :: k.Imported? && k.conn == conn.id && k in Held(s.txs[u])
  {
    hide Held;
    LockedIff(s, own);
    if k, u :| k in s.db.rows && u in s.txs && k.Imported? && k.conn == conn.id && k in Held(s.txs[u]) {
      assert k in own;
    }
  }

  lemma ExpiringIff(s: State, conn: Reconcile.Connection, events: seq<Reconcile.Event>, faulted: set<nat>, i: nat)
    requires i < |events|
    ensures var rows := Reconcile.RowsAfter(s.db.rows, conn, events, faulted, i);
            MeetsExpiring(s, conn, events, faulted, i) <==>
            ExpiringInTheWay(s.txs, rows, Reconcile.Landing(rows, conn, events[i]))
  {
    hide Held, Reconcile.PullRows, Reconcile.RowsAfter, Reconcile.Landing, Blocks;
    assert forall tx: Tx, k :: k in Changed(tx) <==> (tx.Cleared? || tx.Writing? || tx.Minting?) && k in tx.swept;
  }

  /** The run without its crashed deliveries. */
  function WithoutCrashes(actions: seq<Action>): seq<Action> {
    if actions == [] then []
    else
      var n := |actions| - 1;
      WithoutCrashes(actions[..n])
      + if actions[n].Deliver? && actions[n].fate == Crash then [] else [actions[n]]
  }

  /** Deliveries that crashed before their commit leave no trace anywhere in the run. */
  lemma {:induction false} CrashesLeaveNoTrace(s: State, actions: seq<Action>)
    ensures Run(s, WithoutCrashes(actions)) == Run(s, actions)
  {
    if actions != [] {
      var n := |actions| - 1;
      CrashesLeaveNoTrace(s, actions[..n]);
      var init := WithoutCrashes(actions[..n]);
      assert (init + [actions[n]])[..|init|] == init;
      assert init + [] == init;
    }
  }

  /** A notice goes out only on the flip from `pending_payment` to `confirmed`. */
  lemma NoticeOnlyOnFlip(s: State, a: Action)
    ensures var after := Do(s, a);
            after.db.notices == s.db.notices
            || exists k | k in s.db.rows && k in after.db.rows ::
                 && after.db.notices == s.db.notices + [k]
                 && s.db.rows[k].status == PendingPayment && after.db.rows[k].status == Confirmed
  {
    var after := Do(s, a);
    if a.Deliver? && after != s && Flips(s.db, a.event) {
      var k := s.db.payments[a.event.order].booking;
      assert after.db.rows[k].status == Confirmed;
    }
  }

  /** And no booking is announced twice in any run. */
  lemma NoticeAtMostOnce(actions: seq<Action>)
    ensures var notices := Run(EMPTY, actions).db.notices;
            forall i, j | 0 <= i < j < |notices| :: notices[i] != notices[j]
  {
    RunKeeps(actions);
  }
}
