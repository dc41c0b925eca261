/**
 * Where confirmations and verdicts come from, and why the order of deliveries does not matter to the booking.
 */
module LedgerEvents {
  import opened Options
  import opened Bookings
  import opened Tables
  import opened Ledger
  import opened LedgerInvariant
  import Reconcile
  import Convergence

  // ---- What the log says ------------------------------------------------------------------------------

  /** Event e is the given outcome for payment p, at the amount p was minted for. */
  predicate Says(e: ProviderEvent, p: nat, amount: int, outcome: Outcome) {
    e.order == p && e.gross == amount && e.outcome == outcome
  }

  predicate Told(log: seq<ProviderEvent>, p: nat, amount: int, outcome: Outcome) {
    exists i | 0 <= i < |log| :: Says(log[i], p, amount, outcome)
  }

  /** The first settlement or failure for the order at its amount. */
  function FirstSays(log: seq<ProviderEvent>, p: nat, amount: int): Option<Outcome> {
    if log == [] then None
    else
      var init, e := log[..|log| - 1], log[|log| - 1];
      var before := FirstSays(init, p, amount);
      if before != None then before
      else if Says(e, p, amount, Settlement) then Some(Settlement)
      else if Says(e, p, amount, Failure) then Some(Failure)
      else None
  }

  function StatusAfter(s: PayStatus, says: Option<Outcome>): PayStatus {
    if s != Pending || says == None then s else if says == Some(Settlement) then Paid else Failed
  }

  /** A matching failure came before every matching settlement. */
  predicate FailedFirst(log: seq<ProviderEvent>, p: nat, amount: int) {
    exists i | 0 <= i < |log| :: Says(log[i], p, amount, Failure) && NoneBefore(log, p, amount, i)
  }

  predicate NoneBefore(log: seq<ProviderEvent>, p: nat, amount: int, i: nat)
    requires i <= |log|
  {
    forall j | 0 <= j < i :: !Says(log[j], p, amount, Settlement)
  }

  lemma SaysNext(log: seq<ProviderEvent>, e: ProviderEvent, p: nat, amount: int)
    ensures FirstSays(log + [e], p, amount) ==
            if FirstSays(log, p, amount) != None then FirstSays(log, p, amount)
            else if Says(e, p, amount, Settlement) then Some(Settlement)
            else if Says(e, p, amount, Failure) then Some(Failure)
            else None
  {
    assert (log + [e])[..|log|] == log;
  }

  /** The first word, positions and all: nothing was said, or a settlement comes first, or a failure does. */
  lemma {:induction false} FirstSaysIff(log: seq<ProviderEvent>, p: nat, amount: int)
    ensures FirstSays(log, p, amount) == None <==> !Told(log, p, amount, Settlement) && !Told(log, p, amount, Failure)
    ensures FirstSays(log, p, amount) == Some(Failure) <==> FailedFirst(log, p, amount)
    ensures FirstSays(log, p, amount) in {None, Some(Settlement), Some(Failure)}
  {
    if log != [] {
      var n := |log| - 1;
      var init, e := log[..n], log[n];
      FirstSaysIff(init, p, amount);
      assert forall i | 0 <= i < n :: init[i] == log[i];
      ToldNext(init, e, p, amount, Settlement);
      ToldNext(init, e, p, amount, Failure);
      FailedFirstNext(init, e, p, amount);
      assert log == init + [e];
      hide Told, FailedFirst;
    }
  }

  lemma ToldNext(log: seq<ProviderEvent>, e: ProviderEvent, p: nat, amount: int, outcome: Outcome)
    ensures Told(log + [e], p, amount, outcome) <==> Told(log, p, amount, outcome) || Says(e, p, amount, outcome)
  {
    var more := log + [e];
    assert more[|log|] == e;
    if i :| 0 <= i < |log| && Says(log[i], p, amount, outcome) {
      assert Says(more[i], p, amount, outcome);
    }
  }

  lemma FailedFirstNext(log: seq<ProviderEvent>, e: ProviderEvent, p: nat, amount: int)
    ensures FailedFirst(log + [e], p, amount) <==>
              FailedFirst(log, p, amount) || (Says(e, p, amount, Failure) && !Told(log, p, amount, Settlement))
  {
    var more := log + [e];
    assert more[|log|] == e;
    assert forall j | 0 <= j < |log| :: log[j] == more[j];
    if i :| 0 <= i < |log| && Says(log[i], p, amount, Failure) && NoneBefore(log, p, amount, i) {
      assert forall j | 0 <= j < i :: more[j] == log[j];
      assert Says(more[i], p, amount, Failure) && NoneBefore(more, p, amount, i);
    }
    if Says(e, p, amount, Failure) && !Told(log, p, amount, Settlement) {
      assert NoneBefore(more, p, amount, |log|);
    }
    if i :| 0 <= i < |more| && Says(more[i], p, amount, Failure) && NoneBefore(more, p, amount, i) {
      if i < |log| {
        assert Says(log[i], p, amount, Failure) && NoneBefore(log, p, amount, i);
      } else {
        assert forall j | 0 <= j < |log| :: !Says(more[j], p, amount, Settlement);
      }
    }
  }

  // ---- The log explains the ledger ----------------------------------------------------------------------

  /** A booking made by a guest checkout: the only rows that ever carry an expiry. */
  predicate GuestBooking(k: Key, b: Booking) {
    k.Direct? && b.holdExpires.Some?
  }

  /** Payment p has a recorded settlement at its amount. */
  predicate SettledPayment(db: Tables, p: nat)
    requires p in db.payments
  {
    Told(db.recorded, p, db.payments[p].amount, Settlement)
  }

  /** Some payment of k has one. */
  ghost predicate Settled(db: Tables, k: Key) {
    exists p | p in db.payments && db.payments[p].booking == k :: SettledPayment(db, p)
  }

  /** A payment's status is what the log first said about it. */
  predicate Explained(db: Tables, p: nat)
    requires p in db.payments
  {
    db.payments[p].status == StatusAfter(Pending, FirstSays(db.recorded, p, db.payments[p].amount))
  }

  ghost predicate Sourced(db: Tables) {
    && (forall e | e in db.recorded :: e.order in db.payments)
    && (forall p | p in db.payments :: Explained(db, p))
    && (forall k | k in db.rows && GuestBooking(k, db.rows[k]) && db.rows[k].status == Confirmed :: Settled(db, k))
  }

  /** Payments keep what they charge and for what; new ones start pending. */
  ghost predicate PaymentsEvolve(db: Tables, after: Tables) {
    && after.recorded == db.recorded
    && (forall p | p in db.payments ::
          && p in after.payments && after.payments[p].booking == db.payments[p].booking
          && after.payments[p].amount == db.payments[p].amount && after.payments[p].status == db.payments[p].status
          && after.payments[p].session == db.payments[p].session)
    && (forall p | p in after.payments && p !in db.payments :: after.payments[p].status == Pending)
  }

  /** No guest booking is newly confirmed. */
  ghost predicate ConfirmsNone(rows: Rows, after: Rows) {
    forall k | k in after && GuestBooking(k, after[k]) && after[k].status == Confirmed ::
      k in rows && GuestBooking(k, rows[k]) && rows[k].status == Confirmed
  }

  lemma {:induction false} NothingSaid(log: seq<ProviderEvent>, p: nat, amount: int)
    requires forall e | e in log :: e.order != p
    ensures FirstSays(log, p, amount) == None
  {
    if log != [] {
      NothingSaid(log[..|log| - 1], p, amount);
    }
  }

  lemma QuietStepKeepsSourced(db: Tables, after: Tables)
    requires Sourced(db) && PaymentsEvolve(db, after) && ConfirmsNone(db.rows, after.rows)
    ensures Sourced(after)
  {
    hide Told, FirstSays;
    forall p | p in after.payments
      ensures Explained(after, p)
    {
      if p in db.payments {
        assert Explained(db, p);
      } else {
        NothingSaid(after.recorded, p, after.payments[p].amount);
      }
    }
    forall k | k in after.rows && GuestBooking(k, after.rows[k]) && after.rows[k].status == Confirmed
      ensures Settled(after, k)
    {
      assert Settled(db, k);
      var p :| p in db.payments && db.payments[p].booking == k && SettledPayment(db, p);
      assert SettledPayment(after, p);
    }
  }

  /** A pull leaves direct rows alone, so it confirms no guest booking. */
  lemma PullConfirmsNone(rows: Rows, conn: Reconcile.Connection, events: seq<Reconcile.Event>, faulted: set<nat>)
    ensures ConfirmsNone(rows, Reconcile.PullRows(rows, conn, events, faulted))
  {
    var after := Reconcile.PullRows(rows, conn, events, faulted);
    forall k | k in after && k.Direct?
      ensures k in rows && after[k] == rows[k]
    {
      Convergence.RowsAfterFrame(rows, conn, events, faulted, 0, |events|, k);
    }
  }

  ghost predicate Quiet(db: Tables, after: Tables) {
    PaymentsEvolve(db, after) && ConfirmsNone(db.rows, after.rows)
  }

  lemma ExpireIsQuiet(db: Tables, keys: set<Key>)
    ensures Quiet(db, db.(rows := Expire(db.rows, keys)))
  {
  }

  lemma InsertIsQuiet(s: State, t: nat)
    ensures Quiet(s.db, DoInsert(s, t).db)
  {
    hide MustWait, Refused;
  }

  lemma MintIsQuiet(s: State, t: nat, order: nat, session: string)
    ensures Quiet(s.db, DoMint(s, t, order, session).db)
  {
    hide Deposit;
  }

  lemma CancelIsQuiet(db: Tables, tenant: nat, k: Key)
    ensures Quiet(db, db.(rows := Cancel(db.rows, tenant, k)))
  {
  }

  lemma HandleIsQuiet(db: Tables, tenant: nat, p: nat)
    ensures Quiet(db, Handle(db, tenant, p))
  {
  }

  lemma NothingIsQuiet(db: Tables, now: int)
    ensures Quiet(db, db.(now := now))
  {
  }

  /** Every action but a delivery is quiet. */
  lemma QuietStep(s: State, a: Action)
    requires Inv(s) && !a.Deliver?
    ensures Quiet(s.db, Do(s, a).db)
  {
    hide Inv, Quiet, Expire, DoInsert, DoMint, Cancel, Handle, Reconcile.PullRows, PullWaits, Refused, OpenSession;
    NothingIsQuiet(s.db, s.db.now);
    assert s.db.(now := s.db.now) == s.db;
    match a
    case Insert(t) => InsertIsQuiet(s, t);
    case Mint(t, order, session) => MintIsQuiet(s, t, order, session);
    case CancelBooking(tenant, k) => CancelIsQuiet(s.db, tenant, k);
    case MarkHandled(tenant, p) => HandleIsQuiet(s.db, tenant, p);
    case SweepUnit(tenant, unit, began) => ExpireIsQuiet(s.db, UnitLapsed(s.db.rows, tenant, unit, began));
    case SweepAll(began) => ExpireIsQuiet(s.db, AllLapsed(s.db.rows, began));
    case Tick(elapsed) => NothingIsQuiet(s.db, s.db.now + elapsed);
    case Pull(conn, events, faulted) => PullIsQuiet(s.db, conn, events, faulted);
    case Check(t) => CheckIsQuiet(s, t);
    case _ =>
  }

  lemma CheckIsQuiet(s: State, t: nat)
    ensures Quiet(s.db, DoCheck(s, t).db)
  {
    hide OpenSession;
  }

  lemma PullIsQuiet(db: Tables, conn: Reconcile.Connection, events: seq<Reconcile.Event>, faulted: set<nat>)
    ensures Quiet(db, db.(rows := Reconcile.PullRows(db.rows, conn, events, faulted)))
  {
    hide Reconcile.PullRows;
    PullConfirmsNone(db.rows, conn, events, faulted);
  }

  lemma DeliveredKeepsSourced(db: Tables, e: ProviderEvent, notify: bool)
    requires Sourced(db)
    ensures Sourced(Delivered(db, e, notify))
  {
    var after := Delivered(db, e, notify);
    if e.order in db.payments && !Recorded(db, e.id) {
      hide Told, FirstSays;
      forall p | p in after.payments
        ensures Explained(after, p)
      {
        assert Explained(db, p);
        SaysNext(db.recorded, e, p, db.payments[p].amount);
      }
      forall k | k in after.rows && GuestBooking(k, after.rows[k]) && after.rows[k].status == Confirmed
        ensures Settled(after, k)
      {
        DeliveredSettles(db, e, notify, k);
      }
    }
  }

  lemma DeliveredSettles(db: Tables, e: ProviderEvent, notify: bool, k: Key)
    requires Sourced(db) && e.order in db.payments && !Recorded(db, e.id)
    requires var after := Delivered(db, e, notify);
             k in after.rows && GuestBooking(k, after.rows[k]) && after.rows[k].status == Confirmed
    ensures Settled(Delivered(db, e, notify), k)
  {
    hide Told, FirstSays, StatusAfter;
    var after := Delivered(db, e, notify);
    var p := e.order;
    if !(Flips(db, e) && k == db.payments[e.order].booking) {
      assert Settled(db, k);
      p :| p in db.payments && db.payments[p].booking == k && SettledPayment(db, p);
    }
    ToldNext(db.recorded, e, p, db.payments[p].amount, Settlement);
    assert SettledPayment(after, p);
  }

  lemma {:induction false} RunKeepsSourced(actions: seq<Action>)
    ensures Inv(Run(EMPTY, actions)) && Sourced(Run(EMPTY, actions).db)
  {
    hide Inv;
    RunKeeps(actions);
    if actions != [] {
      var init, a := actions[..|actions| - 1], actions[|actions| - 1];
      RunKeepsSourced(init);
      var s := Run(EMPTY, init);
      hide Sourced, Delivered;
      if a.Deliver? {
        DeliveredKeepsSourced(s.db, a.event, a.fate == Commit);
      } else {
        QuietStep(s, a);
        QuietStepKeepsSourced(s.db, Do(s, a).db);
      }
    }
  }

  /** In every run each payment's status is what the log of recorded events first said about it, at its amount. */
  lemma StatusIsFirstSaid(actions: seq<Action>, p: nat)
    requires p in Run(EMPTY, actions).db.payments
    ensures var db := Run(EMPTY, actions).db;
            db.payments[p].status == StatusAfter(Pending, FirstSays(db.recorded, p, db.payments[p].amount))
  {
    hide *;
    RunKeepsSourced(actions);
    SourcedExplains(Run(EMPTY, actions).db, p);
  }

  lemma SourcedExplains(db: Tables, p: nat)
    requires Sourced(db) && p in db.payments
    ensures db.payments[p].status == StatusAfter(Pending, FirstSays(db.recorded, p, db.payments[p].amount))
  {
  }

  /**
   * Over every run a confirmed guest booking has a recorded settlement; and "confirmed implies paid" fails for it
   * exactly when, for each of its settled payments, a matching failure was recorded before every matching settlement.
   */
  lemma ConfirmedUnpaidIff(actions: seq<Action>, k: Key)
    requires var db := Run(EMPTY, actions).db;
             k in db.rows && GuestBooking(k, db.rows[k]) && db.rows[k].status == Confirmed
    ensures var db := Run(EMPTY, actions).db;
            && Settled(db, k)
            && ((forall p | p in db.payments && db.payments[p].booking == k :: db.payments[p].status != Paid) <==>
                forall p | p in db.payments && db.payments[p].booking == k && SettledPayment(db, p) ::
                  FailedFirst(db.recorded, p, db.payments[p].amount))
  {
    hide Run, Told, FailedFirst, FirstSays, Inv;
    RunKeepsSourced(actions);
    var db := Run(EMPTY, actions).db;
    forall p | p in db.payments
      ensures db.payments[p].status == Paid <==>
                SettledPayment(db, p) && !FailedFirst(db.recorded, p, db.payments[p].amount)
    {
      assert Explained(db, p);
      FirstSaysIff(db.recorded, p, db.payments[p].amount);
      SettledFirst(db.recorded, p, db.payments[p].amount);
    }
  }

  /** A settlement is first only if there is one. */
  lemma {:induction false} SettledFirst(log: seq<ProviderEvent>, p: nat, amount: int)
    ensures FirstSays(log, p, amount) == Some(Settlement) ==> Told(log, p, amount, Settlement)
    ensures FirstSays(log, p, amount) == None ==> !Told(log, p, amount, Settlement)
  {
    if log != [] {
      var n := |log| - 1;
      SettledFirst(log[..n], p, amount);
      ToldNext(log[..n], log[n], p, amount, Settlement);
      assert log == log[..n] + [log[n]];
      hide Told;
    }
  }

  /** The smallest such log: a failure and then a settlement confirm the booking and leave the payment failed. */
  lemma SettlementAfterFailure(db: Tables, order: nat, failed: nat, settled: nat)
    requires order in db.payments && db.payments[order].status == Pending && db.payments[order].booking in db.rows
    requires db.rows[db.payments[order].booking].status == PendingPayment
    requires failed != settled && !Recorded(db, failed) && !Recorded(db, settled)
    ensures var pay := db.payments[order];
            var mid := Delivered(db, ProviderEvent(failed, order, pay.amount, Failure), true);
            var after := Delivered(mid, ProviderEvent(settled, order, pay.amount, Settlement), true);
            after.rows[pay.booking].status == Confirmed && after.payments[order].status == Failed
  {
  }

  // ---- Order independence -----------------------------------------------------------------------------

  function DeliverAll(db: Tables, events: seq<ProviderEvent>): Tables {
    if events == [] then db
    else Delivered(DeliverAll(db, events[..|events| - 1]), events[|events| - 1], true)
  }

  /** Some event settles a payment at its amount. */
  predicate SettlesSome(payments: map<nat, Payment>, events: seq<ProviderEvent>) {
    exists e | e in events ::
      e.outcome == Settlement && e.order in payments && e.gross == payments[e.order].amount
  }

  /** Fresh events with distinct ids, all for payments of booking k. */
  ghost predicate FreshFor(db: Tables, events: seq<ProviderEvent>, k: Key) {
    && (forall i, j | 0 <= i < j < |events| :: events[i].id != events[j].id)
    && (forall e | e in events ::
          !Recorded(db, e.id) && e.order in db.payments && db.payments[e.order].booking == k)
  }

  /** What a batch of deliveries leaves of one booking, its notices and its payments. */
  ghost predicate RowOutcome(db: Tables, events: seq<ProviderEvent>, k: Key, after: Tables)
    requires k in db.rows
  {
    && after.rows ==
       (if SettlesSome(db.payments, events) then db.rows[k := db.rows[k].(status := Confirmed)] else db.rows)
    && after.notices == db.notices + (if SettlesSome(db.payments, events) then [k] else [])
  }

  ghost predicate PaymentOutcomes(db: Tables, events: seq<ProviderEvent>, after: Tables) {
    && after.payments.Keys == db.payments.Keys
    && (forall p | p in db.payments ::
          after.payments[p] ==
          db.payments[p].(status := StatusAfter(db.payments[p].status, FirstSays(events, p, db.payments[p].amount))))
  }

  ghost predicate Outcomes(db: Tables, events: seq<ProviderEvent>, k: Key, after: Tables)
    requires k in db.rows
  {
    && RowOutcome(db, events, k, after)
    && PaymentOutcomes(db, events, after)
    && after.recorded == db.recorded + events
  }

  /**
   * Delivering any fresh events for a pending booking, in any order: it ends confirmed exactly when some
   * settlement matches its payment's amount, announced once, and each payment ends as its first matching
   * settlement or failure says.
   */
  lemma {:induction false} DeliveriesDecide(db: Tables, events: seq<ProviderEvent>, k: Key)
    requires k in db.rows && db.rows[k].status == PendingPayment && FreshFor(db, events, k)
    ensures Outcomes(db, events, k, DeliverAll(db, events))
  {
    if events != [] {
      var init, e := events[..|events| - 1], events[|events| - 1];
      assert events == init + [e];
      assert FreshFor(db, init, k) by {
        assert forall x | x in init :: x in events;
      }
      DeliveriesDecide(db, init, k);
      var mid := DeliverAll(db, init);
      assert e in events && forall x | x in init :: x.id != e.id;
      assert !Recorded(mid, e.id);
      DeliverDecides(db, init, e, k, mid);
    }
  }

  lemma DeliverDecidesPayments(db: Tables, init: seq<ProviderEvent>, e: ProviderEvent, mid: Tables)
    requires PaymentOutcomes(db, init, mid) && e.order in db.payments && !Recorded(mid, e.id)
    ensures PaymentOutcomes(db, init + [e], Delivered(mid, e, true))
  {
    hide FirstSays;
    var events := init + [e];
    var after := Delivered(mid, e, true);
    forall p | p in db.payments
      ensures after.payments[p] ==
              db.payments[p].(status := StatusAfter(db.payments[p].status, FirstSays(events, p, db.payments[p].amount)))
    {
      SaysNext(init, e, p, db.payments[p].amount);
    }
  }

  lemma DeliverDecidesRow(db: Tables, init: seq<ProviderEvent>, e: ProviderEvent, k: Key, mid: Tables)
    requires k in db.rows && db.rows[k].status == PendingPayment
    requires RowOutcome(db, init, k, mid) && PaymentOutcomes(db, init, mid)
    requires e.order in db.payments && db.payments[e.order].booking == k && !Recorded(mid, e.id)
    ensures RowOutcome(db, init + [e], k, Delivered(mid, e, true))
  {
    hide FirstSays, StatusAfter;
    var events := init + [e];
    var hits := e.outcome == Settlement && e.gross == db.payments[e.order].amount;
    assert SettlesSome(db.payments, events) <==> SettlesSome(db.payments, init) || hits by {
      assert e in events && forall x | x in init :: x in events;
    }
    assert Flips(mid, e) <==> hits && !SettlesSome(db.payments, init);
  }

  lemma SamePayments(db: Tables, events: seq<ProviderEvent>, after: Tables)
    requires PaymentOutcomes(db, events, after)
    ensures after.payments.Keys == db.payments.Keys
  {
  }

  lemma DeliverDecides(db: Tables, init: seq<ProviderEvent>, e: ProviderEvent, k: Key, mid: Tables)
    requires k in db.rows && db.rows[k].status == PendingPayment && Outcomes(db, init, k, mid)
    requires e.order in db.payments && db.payments[e.order].booking == k && !Recorded(mid, e.id)
    ensures Outcomes(db, init + [e], k, Delivered(mid, e, true))
  {
    hide RowOutcome, PaymentOutcomes;
    DeliverDecidesRow(db, init, e, k, mid);
    DeliverDecidesPayments(db, init, e, mid);
    assert db.recorded + (init + [e]) == db.recorded + init + [e];
    SamePayments(db, init, mid);
  }

  function Deliveries(events: seq<ProviderEvent>): (actions: seq<Action>)
    ensures |actions| == |events|
  {
    seq(|events|, i requires 0 <= i < |events| => Deliver(events[i], Commit))
  }

  /** With no transaction in the way, a batch is a run of deliveries. */
  lemma {:induction false} BatchIsRun(db: Tables, events: seq<ProviderEvent>)
    ensures Run(State(db, map[]), Deliveries(events)) == State(DeliverAll(db, events), map[])
  {
    if events != [] {
      var n := |events| - 1;
      BatchIsRun(db, events[..n]);
      assert Deliveries(events)[..n] == Deliveries(events[..n]);
    }
  }

  /** Two orders of the same events leave the booking table and its notices the same. */
  lemma OrderDoesNotMatter(db: Tables, a: seq<ProviderEvent>, b: seq<ProviderEvent>, k: Key)
    requires k in db.rows && db.rows[k].status == PendingPayment
    requires FreshFor(db, a, k) && FreshFor(db, b, k) && multiset(a) == multiset(b)
    ensures DeliverAll(db, a).rows == DeliverAll(db, b).rows
    ensures DeliverAll(db, a).notices == DeliverAll(db, b).notices
    ensures k in DeliverAll(db, a).rows
    ensures DeliverAll(db, a).rows[k].status == Confirmed <==> SettlesSome(db.payments, a)
  {
    DeliveriesDecide(db, a, k);
    DeliveriesDecide(db, b, k);
    assert forall e :: e in a <==> e in multiset(a);
    assert forall e :: e in b <==> e in multiset(b);
  }

  /**
   * After any fresh batch on pending payments the booking is confirmed and payment p not paid exactly when some
   * settlement matched and the first word about p is not a settlement.
   */
  lemma BatchUnpaidIff(db: Tables, events: seq<ProviderEvent>, k: Key, p: nat)
    requires k in db.rows && db.rows[k].status == PendingPayment && FreshFor(db, events, k)
    requires p in db.payments && db.payments[p].status == Pending
    ensures var after := DeliverAll(db, events);
            && k in after.rows && p in after.payments
            && (after.rows[k].status == Confirmed && after.payments[p].status != Paid <==>
                SettlesSome(db.payments, events)
                && FirstSays(events, p, db.payments[p].amount) != Some(Settlement))
  {
    hide FirstSays, DeliverAll, SettlesSome;
    DeliveriesDecide(db, events, k);
    FirstSaysIff(events, p, db.payments[p].amount);
  }

  // ---- Events that share an id --------------------------------------------------------------------------

  predicate SharesId(events: seq<ProviderEvent>, id: nat) {
    exists e | e in events :: e.id == id
  }

  /** The events of the batch that are the first of their id, here and in the log. */
  function Firsts(db: Tables, events: seq<ProviderEvent>): seq<ProviderEvent> {
    if events == [] then []
    else
      var init, e := events[..|events| - 1], events[|events| - 1];
      Firsts(db, init) + if Recorded(db, e.id) || SharesId(init, e.id) then [] else [e]
  }

  /** Every event is for a payment of booking k. */
  ghost predicate AllFor(db: Tables, events: seq<ProviderEvent>, k: Key) {
    forall e | e in events :: e.order in db.payments && db.payments[e.order].booking == k
  }

  lemma DeliveredKeepsOrders(db: Tables, e: ProviderEvent, notify: bool)
    ensures Delivered(db, e, notify).payments.Keys == db.payments.Keys
    ensures forall id :: Recorded(Delivered(db, e, notify), id) <==>
              Recorded(db, id) || (id == e.id && e.order in db.payments)
  {
    var after := Delivered(db, e, notify);
    if e.order in db.payments && !Recorded(db, e.id) {
      assert after.recorded == db.recorded + [e];
      assert e in after.recorded;
    }
  }

  /** After a batch for known orders, exactly the ids of the log and of the batch are recorded. */
  lemma {:induction false} BatchRecords(db: Tables, events: seq<ProviderEvent>, k: Key)
    requires AllFor(db, events, k)
    ensures DeliverAll(db, events).payments.Keys == db.payments.Keys
    ensures forall id :: Recorded(DeliverAll(db, events), id) <==> Recorded(db, id) || SharesId(events, id)
  {
    hide Delivered, Recorded;
    if events != [] {
      var init, e := events[..|events| - 1], events[|events| - 1];
      assert events == init + [e] && e in events;
      assert AllFor(db, init, k);
      BatchRecords(db, init, k);
      DeliveredKeepsOrders(DeliverAll(db, init), e, true);
      SharesNext(init, e);
    }
  }

  /** The firsts are fresh events with ids of their own. */
  lemma {:induction false} FirstsAreFresh(db: Tables, events: seq<ProviderEvent>, k: Key)
    requires AllFor(db, events, k)
    ensures FreshFor(db, Firsts(db, events), k) && forall e | e in Firsts(db, events) :: e in events
  {
    hide Recorded;
    if events != [] {
      var init, e := events[..|events| - 1], events[|events| - 1];
      assert events == init + [e] && e in events;
      assert AllFor(db, init, k);
      FirstsAreFresh(db, init, k);
      assert forall x | x in init :: x in events;
      if !SharesId(init, e.id) {
        NotShared(init, Firsts(db, init), e.id);
      }
    }
  }

  /** Delivering the batch is delivering the first event of each id. */
  lemma {:induction false} OnlyFirstsCount(db: Tables, events: seq<ProviderEvent>, k: Key)
    requires AllFor(db, events, k)
    ensures DeliverAll(db, events) == DeliverAll(db, Firsts(db, events))
  {
    hide Delivered, Recorded, SharesId;
    if events != [] {
      var init, e := events[..|events| - 1], events[|events| - 1];
      assert AllFor(db, init, k);
      OnlyFirstsCount(db, init, k);
      BatchRecords(db, init, k);
      var firsts := Firsts(db, init);
      if Recorded(db, e.id) || SharesId(init, e.id) {
        RecordedDelivery(DeliverAll(db, init), e);
        assert firsts + [] == firsts;
      } else {
        assert (firsts + [e])[..|firsts|] == firsts;
      }
    }
  }

  lemma SharesNext(init: seq<ProviderEvent>, e: ProviderEvent)
    ensures forall id :: SharesId(init + [e], id) <==> SharesId(init, id) || id == e.id
  {
    assert e in init + [e];
  }

  lemma NotShared(events: seq<ProviderEvent>, firsts: seq<ProviderEvent>, id: nat)
    requires !SharesId(events, id) && forall e | e in firsts :: e in events
    ensures forall i | 0 <= i < |firsts| :: firsts[i].id != id
  {
    assert forall i | 0 <= i < |firsts| :: firsts[i] in firsts;
  }

  lemma RecordedDelivery(db: Tables, e: ProviderEvent)
    requires Recorded(db, e.id)
    ensures Delivered(db, e, true) == db
  {
  }

  /** Whatever the batch, ids shared or already recorded: its outcome is that of the first event of each id. */
  lemma AnyBatchDecides(db: Tables, events: seq<ProviderEvent>, k: Key)
    requires k in db.rows && db.rows[k].status == PendingPayment && AllFor(db, events, k)
    ensures Outcomes(db, Firsts(db, events), k, DeliverAll(db, events))
  {
    OnlyFirstsCount(db, events, k);
    FirstsAreFresh(db, events, k);
    DeliveriesDecide(db, Firsts(db, events), k);
  }

  /** Event j of the batch is a settlement at its payment's amount. */
  predicate SettlesAt(db: Tables, events: seq<ProviderEvent>, j: nat)
    requires j < |events|
  {
    events[j].outcome == Settlement && events[j].order in db.payments
    && events[j].gross == db.payments[events[j].order].amount
  }

  /** Its id was used before: the delivery is taken for a duplicate. */
  predicate Swallowed(db: Tables, events: seq<ProviderEvent>, j: nat)
    requires j < |events|
  {
    Recorded(db, events[j].id) || SharesId(events[..j], events[j].id)
  }

  lemma {:induction false} FirstsSettleIff(db: Tables, events: seq<ProviderEvent>)
    ensures SettlesSome(db.payments, Firsts(db, events)) <==>
              exists j | 0 <= j < |events| :: SettlesAt(db, events, j) && !Swallowed(db, events, j)
  {
    if events != [] {
      hide Recorded, SharesId;
      var n := |events| - 1;
      var init, e := events[..n], events[n];
      FirstsSettleIff(db, init);
      forall j | 0 <= j < n
        ensures SettlesAt(db, init, j) == SettlesAt(db, events, j) && Swallowed(db, init, j) == Swallowed(db, events, j)
      {
        assert init[..j] == events[..j];
      }
      SettlesNext(db.payments, Firsts(db, init), e);
      assert Swallowed(db, events, n) <==> Recorded(db, e.id) || SharesId(init, e.id);
      assert Firsts(db, init) + [] == Firsts(db, init);
      assert SettlesAt(db, events, n) <==>
          e.outcome == Settlement && e.order in db.payments && e.gross == db.payments[e.order].amount;
      hide SettlesSome, Firsts;
    }
  }

  lemma SettlesNext(payments: map<nat, Payment>, init: seq<ProviderEvent>, e: ProviderEvent)
    ensures SettlesSome(payments, init + [e]) <==>
              SettlesSome(payments, init)
              || (e.outcome == Settlement && e.order in payments && e.gross == payments[e.order].amount)
  {
    assert e in init + [e] && forall x | x in init :: x in init + [e];
  }

  /**
   * A pending booking stays unconfirmed although a matching settlement was delivered exactly when every such settlement
   * came under an id already used, by an earlier event of the batch or one recorded before.
   */
  lemma SettlementLostIff(db: Tables, events: seq<ProviderEvent>, k: Key)
    requires k in db.rows && db.rows[k].status == PendingPayment && AllFor(db, events, k)
    ensures k in DeliverAll(db, events).rows
    ensures DeliverAll(db, events).rows[k].status != Confirmed <==>
              forall j | 0 <= j < |events| && SettlesAt(db, events, j) :: Swallowed(db, events, j)
  {
    hide DeliverAll, Firsts, SettlesSome, SettlesAt, Swallowed;
    AnyBatchDecides(db, events, k);
    FirstsSettleIff(db, events);
  }

  /** A challenged capture and its acceptance come under one id: told first of the challenge, the acceptance is lost. */
  lemma SharedIdLosesSettlement(db: Tables, id: nat, order: nat)
    requires order in db.payments && db.payments[order].booking in db.rows && !Recorded(db, id)
    requires db.rows[db.payments[order].booking].status == PendingPayment
    ensures var k, amount := db.payments[order].booking, db.payments[order].amount;
            var challenged := ProviderEvent(id, order, amount, InFlight);
            var accepted := ProviderEvent(id, order, amount, Settlement);
            && DeliverAll(db, [challenged, accepted]).rows == db.rows
            && k in DeliverAll(db, [accepted, challenged]).rows
            && DeliverAll(db, [accepted, challenged]).rows[k].status == Confirmed
  {
    var amount := db.payments[order].amount;
    var a := ProviderEvent(id, order, amount, InFlight);
    var b := ProviderEvent(id, order, amount, Settlement);
    TwoDeliveries(db, a, b);
    TwoDeliveries(db, b, a);
    DeliveredKeepsOrders(db, a, true);
    DeliveredKeepsOrders(db, b, true);
    RecordedDelivery(Delivered(db, a, true), b);
    RecordedDelivery(Delivered(db, b, true), a);
  }

  lemma TwoDeliveries(db: Tables, a: ProviderEvent, b: ProviderEvent)
    ensures DeliverAll(db, [a, b]) == Delivered(Delivered(db, a, true), b, true)
  {
    assert [a, b][..1] == [a] && [a][..0] == [];
    assert DeliverAll(db, [a]) == Delivered(db, a, true);
  }
}
