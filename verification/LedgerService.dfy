/**
 * The booking and payment services as they update the tables, each call proved to be a run of ledger steps.
 */
module LedgerService {
  import opened Options
  import opened Bookings
  import opened Tables
  import opened Ledger
  import LedgerInvariant

  datatype ApplyResult =
    | UnknownOrder
    | Duplicate
    | AmountMismatch(expected: nat, got: int)
    | SettlementSeen(confirmed: bool)
    | FailureSeen
    | NoChange

  /** What becomes of a pushed body: an order nobody can verify is acknowledged and forgotten. */
  datatype Reception = Unverifiable | BadSignature | Received(result: ApplyResult)

  datatype PayOutcome =
    | NoBooking
    | NotPayable(status: Status)
    | MissingPrice
    | GatewayDown
    | Session(order: nat, amount: nat, deposit: bool, session: string)

  datatype CancelOutcome = CancelDone(refund: bool) | CancelNotFound | CancelTerminal(status: Status)

  datatype HandleOutcome = HandledAt(at: int) | NotInInbox

  /** What the ledger says an event amounts to. */
  function Meaning(db: Tables, e: ProviderEvent): ApplyResult {
    if e.order !in db.payments then UnknownOrder
    else if Recorded(db, e.id) then Duplicate
    else Judged(db, e)
  }

  function Judged(db: Tables, e: ProviderEvent): ApplyResult
    requires e.order in db.payments
  {
    if !Matches(db, e) then AmountMismatch(db.payments[e.order].amount, e.gross)
    else match e.outcome
      case Settlement => SettlementSeen(Flips(db, e))
      case Failure => FailureSeen
      case _ => NoChange
  }

  class Store {
    var rows: Rows
    var payments: map<nat, Payment>
    var recorded: seq<ProviderEvent>
    var notices: seq<Key>
    var now: int

    constructor ()
      ensures Db() == EMPTY.db
    {
      rows, payments, recorded, notices, now := map[], map[], [], [], 0;
    }

    function Db(): Tables
      reads this
    {
      Tables(rows, payments, recorded, notices, now)
    }

    // ---- Bookings -------------------------------------------------------------------------------------

    /** The cron backstop: every lapsed hold, in every tenant. */
    method SweepExpiredHolds() returns (swept: nat)
      modifies this`rows
      ensures State(Db(), map[]) == Run(State(old(Db()), map[]), [SweepAll(now)])
      ensures swept == |AllLapsed(old(rows), now)|
      ensures AllLapsed(rows, now) == {}
      ensures rows.Keys == old(rows).Keys
      ensures forall k | k in old(rows) ::
                var b := old(rows)[k];
                rows[k] == if b.status == PendingPayment && b.holdExpires.Some? && b.holdExpires.value < now
                           then b.(status := Expired) else b
      ensures swept == |set k | k in old(rows) && rows[k] != old(rows)[k]|
    {
      var lapsed := AllLapsed(rows, now);
      swept := |lapsed|;
      rows := map k | k in rows :: if Lapsed(rows[k], now) then rows[k].(status := Expired) else rows[k];
      RunOne(State(old(Db()), map[]), SweepAll(now));
      assert lapsed == set k | k in old(rows) && rows[k] != old(rows)[k];
    }

    /** The in-transaction sweep of one unit. */
    method ExpireLapsedHolds(tenant: nat, unit: nat)
      modifies this`rows
      ensures rows == Expire(old(rows), UnitLapsed(old(rows), tenant, unit, now))
      ensures rows.Keys == old(rows).Keys
      ensures forall k | k in old(rows) ::
                var b := old(rows)[k];
                rows[k] == if && b.unit == unit && b.tenant == tenant
                              && b.status == PendingPayment && b.holdExpires.Some? && b.holdExpires.value < now
                           then b.(status := Expired) else b
    {
      rows := map k | k in rows ::
        if rows[k].unit == unit && rows[k].tenant == tenant && Lapsed(rows[k], now) then rows[k].(status := Expired)
        else rows[k];
    }

    /** Sweep, re-check, insert: a refusal undoes the sweep with everything else. */
    method CreateBooking(w: Wish, welcome: bool) returns (created: bool)
      requires w.checkIn < w.checkOut && Direct(w.id) !in rows
      modifies this`rows
      ensures State(Db(), map[]) == Run(State(old(Db()), map[]), WriteSteps(w, welcome))
      ensures created == (Direct(w.id) in rows)
      ensures created <==> welcome && !Refused(Expire(old(rows), UnitLapsed(old(rows), w.tenant, w.unit, now)),
                                                Direct(w.id), Row(w, now))
      ensures !created ==> rows == old(rows)
      ensures created <==>
                && welcome
                && forall k | k in old(rows) && old(rows)[k].unit == w.unit
                              && (old(rows)[k].status == Confirmed
                                  || (old(rows)[k].status == PendingPayment
                                      && !(old(rows)[k].tenant == w.tenant && old(rows)[k].holdExpires.Some?
                                           && old(rows)[k].holdExpires.value < now))) ::
                     !(old(rows)[k].checkIn < w.checkOut && w.checkIn < old(rows)[k].checkOut)
      ensures created ==> rows.Keys == old(rows).Keys + {Direct(w.id)}
      ensures created ==>
                forall k | k in old(rows) ::
                  var b := old(rows)[k];
                  rows[k] == if && b.unit == w.unit && b.tenant == w.tenant
                                && b.status == PendingPayment && b.holdExpires.Some? && b.holdExpires.value < now
                             then b.(status := Expired) else b
      ensures created ==>
                var b := rows[Direct(w.id)];
                && b.source == (if w.kind.Block? then ManualBlock else DirectSale)
                && b.tenant == w.tenant && b.unit == w.unit && b.checkIn == w.checkIn && b.checkOut == w.checkOut
                && match w.kind
                   case Hold(total) =>
                     b.status == PendingPayment && b.price == Some(total) && b.holdExpires == Some(now + 15 * 60_000)
                   case WalkIn(total) => b.status == Confirmed && b.price == Some(total) && b.holdExpires == None
                   case Block => b.status == Confirmed && b.price == None && b.holdExpires == None
    {
      var before := rows;
      var key, b := Direct(w.id), Row(w, now);
      ExpireLapsedHolds(w.tenant, w.unit);
      created := welcome && !Refused(rows, key, b);
      if created {
        rows := rows[key := b];
      } else {
        rows := before;
      }
      WindowIsFree(old(Db()), w);
      hide Run, Refused;
      WriteRuns(old(Db()), w, welcome);
    }

    /** The guarded cancel; a refund is due when money was taken. */
    method CancelById(tenant: nat, k: Key) returns (outcome: CancelOutcome)
      modifies this`rows
      ensures State(Db(), map[]) == Run(State(old(Db()), map[]), [CancelBooking(tenant, k)])
      ensures outcome.CancelNotFound? <==> k !in old(rows) || old(rows)[k].tenant != tenant
      ensures outcome.CancelTerminal? ==>
                old(rows)[k].status in {Cancelled, Expired} && outcome.status == old(rows)[k].status
      ensures outcome.CancelDone? ==>
                && old(rows)[k].status in {PendingPayment, Confirmed}
                && rows == old(rows)[k := old(rows)[k].(status := Cancelled)]
      ensures !outcome.CancelDone? ==> rows == old(rows)
      ensures outcome.CancelDone? ==>
                (outcome.refund <==> exists p | p in payments :: payments[p].booking == k && payments[p].status == Paid)
    {
      RunOne(State(Db(), map[]), CancelBooking(tenant, k));
      if Cancellable(rows, tenant, k) {
        rows := rows[k := rows[k].(status := Cancelled)];
        return CancelDone(exists p | p in payments :: payments[p].booking == k && payments[p].status == Paid);
      }
      if k !in rows || rows[k].tenant != tenant {
        return CancelNotFound;
      }
      return CancelTerminal(rows[k].status);
    }

    // ---- Payments -------------------------------------------------------------------------------------

    /**
     * The pay step: lock, sweep, read the status, reuse the open session or mint one. Anything but a session
     * rolls the sweep back too.
     */
    method Pay(k: Key, pct: Percent, order: nat, gateway: Option<string>) returns (r: PayOutcome)
      requires order !in payments
      modifies this`rows, this`payments
      ensures State(Db(), map[]) ==
              Run(State(old(Db()), map[]), PaySteps(k, pct, order, gateway))
      ensures !r.Session? ==> Db() == old(Db())
      ensures r.Session? ==>
                && k in old(rows) && old(rows)[k].status == PendingPayment && !Lapsed(old(rows)[k], now)
                && r.order in payments && payments[r.order].booking == k && payments[r.order].status == Pending
                && r.amount == payments[r.order].amount && r.session == payments[r.order].session
      ensures r.Session? && r.order !in old(payments) ==>
                && r.order == order && !OpenSession(old(payments), k)
                && old(rows)[k].price.Some? && r.amount == Deposit(old(rows)[k].price.value, pct)
      ensures r.Session? && r.order !in old(payments) ==>
                payments == old(payments)[order := Payment(k, r.amount, Pending, None, r.session)]
      ensures r.Session? && r.order in old(payments) ==> payments == old(payments)
      ensures r.Session? ==>
                && rows.Keys == old(rows).Keys
                && forall j | j in old(rows) ::
                     var b := old(rows)[j];
                     rows[j] == if && b.unit == old(rows)[k].unit && b.tenant == old(rows)[k].tenant
                                   && b.status == PendingPayment && b.holdExpires.Some? && b.holdExpires.value < now
                                then b.(status := Expired) else b
      ensures r.NoBooking? <==> k !in old(rows)
      ensures r.NotPayable? ==>
                r.status == if Lapsed(old(rows)[k], now) then Expired else old(rows)[k].status
      ensures r.NotPayable? <==>
                k in old(rows) && (old(rows)[k].status != PendingPayment
                                   || (old(rows)[k].holdExpires.Some? && old(rows)[k].holdExpires.value < now))
      ensures r.GatewayDown? ==> gateway == None && !OpenSession(old(payments), k)
      ensures r.MissingPrice? ==> old(rows)[k].price == None
      ensures r.Session? ==> old(rows)[k].price.Some? && r.deposit == (r.amount < old(rows)[k].price.value)
      ensures OpenSession(old(payments), k) ==> payments == old(payments)
      ensures r.Session? && LedgerInvariant.OneActive(old(payments)) ==>
                forall p | p in old(payments) && old(payments)[p].booking == k && old(payments)[p].status == Pending ::
                  r.order == p
    {
      hide Run;
      PayRuns(Db(), k, pct, order, gateway);
      var before := rows;
      if k !in rows {
        return NoBooking;
      }
      ExpireLapsedHolds(rows[k].tenant, rows[k].unit);
      if rows[k].status != PendingPayment {
        r := NotPayable(rows[k].status);
        rows := before;
        return;
      }
      if rows[k].price == None {
        rows := before;
        return MissingPrice;
      }
      var total := rows[k].price.value;
      if OpenSession(payments, k) {
        var p :| p in payments && payments[p].booking == k && payments[p].status == Pending;
        return Session(p, payments[p].amount, payments[p].amount < total, payments[p].session);
      }
      if gateway.None? {
        rows := before;
        return GatewayDown;
      }
      var amount := Deposit(total, pct);
      payments := payments[order := Payment(k, amount, Pending, None, gateway.value)];
      return Session(order, amount, amount < total, gateway.value);
    }

    /** The guarded updates of one event; true when they flipped the booking. */
    method ApplyEvent(e: ProviderEvent) returns (result: ApplyResult)
      requires e.order in payments
      modifies this`rows, this`payments
      ensures Db() == ApplyOutcome(old(Db()), e)
      ensures result == Judged(old(Db()), e)
      ensures payments.Keys == old(payments).Keys
      ensures forall p | p in old(payments) ::
                payments[p] == if && p == e.order && e.gross == old(payments)[p].amount
                                  && old(payments)[p].status == Pending
                               then old(payments)[p].(status := match e.outcome
                                                                case Settlement => Paid
                                                                case Failure => Failed
                                                                case _ => Pending)
                               else old(payments)[p]
      ensures rows.Keys == old(rows).Keys
      ensures forall k | k in old(rows) ::
                rows[k] == if && k == old(payments)[e.order].booking && e.gross == old(payments)[e.order].amount
                              && e.outcome == Settlement && old(rows)[k].status == PendingPayment
                           then old(rows)[k].(status := Confirmed) else old(rows)[k]
    {
      var pay := payments[e.order];
      if e.gross != pay.amount {
        return AmountMismatch(pay.amount, e.gross);
      }
      match e.outcome {
        case Settlement =>
          if pay.status == Pending {
            payments := payments[e.order := pay.(status := Paid)];
          }
          var confirmed := pay.booking in rows && rows[pay.booking].status == PendingPayment;
          if confirmed {
            rows := rows[pay.booking := rows[pay.booking].(status := Confirmed)];
          }
          result := SettlementSeen(confirmed);
        case Failure =>
          if pay.status == Pending {
            payments := payments[e.order := pay.(status := Failed)];
          }
          result := FailureSeen;
        case InFlight =>
          result := NoChange;
        case Ignored =>
          result := NoChange;
      }
      assert payments == ApplyOutcome(old(Db()), e).payments;
      assert rows == ApplyOutcome(old(Db()), e).rows;
    }

    /** One verified delivery: record, apply, and announce a flip after the commit. */
    method Handle(e: ProviderEvent) returns (result: ApplyResult)
      modifies this
      ensures State(Db(), map[]) == Run(State(old(Db()), map[]), [Deliver(e, Commit)])
      ensures result == Meaning(old(Db()), e)
      ensures result == UnknownOrder <==> e.order !in old(payments)
      ensures result == Duplicate <==> e.order in old(payments) && exists x | x in old(recorded) :: x.id == e.id
      ensures result in {UnknownOrder, Duplicate} ==> Db() == old(Db())
      ensures result !in {UnknownOrder, Duplicate} ==>
                var pay := old(payments)[e.order];
                var matches := e.gross == pay.amount;
                var flips := && matches && e.outcome == Settlement && pay.booking in old(rows)
                             && old(rows)[pay.booking].status == PendingPayment;
                && recorded == old(recorded) + [e]
                && result == (if !matches then AmountMismatch(pay.amount, e.gross)
                              else match e.outcome
                                   case Settlement => SettlementSeen(flips)
                                   case Failure => FailureSeen
                                   case _ => NoChange)
                && payments == old(payments)[e.order := pay.(status :=
                     if matches && pay.status == Pending && e.outcome == Settlement then Paid
                     else if matches && pay.status == Pending && e.outcome == Failure then Failed
                     else pay.status)]
                && rows == (if flips then old(rows)[pay.booking := old(rows)[pay.booking].(status := Confirmed)]
                            else old(rows))
                && notices == old(notices) + (if flips then [pay.booking] else [])
    {
      RunOne(State(Db(), map[]), Deliver(e, Commit));
      if e.order !in payments {
        return UnknownOrder;
      }
      if exists x | x in recorded :: x.id == e.id {
        return Duplicate;
      }
      recorded := recorded + [e];
      result := ApplyEvent(e);
      if result == SettlementSeen(true) {
        notices := notices + [payments[e.order].booking];
      }
    }

    /**
     * A pushed delivery: the order it names must resolve to a tenant with a credential, and the signature must hold
     * under it, before anything of the body counts.
     */
    method Receive(peeked: nat, e: ProviderEvent, hasCredential: bool, signed: bool) returns (r: Reception)
      modifies this
      ensures r.Unverifiable? <==> peeked !in old(payments) || !hasCredential
      ensures r.BadSignature? <==> peeked in old(payments) && hasCredential && !signed
      ensures !r.Received? ==> Db() == old(Db())
      ensures r.Received? ==>
                && State(Db(), map[]) == Run(State(old(Db()), map[]), [Deliver(e, Commit)])
                && r.result == Meaning(old(Db()), e)
    {
      if peeked !in payments || !hasCredential {
        return Unverifiable;
      }
      if !signed {
        return BadSignature;
      }
      var result := Handle(e);
      return Received(result);
    }

    /** Reading a pending booking pulls the provider's status for its open session, then sweeps its unit. */
    method ReconcileOnRead(k: Key, pulled: Option<ProviderEvent>)
      requires pulled.Some? ==> OpenFor(pulled.value.order, k)
      modifies this
      ensures k !in old(rows) || old(rows)[k].status != PendingPayment ==> Db() == old(Db())
      ensures k in old(rows) && old(rows)[k].status == PendingPayment ==>
                State(Db(), map[]) == Run(State(old(Db()), map[]), ReadSteps(old(rows)[k], pulled, now))
      ensures k in rows ==> !Lapsed(rows[k], now) || k !in old(rows)
      ensures k in old(rows) && old(rows)[k].status == PendingPayment ==>
                var b := old(rows)[k];
                && k in rows && rows[k].status ==
                   if && pulled.Some? && pulled.value.outcome == Settlement
                      && !(exists x | x in old(recorded) :: x.id == pulled.value.id)
                      && pulled.value.gross == old(payments)[pulled.value.order].amount
                   then Confirmed
                   else if b.holdExpires.Some? && b.holdExpires.value < now then Expired else PendingPayment
      ensures k in old(rows) && old(rows)[k].status == PendingPayment ==>
                && rows.Keys == old(rows).Keys
                && forall j | j in old(rows) && j != k ::
                     var b := old(rows)[j];
                     rows[j] == if && b.unit == old(rows)[k].unit && b.tenant == old(rows)[k].tenant
                                   && b.status == PendingPayment && b.holdExpires.Some? && b.holdExpires.value < now
                                then b.(status := Expired) else b
      ensures k in old(rows) && old(rows)[k].status == PendingPayment ==>
                if || pulled.None?
                   || (exists x | x in old(recorded) :: x.id == pulled.value.id)
                   || pulled.value.gross != old(payments)[pulled.value.order].amount
                   || pulled.value.outcome !in {Settlement, Failure}
                then payments == old(payments)
                else
                  var pay := old(payments)[pulled.value.order];
                  payments == old(payments)[pulled.value.order :=
                                pay.(status := if pulled.value.outcome == Settlement then Paid else Failed)]
    {
      if k !in rows || rows[k].status != PendingPayment {
        return;
      }
      hide Run, Do, Delivered, UnitLapsed, Expire;
      var b := rows[k];
      ghost var start := State(Db(), map[]);
      if pulled.Some? {
        var _ := Handle(pulled.value);
        RunOne(start, Deliver(pulled.value, Commit));
        RunTwo(start, Deliver(pulled.value, Commit), SweepUnit(b.tenant, b.unit, now));
      } else {
        RunOne(start, SweepUnit(b.tenant, b.unit, now));
      }
      assert k in rows && rows[k].tenant == b.tenant && rows[k].unit == b.unit;
      SweepAlone(Db(), b.tenant, b.unit);
      ExpireLapsedHolds(b.tenant, b.unit);
    }

    predicate OpenFor(order: nat, k: Key)
      reads this
    {
      order in payments && payments[order].booking == k && payments[order].status == Pending
    }

    /** Dismissing an inbox item; doing it again finds the first time stamp. */
    method MarkHandled(tenant: nat, p: nat) returns (outcome: HandleOutcome)
      modifies this`payments
      ensures State(Db(), map[]) == Run(State(old(Db()), map[]), [Ledger.MarkHandled(tenant, p)])
      ensures outcome.HandledAt? <==> LapsedPaid(old(Db()), tenant, p)
      ensures outcome.HandledAt? <==>
                && p in old(payments) && old(payments)[p].status == Paid && old(payments)[p].booking in old(rows)
                && old(rows)[old(payments)[p].booking].tenant == tenant
                && old(rows)[old(payments)[p].booking].status in {Expired, Cancelled}
      ensures payments == if outcome.HandledAt? && old(payments)[p].handledAt == None
                          then old(payments)[p := old(payments)[p].(handledAt := Some(now))] else old(payments)
      ensures outcome.HandledAt? ==> p in payments && payments[p].handledAt == Some(outcome.at)
      ensures !InInbox(old(Db()), tenant, p) ==> payments == old(payments)
    {
      RunOne(State(Db(), map[]), Ledger.MarkHandled(tenant, p));
      if InInbox(Db(), tenant, p) {
        payments := payments[p := payments[p].(handledAt := Some(now))];
        return HandledAt(now);
      }
      if LapsedPaid(Db(), tenant, p) {
        return HandledAt(payments[p].handledAt.value);
      }
      return NotInInbox;
    }
  }

  function ReadSteps(b: Booking, pulled: Option<ProviderEvent>, now: int): seq<Action> {
    (if pulled.Some? then [Deliver(pulled.value, Commit)] else []) + [SweepUnit(b.tenant, b.unit, now)]
  }

  /** A checkout or owner write without company. */
  function WriteSteps(w: Wish, welcome: bool): seq<Action> {
    [BeginWrite(0, w), Sweep(0), Recheck(0, welcome), Insert(0)]
  }

  /** The gateway answered with a session, or did not answer. */
  function LastStep(order: nat, gateway: Option<string>): Action {
    if gateway.Some? then Mint(0, order, gateway.value) else Abort(0)
  }

  function PaySteps(k: Key, pct: Percent, order: nat, gateway: Option<string>): seq<Action> {
    [BeginPay(0, k), Lock(0, pct), Check(0), LastStep(order, gateway)]
  }

  /** The window test of a write, spelled out on the table before its sweep. */
  lemma SweepAlone(db: Tables, tenant: nat, unit: nat)
    ensures Do(State(db, map[]), SweepUnit(tenant, unit, db.now))
         == State(db.(rows := Expire(db.rows, UnitLapsed(db.rows, tenant, unit, db.now))), map[])
  {
    hide Expire, UnitLapsed;
  }

  lemma WindowIsFree(db: Tables, w: Wish)
    requires Direct(w.id) !in db.rows
    ensures Refused(Expire(db.rows, UnitLapsed(db.rows, w.tenant, w.unit, db.now)), Direct(w.id), Row(w, db.now)) <==>
              exists k | k in db.rows ::
                && db.rows[k].unit == w.unit
                && (db.rows[k].status == Confirmed
                    || (db.rows[k].status == PendingPayment
                        && !(db.rows[k].tenant == w.tenant && db.rows[k].holdExpires.Some?
                             && db.rows[k].holdExpires.value < db.now)))
                && db.rows[k].checkIn < w.checkOut && w.checkIn < db.rows[k].checkOut
  {
    var rows := Expire(db.rows, UnitLapsed(db.rows, w.tenant, w.unit, db.now));
    assert forall k | k in db.rows :: k in rows;
  }

  /** What a write without company leaves. */
  function AfterWrite(db: Tables, w: Wish, welcome: bool): Tables {
    var rows := Expire(db.rows, UnitLapsed(db.rows, w.tenant, w.unit, db.now));
    if !welcome || Refused(rows, Direct(w.id), Row(w, db.now)) then db
    else db.(rows := rows[Direct(w.id) := Row(w, db.now)])
  }

  lemma WriteRuns(db: Tables, w: Wish, welcome: bool)
    requires w.checkIn < w.checkOut && Direct(w.id) !in db.rows
    ensures Run(State(db, map[]), WriteSteps(w, welcome)) == State(AfterWrite(db, w, welcome), map[])
  {
    hide Refused, Row;
    var s0 := State(db, map[]);
    var swept := UnitLapsed(db.rows, w.tenant, w.unit, db.now);
    RunFour(s0, BeginWrite(0, w), Sweep(0), Recheck(0, welcome), Insert(0));
    var s1 := State(db, map[0 := Begun(db.now, w)]);
    assert Do(s0, BeginWrite(0, w)) == s1;
    NobodyElse(0, Begun(db.now, w), swept);
    var s2 := State(db, map[0 := Cleared(db.now, w, swept)]);
    assert Do(s1, Sweep(0)) == s2;
    RecheckAlone(db, w, welcome, swept);
  }

  lemma RecheckAlone(db: Tables, w: Wish, welcome: bool, swept: set<Key>)
    requires w.checkIn < w.checkOut && Direct(w.id) !in db.rows
    ensures var rows := Expire(db.rows, swept);
            Do(Do(State(db, map[0 := Cleared(db.now, w, swept)]), Recheck(0, welcome)), Insert(0)) ==
            State(if !welcome || Refused(rows, Direct(w.id), Row(w, db.now)) then db
                  else db.(rows := rows[Direct(w.id) := Row(w, db.now)]),
                  map[])
  {
    hide Refused, Row;
    var s2 := State(db, map[0 := Cleared(db.now, w, swept)]);
    var rows := Expire(db.rows, swept);
    assert map[0 := Cleared(db.now, w, swept)] - {0} == map[];
    if welcome && !Refused(rows, Direct(w.id), Row(w, db.now)) {
      var s3 := State(db, map[0 := Writing(db.now, w, swept)]);
      assert Do(s2, Recheck(0, welcome)) == s3;
      assert map[0 := Writing(db.now, w, swept)] - {0} == map[];
    }
  }

  /** What a pay step without company leaves. */
  function AfterPay(db: Tables, k: Key, pct: Percent, order: nat, gateway: Option<string>): Tables {
    if k !in db.rows then db
    else
      var b := db.rows[k];
      var rows := Expire(db.rows, UnitLapsed(db.rows, b.tenant, b.unit, db.now));
      if rows[k].status != PendingPayment || b.price == None then db
      else if OpenSession(db.payments, k) then db.(rows := rows)
      else if gateway == None then db
      else db.(rows := rows,
               payments := db.payments[order := Payment(k, Deposit(b.price.value, pct), Pending, None, gateway.value)])
  }

  lemma PayRuns(db: Tables, k: Key, pct: Percent, order: nat, gateway: Option<string>)
    requires order !in db.payments
    ensures Run(State(db, map[]), PaySteps(k, pct, order, gateway))
         == State(AfterPay(db, k, pct, order, gateway), map[])
  {
    hide OpenSession;
    var s0 := State(db, map[]);
    RunFour(s0, BeginPay(0, k), Lock(0, pct), Check(0), LastStep(order, gateway));
    var s1 := State(db, map[0 := Paying(db.now, k)]);
    assert Do(s0, BeginPay(0, k)) == s1;
    assert map[0 := Paying(db.now, k)] - {0} == map[];
    if k in db.rows {
      assert !LockedRow(s1.txs, k);
      assert Do(s1, Lock(0, pct)) == State(db, map[0 := Locked(db.now, k, pct)]);
      CheckAlone(db, k, pct, order, gateway);
    }
  }

  lemma CheckAlone(db: Tables, k: Key, pct: Percent, order: nat, gateway: Option<string>)
    requires order !in db.payments && k in db.rows
    ensures Do(Do(State(db, map[0 := Locked(db.now, k, pct)]), Check(0)), LastStep(order, gateway))
         == State(AfterPay(db, k, pct, order, gateway), map[])
  {
    hide OpenSession, Deposit;
    var b := db.rows[k];
    var swept := UnitLapsed(db.rows, b.tenant, b.unit, db.now);
    var locked := Locked(db.now, k, pct);
    NobodyElse(0, locked, swept);
    assert map[0 := locked] - {0} == map[];
    if k !in swept && b.status == PendingPayment && b.price.Some? && !OpenSession(db.payments, k) {
      var minting := Minting(db.now, k, pct, swept);
      assert Do(State(db, map[0 := locked]), Check(0)) == State(db, map[0 := minting]);
      assert map[0 := minting] - {0} == map[];
    }
  }

  lemma NobodyElse(t: nat, tx: Tx, keys: set<Key>)
    ensures !AnyBusy(map[t := tx], t, keys)
  {
  }

  lemma RunOne(s: State, a: Action)
    ensures Run(s, [a]) == Do(s, a)
  {
    assert [a][..0] == [];
  }

  lemma RunTwo(s: State, a: Action, b: Action)
    ensures Run(s, [a, b]) == Do(Do(s, a), b)
  {
    assert [a, b][..1] == [a];
    RunOne(s, a);
  }

  lemma RunFour(s: State, a: Action, b: Action, c: Action, d: Action)
    ensures Run(s, [a, b, c, d]) == Do(Do(Do(Do(s, a), b), c), d)
  {
    hide Do;
    assert [a, b, c, d][..3] == [a, b, c] && [a, b, c][..2] == [a, b];
    RunTwo(s, a, b);
    assert Run(s, [a, b, c]) == Do(Run(s, [a, b]), c);
  }
}
