/**
 * What invites, accepts and team changes keep true, however they interleave.
 */
module InviteSafety {
  import opened Options
  import opened Invites

  // ---- The invariant ----------------------------------------------------------------------------------

  /** Every assignment is of a member, to a property of the same tenant. */
  ghost predicate AssignmentsBacked(db: Db) {
    forall a | a in db.assignments ::
      && Seat(a.user, db.assignments[a]) in db.seats
      && a.property in db.properties && db.properties[a.property] == db.assignments[a]
  }

  ghost predicate SeatsBacked(db: Db) {
    forall k | k in db.seats :: k.user in db.accounts
  }

  /** An invite grants its own tenant's properties, was made by an owner, and is closed at most one way. */
  ghost predicate InviteOk(db: Db, i: Invite) {
    && OwnProperties(db, i.tenant, i.grants)
    && Seat(i.createdBy, i.tenant) in db.seats && db.seats[Seat(i.createdBy, i.tenant)] == Owner
    && !(i.acceptedAt.Some? && i.revokedAt.Some?)
  }

  ghost predicate InvitesOk(db: Db) {
    forall i | i in db.invites :: InviteOk(db, db.invites[i])
  }

  /** At most one open invite per tenant and address. */
  ghost predicate OneOpen(db: Db) {
    forall i, j | i in db.invites && j in db.invites && Open(db.invites[i]) && Open(db.invites[j])
                  && db.invites[i].tenant == db.invites[j].tenant && db.invites[i].email == db.invites[j].email ::
      i == j
  }

  ghost predicate DbOk(db: Db) {
    AssignmentsBacked(db) && SeatsBacked(db) && InvitesOk(db) && OneOpen(db)
  }

  /** An accept in flight has an open invite that was live when it began, and the account it found is there. */
  ghost predicate TxOk(db: Db, tx: Tx) {
    tx.Arrived? ||
    (&& tx.invite in db.invites && Open(db.invites[tx.invite]) && tx.began < db.invites[tx.invite].expiresAt
     && (HoldsAccount(tx) ==> db.invites[tx.invite].email in db.accounts)
     && (tx.Ready? && tx.way == ClaimAccount ==> SeatsOf(db, db.invites[tx.invite].email) == {}))
  }

  /** Accepts hold different invites, and different accounts. */
  ghost predicate LocksApart(s: State) {
    && (forall t, u | t in s.txs && u in s.txs && t != u && HoldsInvite(s.txs[t], s.txs[t].invite) ::
          !HoldsInvite(s.txs[u], s.txs[t].invite))
    && (forall t, u, email | t in s.txs && u in s.txs && t != u && HoldsAddress(s.db, s.txs[t], email) ::
          !HoldsAddress(s.db, s.txs[u], email))
  }

  ghost predicate TxsOk(s: State) {
    LocksApart(s) && forall t | t in s.txs :: TxOk(s.db, s.txs[t])
  }

  ghost predicate Inv(s: State) {
    DbOk(s.db) && TxsOk(s)
  }

  // ---- The tables -------------------------------------------------------------------------------------

  /** The account is there after an accept, and keeps every account that was. */
  lemma SeatedKeeps(db: Db, tx: Tx)
    requires DbOk(db) && TxOk(db, tx) && tx.Ready? && !EmailTaken(db, tx)
    ensures DbOk(Seated(db, tx))
  {
    var after := Seated(db, tx);
    var i := db.invites[tx.invite];
    assert InviteOk(db, i);
    forall a | a in after.assignments
      ensures Seat(a.user, after.assignments[a]) in after.seats
      ensures a.property in after.properties && after.properties[a.property] == after.assignments[a]
    {
      if a !in db.assignments {
        assert a.property in i.grants;
      }
    }
    forall j | j in after.invites
      ensures InviteOk(after, after.invites[j])
    {
      assert InviteOk(db, db.invites[j]);
    }
  }

  lemma CreateKeeps(db: Db, id: nat, tenant: nat, owner: string, email: string, grants: set<nat>, ttl: int)
    requires DbOk(db)
    ensures DbOk(CreateInvite(db, id, tenant, owner, email, grants, ttl))
  {
    var after := CreateInvite(db, id, tenant, owner, email, grants, ttl);
    forall j | j in after.invites
      ensures InviteOk(after, after.invites[j])
    {
      assert j in db.invites ==> InviteOk(db, db.invites[j]);
    }
  }

  /** Closing open invites, and nothing else. */
  ghost predicate OnlyRevokes(db: Db, after: Db) {
    && after == db.(invites := after.invites) && after.invites.Keys == db.invites.Keys
    && forall i | i in db.invites ::
         || after.invites[i] == db.invites[i]
         || (Open(db.invites[i]) && after.invites[i] == db.invites[i].(revokedAt := Some(db.now)))
  }

  lemma RevokingKeeps(db: Db, after: Db)
    requires DbOk(db) && OnlyRevokes(db, after)
    ensures DbOk(after)
  {
    forall j | j in after.invites
      ensures InviteOk(after, after.invites[j])
    {
      assert InviteOk(db, db.invites[j]);
    }
  }

  lemma ReplaceKeeps(db: Db, tenant: nat, user: string, properties: set<nat>)
    requires DbOk(db)
    ensures DbOk(Replace(db, tenant, user, properties))
  {
    var after := Replace(db, tenant, user, properties);
    forall j | j in after.invites
      ensures InviteOk(after, after.invites[j])
    {
      assert InviteOk(db, db.invites[j]);
    }
  }

  /** Removing a staff seat takes no invite with it: invites are made by owners. */
  lemma RemoveKeeps(db: Db, tenant: nat, user: string)
    requires DbOk(db)
    ensures DbOk(Remove(db, tenant, user)) && Remove(db, tenant, user).invites == db.invites
  {
    var after := Remove(db, tenant, user);
    if after != db {
      forall j | j in db.invites
        ensures j in after.invites && InviteOk(after, db.invites[j])
      {
        assert InviteOk(db, db.invites[j]);
      }
    }
  }

  lemma RegisterKeeps(db: Db, email: string, hash: nat, tenant: nat)
    requires DbOk(db)
    ensures DbOk(Register(db, email, hash, tenant))
  {
    var after := Register(db, email, hash, tenant);
    if after != db {
      forall j | j in after.invites
        ensures InviteOk(after, after.invites[j])
      {
        assert InviteOk(db, db.invites[j]);
      }
    }
  }

  lemma AddPropertyKeeps(db: Db, p: nat, tenant: nat)
    requires DbOk(db)
    ensures DbOk(AddProperty(db, p, tenant))
  {
    var after := AddProperty(db, p, tenant);
    forall j | j in after.invites
      ensures InviteOk(after, after.invites[j])
    {
      assert InviteOk(db, db.invites[j]);
    }
  }

  lemma DropPropertyKeeps(db: Db, p: nat)
    requires DbOk(db)
    ensures DbOk(DropProperty(db, p))
  {
    var after := DropProperty(db, p);
    forall j | j in after.invites
      ensures InviteOk(after, after.invites[j])
    {
      assert InviteOk(db, db.invites[j]);
    }
  }

  lemma TablesStep(s: State, a: Action)
    requires Inv(s)
    ensures DbOk(Do(s, a).db)
  {
    hide DbOk, TxsOk, Seated, EmailTaken, CreateInvite, Replace, Remove, Register, AddProperty, DropProperty;
    match a
    case Finish(t) => FinishTables(s, t);
    case Invited(id, tenant, owner, email, grants, ttl) => CreateKeeps(s.db, id, tenant, owner, email, grants, ttl);
    case Superseded(tenant, email) => RevokingKeeps(s.db, Supersede(s.db, tenant, email));
    case RevokeInvite(tenant, i) => RevokingKeeps(s.db, Revoke(s.db, tenant, i));
    case ReplaceAssignments(tenant, user, ps) => ReplaceKeeps(s.db, tenant, user, ps);
    case RemoveStaff(tenant, user) => RemoveKeeps(s.db, tenant, user);
    case Registered(email, hash, tenant) => RegisterKeeps(s.db, email, hash, tenant);
    case PropertyAdded(p, tenant) => AddPropertyKeeps(s.db, p, tenant);
    case PropertyDropped(p) => DropPropertyKeeps(s.db, p);
    case Tick(elapsed) => TickKeeps(s.db, elapsed);
    case _ =>
  }

  lemma FinishTables(s: State, t: nat)
    requires Inv(s)
    ensures DbOk(DoFinish(s, t).db)
  {
    hide DbOk, Seated, EmailTaken;
    if t in s.txs && s.txs[t].Ready? && !EmailTaken(s.db, s.txs[t]) {
      assert TxOk(s.db, s.txs[t]);
      SeatedKeeps(s.db, s.txs[t]);
    }
  }

  lemma TickKeeps(db: Db, elapsed: nat)
    requires DbOk(db)
    ensures DbOk(db.(now := db.now + elapsed))
  {
    var after := db.(now := db.now + elapsed);
    forall j | j in after.invites
      ensures InviteOk(after, after.invites[j])
    {
      assert InviteOk(db, db.invites[j]);
    }
  }

  // ---- Accepts in flight ------------------------------------------------------------------------------

  /** The step leaves invite i open, with its address and expiry, and loses no account. */
  ghost predicate Undisturbed(db: Db, after: Db, i: nat) {
    && (i in db.invites ==>
          && i in after.invites && (Open(db.invites[i]) ==> Open(after.invites[i]))
          && after.invites[i].email == db.invites[i].email && after.invites[i].expiresAt == db.invites[i].expiresAt)
    && db.accounts.Keys <= after.accounts.Keys
  }

  lemma TxUndisturbed(db: Db, after: Db, tx: Tx)
    requires TxOk(db, tx) && !tx.Arrived? && Undisturbed(db, after, tx.invite)
    requires HoldsAccount(tx) ==>
               SeatsOf(after, db.invites[tx.invite].email) <= SeatsOf(db, db.invites[tx.invite].email)
    ensures TxOk(after, tx)
  {
  }

  /** No step but its own accept disturbs an invite that an accept holds. */
  lemma HeldInvite(s: State, a: Action, t: nat)
    requires Inv(s) && t in s.txs && t in Do(s, a).txs && !s.txs[t].Arrived?
    ensures Undisturbed(s.db, Do(s, a).db, s.txs[t].invite)
  {
    hide AssignmentsBacked, SeatsBacked, OneOpen, InviteOk, SeatsOf;
    assert TxOk(s.db, s.txs[t]);
    if a.Finish? && a.t in s.txs {
      assert TxOk(s.db, s.txs[a.t]);
    }
  }

  /** While an accept holds an account, the account gains no seat: that is what the row lock is for. */
  lemma HeldAccountGainsNoSeat(s: State, a: Action, t: nat)
    requires Inv(s) && t in s.txs && t in Do(s, a).txs && HoldsAccount(s.txs[t])
    ensures var email := s.db.invites[s.txs[t].invite].email;
            SeatsOf(Do(s, a).db, email) <= SeatsOf(s.db, email)
  {
    hide AssignmentsBacked, SeatsBacked, OneOpen, InviteOk;
    assert TxOk(s.db, s.txs[t]);
    var email := s.db.invites[s.txs[t].invite].email;
    assert HoldsAddress(s.db, s.txs[t], email);
    if a.Finish? && a.t in s.txs && a.t != t {
      assert TxOk(s.db, s.txs[a.t]);
      assert !HoldsAddress(s.db, s.txs[a.t], email);
    }
  }

  lemma NewTx(s: State, a: Action, t: nat)
    requires Inv(s) && t in Do(s, a).txs && !(t in s.txs && Do(s, a).txs[t] == s.txs[t])
    ensures TxOk(Do(s, a).db, Do(s, a).txs[t])
  {
    hide DbOk, WaitsFor, SeatsOf;
    if t in s.txs {
      assert TxOk(s.db, s.txs[t]);
    }
  }

  lemma TxOkStep(s: State, a: Action, t: nat)
    requires Inv(s) && t in Do(s, a).txs
    ensures TxOk(Do(s, a).db, Do(s, a).txs[t])
  {
    hide DbOk, Do;
    if t in s.txs && Do(s, a).txs[t] == s.txs[t] {
      assert TxOk(s.db, s.txs[t]);
      if !s.txs[t].Arrived? {
        HeldInvite(s, a, t);
        if HoldsAccount(s.txs[t]) {
          HeldAccountGainsNoSeat(s, a, t);
        }
        TxUndisturbed(s.db, Do(s, a).db, s.txs[t]);
      }
    } else {
      NewTx(s, a, t);
    }
  }

  /** A step starts or moves at most the one accept it names, and a new hold on an account finds it free. */
  lemma MovesOne(s: State, a: Action, t: nat)
    requires t in Do(s, a).txs && (t !in s.txs || Do(s, a).txs[t] != s.txs[t])
    ensures a.Accept? || a.Spend? || a.LockAccount? || a.Decide?
    ensures a.t == t && Do(s, a).db == s.db
    ensures t in s.txs ==> Do(s, a).txs[t].invite == s.txs[t].invite
    ensures t !in s.txs ==> !HoldsAccount(Do(s, a).txs[t]) && Do(s, a).txs[t].Arrived?
    ensures forall i | HoldsInvite(Do(s, a).txs[t], i) ::
              t in s.txs && (HoldsInvite(s.txs[t], i) || !InviteLocked(s, i))
    ensures forall email | HoldsAddress(s.db, Do(s, a).txs[t], email) ::
              !AccountLocked(s, t, email) || HoldsAddress(s.db, s.txs[t], email)
  {
    hide WaitsFor, SeatsOf;
  }

  /** The addresses of held invites do not change. */
  lemma SameAddress(s: State, a: Action, t: nat, email: string)
    requires Inv(s) && t in s.txs && t in Do(s, a).txs && HoldsAddress(Do(s, a).db, s.txs[t], email)
    ensures HoldsAddress(s.db, s.txs[t], email)
  {
    hide Do;
    assert TxOk(s.db, s.txs[t]);
    HeldInvite(s, a, t);
  }

  lemma LocksStep(s: State, a: Action)
    requires Inv(s)
    ensures LocksApart(Do(s, a))
  {
    var after := Do(s, a);
    hide DbOk, Do, HoldsAccount, HoldsAddress;
    forall t, u | t in after.txs && u in after.txs && t != u
      ensures HoldsInvite(after.txs[t], after.txs[t].invite) ==> !HoldsInvite(after.txs[u], after.txs[t].invite)
      ensures forall email | HoldsAddress(after.db, after.txs[t], email) :: !HoldsAddress(after.db, after.txs[u], email)
    {
      ApartStep(s, a, t, u);
    }
  }

  lemma ApartStep(s: State, a: Action, t: nat, u: nat)
    requires Inv(s) && t in Do(s, a).txs && u in Do(s, a).txs && t != u
    ensures var after := Do(s, a);
            && (HoldsInvite(after.txs[t], after.txs[t].invite) ==> !HoldsInvite(after.txs[u], after.txs[t].invite))
            && forall email | HoldsAddress(after.db, after.txs[t], email) ::
                !HoldsAddress(after.db, after.txs[u], email)
  {
    var after := Do(s, a);
    hide DbOk, Do, HoldsAccount, TxOk;
    var tMoves := t !in s.txs || after.txs[t] != s.txs[t];
    var uMoves := u !in s.txs || after.txs[u] != s.txs[u];
    if tMoves {
      MovesOne(s, a, t);
    }
    if uMoves {
      MovesOne(s, a, u);
    }
    assert !(tMoves && uMoves);
    assert t in s.txs || u in s.txs;
    forall email | HoldsAddress(after.db, after.txs[t], email)
      ensures !HoldsAddress(after.db, after.txs[u], email)
    {
      if !tMoves {
        SameAddress(s, a, t, email);
      }
      if !uMoves && HoldsAddress(after.db, after.txs[u], email) {
        SameAddress(s, a, u, email);
      }
    }
  }

  lemma DoKeeps(s: State, a: Action)
    requires Inv(s)
    ensures Inv(Do(s, a))
  {
    TablesStep(s, a);
    LocksStep(s, a);
    forall t | t in Do(s, a).txs
      ensures TxOk(Do(s, a).db, Do(s, a).txs[t])
    {
      TxOkStep(s, a, t);
    }
    hide Do, DbOk, LocksApart, TxOk;
  }

  lemma {:induction false} RunKeeps(s: State, actions: seq<Action>)
    requires Inv(s)
    ensures Inv(Run(s, actions))
  {
    hide Inv;
    if actions != [] {
      RunKeeps(s, actions[..|actions| - 1]);
      DoKeeps(Run(s, actions[..|actions| - 1]), actions[|actions| - 1]);
    }
  }
}
