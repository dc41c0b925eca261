/**
 * What the invite protocol promises: one spend, no seized account, no changed role, no lost link.
 */
module InviteTheorems {
  import opened Options
  import opened Invites
  import opened InviteSafety

  // ---- Liveness, explained ----------------------------------------------------------------------------

  /** The explanation and the ruling agree: no reason is given exactly when the guarded UPDATE would match. */
  lemma NoReasonIffLive(i: Invite, now: int)
    ensures RefusalReason(i, now) == None <==> Live(i, now)
  {
  }

  /** An invite closed because it ran out of time is reported as expired at every later time, never as withdrawn. */
  lemma SupersededReadsExpired(db: Db, tenant: nat, email: string, i: nat, later: nat)
    requires Lapsed(db, tenant, email, i)
    ensures RefusalReason(Supersede(db, tenant, email).invites[i], db.now + later) == Some(Expired)
  {
  }

  /** After superseding, an open invite for the address is a live one: the index and the check agree. */
  lemma SupersedeAlignsIndex(db: Db, tenant: nat, email: string)
    ensures var after := Supersede(db, tenant, email);
            HasOpen(after, tenant, email) <==>
              exists i | i in after.invites ::
                && after.invites[i].tenant == tenant && after.invites[i].email == email
                && Live(after.invites[i], after.now)
  {
    var after := Supersede(db, tenant, email);
    forall i | i in after.invites && after.invites[i].tenant == tenant && after.invites[i].email == email
               && Open(after.invites[i])
      ensures Live(after.invites[i], after.now)
    {
    }
  }

  /** Every reason, spelled out: accepted first, then out of time, then withdrawn. */
  lemma ReasonExactly(i: Invite, now: int)
    ensures i.acceptedAt.Some? ==> RefusalReason(i, now) == Some(Accepted)
    ensures i.acceptedAt == None && i.expiresAt <= now ==> RefusalReason(i, now) == Some(Expired)
    ensures i.acceptedAt == None && i.expiresAt > now && i.revokedAt.Some? ==> RefusalReason(i, now) == Some(Revoked)
    ensures i.acceptedAt == None && i.expiresAt > now && i.revokedAt == None ==> RefusalReason(i, now) == None
  {
  }

  /** A run takes its steps one after another. */
  lemma RunSteps(s: State, actions: seq<Action>, a: Action)
    ensures Run(s, []) == s
    ensures Run(s, actions + [a]) == Do(Run(s, actions), a)
  {
    hide Do;
    assert (actions + [a])[..|actions|] == actions;
  }

  /** Spending waits exactly while another accept of the same invite is past its own spending. */
  lemma SpendWaitsExactly(s: State, t: nat)
    requires t in s.txs && s.txs[t].Arrived?
    ensures Do(s, Spend(t)) == s <==> exists u | u in s.txs :: !s.txs[u].Arrived? && s.txs[u].invite == s.txs[t].invite
  {
    if InviteLocked(s, s.txs[t].invite) {
      var u :| u in s.txs && HoldsInvite(s.txs[u], s.txs[t].invite);
    } else {
      var after := Do(s, Spend(t));
      assert t in after.txs ==> after.txs[t].Spent?;
      assert forall u | u in s.txs :: !HoldsInvite(s.txs[u], s.txs[t].invite);
    }
  }

  /**
   * The account row is waited for exactly while another accept for the same address holds it: one that found the
   * account, until it is over or has decided that it must make one.
   */
  lemma LockWaitsExactly(s: State, t: nat)
    requires t in s.txs && s.txs[t].Spent? && s.txs[t].invite in s.db.invites
    ensures Do(s, LockAccount(t)) == s <==>
            exists u | u in s.txs ::
              && u != t && s.txs[u].invite in s.db.invites
              && s.db.invites[s.txs[u].invite].email == s.db.invites[s.txs[t].invite].email
              && ((s.txs[u].Holding? && s.txs[u].found) || (s.txs[u].Ready? && s.txs[u].way != MakeAccount))
  {
    var email := s.db.invites[s.txs[t].invite].email;
    if AccountLocked(s, t, email) {
      var u :| u in s.txs && u != t && HoldsAddress(s.db, s.txs[u], email);
    } else {
      assert Do(s, LockAccount(t)).txs[t].Holding?;
      assert forall u | u in s.txs && u != t :: !HoldsAddress(s.db, s.txs[u], email);
    }
  }

  /** The last step ends the accept: refused, writing nothing, exactly when the address it would create was taken. */
  lemma FinishEnds(s: State, t: nat)
    requires t in s.txs && s.txs[t].Ready? && s.txs[t].invite in s.db.invites
    ensures var email, after := s.db.invites[s.txs[t].invite].email, Do(s, Finish(t));
            && after.txs == s.txs - {t}
            && (s.txs[t].way == MakeAccount && email in s.db.accounts ==> after.db == s.db)
            && (!(s.txs[t].way == MakeAccount && email in s.db.accounts) ==> after.db == Seated(s.db, s.txs[t]))
  {
    hide Seated;
  }

  /**
   * A statement of the owner's side takes effect at once unless an accept has spent, uncommitted, an invite it would
   * write or delete: the one it revokes, one of the address that ran out, or one that the removed user made.
   */
  lemma OwnerWaitsExactly(s: State, tenant: nat, id: nat, email: string, user: string)
    ensures Do(s, RevokeInvite(tenant, id)) ==
            if exists t | t in s.txs :: !s.txs[t].Arrived? && s.txs[t].invite == id then s
            else s.(db := Revoke(s.db, tenant, id))
    ensures Do(s, Superseded(tenant, email)) ==
            if exists t | t in s.txs ::
                 && !s.txs[t].Arrived? && s.txs[t].invite in s.db.invites
                 && var i := s.db.invites[s.txs[t].invite];
                    && i.tenant == tenant && i.email == email && i.acceptedAt == None && i.revokedAt == None
                    && i.expiresAt <= s.db.now
            then s
            else s.(db := Supersede(s.db, tenant, email))
    ensures Do(s, RemoveStaff(tenant, user)) ==
            if exists t | t in s.txs ::
                 && !s.txs[t].Arrived? && s.txs[t].invite in s.db.invites
                 && s.db.invites[s.txs[t].invite].createdBy == user && s.db.invites[s.txs[t].invite].tenant == tenant
            then s
            else s.(db := Remove(s.db, tenant, user))
  {
    hide Revoke, Supersede, Remove;
  }

  lemma TakesEffectAtOnce(s: State, a: Action)
    requires !a.RevokeInvite? && !a.Superseded? && !a.RemoveStaff?
    ensures !WaitsFor(s, a)
  {
  }

  /** Every other statement takes effect at once. */
  lemma OthersNeverWait(s: State, a: Action)
    requires !a.RevokeInvite? && !a.Superseded? && !a.RemoveStaff?
    ensures match a
            case Invited(id, tenant, owner, email, grants, ttl) =>
              Do(s, a) == State(CreateInvite(s.db, id, tenant, owner, email, grants, ttl), s.txs)
            case ReplaceAssignments(tenant, user, ps) => Do(s, a) == State(Replace(s.db, tenant, user, ps), s.txs)
            case Registered(email, hash, tenant) => Do(s, a) == State(Register(s.db, email, hash, tenant), s.txs)
            case PropertyAdded(p, tenant) => Do(s, a) == State(AddProperty(s.db, p, tenant), s.txs)
            case PropertyDropped(p) => Do(s, a) == State(DropProperty(s.db, p), s.txs)
            case Tick(elapsed) => Do(s, a) == s.(db := s.db.(now := s.db.now + elapsed))
            case Abort(t) => Do(s, a) == State(s.db, s.txs - {t})
            case _ => true
  {
    hide CreateInvite, Replace, Register, AddProperty, DropProperty, WaitsFor;
    TakesEffectAtOnce(s, a);
  }

  /** Registration gives a free address a new account that owns a new tenant, and touches nothing else. */
  lemma RegisterExactly(db: Db, email: string, hash: nat, tenant: nat)
    ensures var after := Register(db, email, hash, tenant);
            if email !in db.accounts && forall k | k in db.seats :: k.tenant != tenant
            then after == db.(accounts := db.accounts[email := hash], seats := db.seats[Seat(email, tenant) := Owner])
            else after == db
  {
  }

  /** A deleted property goes with its assignments and out of every grant; everything else stays. */
  lemma DropExactly(db: Db, p: nat)
    ensures var after := DropProperty(db, p);
            && after.accounts == db.accounts && after.seats == db.seats && after.now == db.now
            && after.properties == db.properties - {p}
            && (forall a | a in after.assignments :: a in db.assignments && after.assignments[a] == db.assignments[a])
            && (forall a | a in db.assignments :: a in after.assignments <==> a.property != p)
            && after.invites.Keys == db.invites.Keys
            && forall i | i in db.invites :: after.invites[i] == db.invites[i].(grants := db.invites[i].grants - {p})
  {
  }

  /** A new property belongs to its tenant; an id in use keeps its owner. */
  lemma AddExactly(db: Db, p: nat, tenant: nat)
    ensures AddProperty(db, p, tenant) ==
            if p in db.properties then db else db.(properties := db.properties[p := tenant])
  {
  }

  // ---- Spending ---------------------------------------------------------------------------------------

  /** This step spends invite i. */
  ghost predicate Spends(s: State, a: Action, i: nat) {
    && i in s.db.invites && s.db.invites[i].acceptedAt == None
    && i in Do(s, a).db.invites && Do(s, a).db.invites[i].acceptedAt.Some?
  }

  /** An invite is spent only by the commit of an accept that found it open and unexpired when it began. */
  lemma SpentOnlyWhileLive(s: State, a: Action, i: nat)
    requires Inv(s) && Spends(s, a, i)
    ensures a.Finish? && a.t in s.txs && s.txs[a.t].invite == i
    ensures Open(s.db.invites[i]) && s.txs[a.t].began < s.db.invites[i].expiresAt
  {
    hide DbOk;
    if a.Finish? && a.t in s.txs {
      assert TxOk(s.db, s.txs[a.t]);
    }
  }

  /** Invite i is still there, and if it was closed it has lost at most a deleted property. */
  ghost predicate ClosedKept(db: Db, after: Db, i: nat) {
    i in db.invites ==>
      && i in after.invites
      && (!Open(db.invites[i]) ==> after.invites[i] == db.invites[i].(grants := after.invites[i].grants))
  }

  lemma OwnerClosedKept(db: Db, after: Db, i: nat)
    requires after.invites == db.invites || OnlyRevokes(db, after)
    ensures ClosedKept(db, after, i)
  {
  }

  lemma CreateClosedKept(db: Db, id: nat, tenant: nat, owner: string, email: string, grants: set<nat>, ttl: int, i: nat)
    ensures ClosedKept(db, CreateInvite(db, id, tenant, owner, email, grants, ttl), i)
  {
    hide OwnProperties, HasOpen;
  }

  lemma DropClosedKept(db: Db, p: nat, i: nat)
    ensures ClosedKept(db, DropProperty(db, p), i)
  {
  }

  lemma FinishClosedKept(s: State, t: nat, i: nat)
    requires Inv(s)
    ensures ClosedKept(s.db, DoFinish(s, t).db, i)
  {
    hide DbOk, Grants, SeatsOf;
    if t in s.txs {
      assert TxOk(s.db, s.txs[t]);
    }
  }

  /** Invites never vanish, and a closed one never changes again except to lose a deleted property. */
  lemma ClosedStaysClosed(s: State, a: Action, i: nat)
    requires Inv(s) && i in s.db.invites
    ensures i in Do(s, a).db.invites
    ensures !Open(s.db.invites[i]) ==>
              Do(s, a).db.invites[i] == s.db.invites[i].(grants := Do(s, a).db.invites[i].grants)
  {
    ClosedStep(s, a, i);
    hide Do, Inv;
  }

  lemma ClosedStep(s: State, a: Action, i: nat)
    requires Inv(s)
    ensures ClosedKept(s.db, Do(s, a).db, i)
  {
    hide DbOk, WaitsFor, Remove, CreateInvite, DropProperty, DoFinish, ClosedKept;
    OwnerClosedKept(s.db, s.db, i);
    match a
    case Finish(t) => FinishClosedKept(s, t, i);
    case Invited(id, tenant, owner, email, grants, ttl) =>
      CreateClosedKept(s.db, id, tenant, owner, email, grants, ttl, i);
    case PropertyDropped(p) => DropClosedKept(s.db, p, i);
    case RemoveStaff(tenant, user) =>
      RemoveKeeps(s.db, tenant, user);
      OwnerClosedKept(s.db, Do(s, a).db, i);
    case _ =>
      OwnerClosedKept(s.db, Do(s, a).db, i);
  }

  lemma {:induction false} ClosedForGood(s: State, actions: seq<Action>, i: nat)
    requires Inv(s) && i in s.db.invites
    ensures i in Run(s, actions).db.invites
    ensures !Open(s.db.invites[i]) ==>
              && Run(s, actions).db.invites[i].acceptedAt == s.db.invites[i].acceptedAt
              && Run(s, actions).db.invites[i].revokedAt == s.db.invites[i].revokedAt
  {
    hide Inv;
    if actions != [] {
      var init := actions[..|actions| - 1];
      ClosedForGood(s, init, i);
      RunKeeps(s, init);
      ClosedStaysClosed(Run(s, init), actions[|actions| - 1], i);
    }
  }

  lemma {:induction false} RunJoins(s: State, a: seq<Action>, b: seq<Action>)
    ensures Run(s, a + b) == Run(Run(s, a), b)
  {
    if b == [] {
      assert a + b == a;
    } else {
      RunJoins(s, a, b[..|b| - 1]);
      assert (a + b)[..|a + b| - 1] == a + b[..|b| - 1];
    }
  }

  /** Over every run an invite is spent at most once, however many accepts race for it. */
  lemma SpentAtMostOnce(actions: seq<Action>, i: nat, m: nat, n: nat)
    requires m < n < |actions|
    requires Spends(Run(EMPTY, actions[..m]), actions[m], i)
    ensures !Spends(Run(EMPTY, actions[..n]), actions[n], i)
  {
    hide Do;
    assert actions[..m + 1][..m] == actions[..m];
    var spent := Run(EMPTY, actions[..m + 1]);
    RunKeeps(EMPTY, actions[..m + 1]);
    assert !Open(spent.db.invites[i]);
    assert actions[..m + 1] + actions[m + 1..n] == actions[..n];
    RunJoins(EMPTY, actions[..m + 1], actions[m + 1..n]);
    ClosedForGood(spent, actions[m + 1..n], i);
  }

  // ---- Accounts and roles -----------------------------------------------------------------------------

  /** No step changes the password of an account that holds a seat; only a claim changes any. */
  lemma SeatedPasswordsKept(s: State, a: Action, user: string)
    requires Inv(s) && user in s.db.accounts
    ensures user in Do(s, a).db.accounts
    ensures SeatsOf(s.db, user) != {} ==> Do(s, a).db.accounts[user] == s.db.accounts[user]
    ensures Do(s, a).db.accounts[user] != s.db.accounts[user] ==>
              a.Finish? && a.t in s.txs && s.txs[a.t].Ready? && s.txs[a.t].way == ClaimAccount
              && s.db.invites[s.txs[a.t].invite].email == user
  {
    hide DbOk, SeatsOf;
    if a.Finish? && a.t in s.txs {
      assert TxOk(s.db, s.txs[a.t]);
    }
  }

  /**
   * No step changes the role of a seat that stays, and a seat appears only with its tenant or by an accept, as staff.
   */
  lemma RolesKept(s: State, a: Action, k: Seat)
    ensures k in s.db.seats && k in Do(s, a).db.seats ==> Do(s, a).db.seats[k] == s.db.seats[k]
    ensures k !in s.db.seats && k in Do(s, a).db.seats ==>
              if a.Registered? then Do(s, a).db.seats[k] == Owner && k.user !in s.db.accounts
              else && a.Finish? && a.t in s.txs && s.txs[a.t].invite in s.db.invites
                   && k == Seat(s.db.invites[s.txs[a.t].invite].email, s.db.invites[s.txs[a.t].invite].tenant)
                   && Do(s, a).db.seats[k] == Staff
  {
    hide WaitsFor;
  }

  /** Over every run: an assignment is always of a member, to a property of the member's tenant. */
  lemma AssignmentsAreOfMembers(actions: seq<Action>, a: Assigned)
    requires a in Run(EMPTY, actions).db.assignments
    ensures var db := Run(EMPTY, actions).db;
            && Seat(a.user, db.assignments[a]) in db.seats
            && a.property in db.properties && db.properties[a.property] == db.assignments[a]
  {
    RunKeeps(EMPTY, actions);
  }

  // ---- One accept -------------------------------------------------------------------------------------

  /** What a completed accept grants: an account, a seat with its old role if there was one, and every property. */
  lemma FinishSeats(s: State, t: nat)
    requires Inv(s) && t in s.txs && s.txs[t].Ready? && !EmailTaken(s.db, s.txs[t])
    ensures var i := s.db.invites[s.txs[t].invite];
            var after := Do(s, Finish(t)).db;
            var seat := Seat(i.email, i.tenant);
            && i.email in after.accounts && seat in after.seats
            && after.seats[seat] == (if seat in s.db.seats then s.db.seats[seat] else Staff)
            && (forall p | p in i.grants :: Assigned(i.email, p) in after.assignments
                                            && after.assignments[Assigned(i.email, p)] == i.tenant)
            && (forall a | a in s.db.assignments :: a in after.assignments)
            && after.invites[s.txs[t].invite].acceptedAt == Some(s.db.now)
            && (s.txs[t].way == UseAccount ==> after.accounts == s.db.accounts)
            && (s.txs[t].way != UseAccount ==> after.accounts[i.email] == s.txs[t].hash)
  {
    var tx := s.txs[t];
    assert TxOk(s.db, tx);
    var i := s.db.invites[tx.invite];
    assert InviteOk(s.db, i);
    forall p | p in i.grants && Assigned(i.email, p) in s.db.assignments
      ensures s.db.assignments[Assigned(i.email, p)] == i.tenant
    {
    }
  }

  /** An accept that raises leaves every table as it was: the link is still good. */
  lemma RaisingUnspends(s: State, a: Action, t: nat)
    requires Inv(s) && t in s.txs && !s.txs[t].Arrived? && t !in Do(s, a).txs
    requires !Spends(s, a, s.txs[t].invite)
    ensures Do(s, a).db == s.db && Open(Do(s, a).db.invites[s.txs[t].invite])
  {
    hide DbOk, WaitsFor;
    assert TxOk(s.db, s.txs[t]);
  }

  /** And while it has not expired it can be accepted again at once: nobody holds it any more. */
  lemma RaisedCanRetry(s: State, a: Action, t: nat, hash: nat, verified: Option<string>)
    requires Inv(s) && t in s.txs && !s.txs[t].Arrived? && t !in Do(s, a).txs && !Spends(s, a, s.txs[t].invite)
    requires Do(s, a).db.now < s.db.invites[s.txs[t].invite].expiresAt
    ensures var i := s.txs[t].invite;
            var again := Do(Do(Do(s, a), Accept(t, i, hash, verified)), Spend(t));
            again.txs == Do(s, a).txs[t := Spent(i, Do(s, a).db.now, hash, verified)] && again.db == s.db
  {
    hide DbOk;
    var i := s.txs[t].invite;
    RaisingUnspends(s, a, t);
    EndsAlone(s, a, t);
    assert HoldsInvite(s.txs[t], i);
    assert !InviteLocked(Do(s, a), i);
    NeverWaits(Do(s, a), Accept(t, i, hash, verified));
    NeverWaits(Do(Do(s, a), Accept(t, i, hash, verified)), Spend(t));
    StillUnlocked(Do(s, a), t, i, hash, verified);
  }

  lemma StillUnlocked(s: State, t: nat, i: nat, hash: nat, verified: Option<string>)
    requires t !in s.txs && !InviteLocked(s, i)
    ensures !InviteLocked(DoAccept(s, t, i, hash, verified), i)
  {
  }

  /** A step that ends an accept touches no other. */
  lemma EndsAlone(s: State, a: Action, t: nat)
    requires t in s.txs && t !in Do(s, a).txs
    ensures Do(s, a).txs == s.txs - {t}
  {
    hide WaitsFor;
  }

  /**
   * The page asks for the right password: asked to sign in, an accept that proved nothing is refused; asked to
   * create, it goes through and sets the password.
   */
  lemma ModeIsWhatAcceptAsks(s: State, t: nat)
    requires Inv(s) && t in s.txs && s.txs[t].Holding? && s.txs[t].verified == None
    requires var email := s.db.invites[s.txs[t].invite].email; s.txs[t].found == (email in s.db.accounts)
    ensures var email := s.db.invites[s.txs[t].invite].email;
            var end := Do(Do(s, Decide(t)), Finish(t));
            && (InviteAcceptModeFor(SeatCount(s.db, email)) == SignIn <==> end.db == s.db)
            && (InviteAcceptModeFor(SeatCount(s.db, email)) == Create <==>
                  end.db.invites[s.txs[t].invite].acceptedAt.Some? && end.db.accounts[email] == s.txs[t].hash)
  {
    hide DbOk, WaitsFor;
    var tx := s.txs[t];
    assert TxOk(s.db, tx);
    NeverWaits(s, Decide(t));
    NeverWaits(Do(s, Decide(t)), Finish(t));
    var email := s.db.invites[tx.invite].email;
    assert s.db.invites[tx.invite].acceptedAt == None;
  }

  lemma NeverWaits(s: State, a: Action)
    requires a.Accept? || a.Spend? || a.Decide? || a.Finish?
    ensures !WaitsFor(s, a)
  {
  }
}
