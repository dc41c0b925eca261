/**
 * The invite and staff services as they write their tables, one call at a time.
 */
module InviteService {
  import opened Options
  import opened Invites

  datatype AcceptOutcome = Joined(email: string, tenant: nat) | Refused | NeedsPassword

  datatype CreateOutcome = Created | AlreadyMember | AlreadyPending | NoSuchProperty | NotAllowed | MailFailed

  /** Some invite for the address can still be accepted. */
  predicate HasLive(db: Db, tenant: nat, email: string) {
    exists i | i in db.invites ::
      db.invites[i].tenant == tenant && db.invites[i].email == email && Live(db.invites[i], db.now)
  }

  class Team {
    var db: Db

    constructor ()
      ensures db == EMPTY.db
    {
      db := EMPTY.db;
    }

    /**
     * Spend the invite, decide about the account, seat the user, copy the assignments: with no other accept in
     * flight, the run of the five steps.
     */
    method AcceptInvite(i: nat, hash: nat, verified: Option<string>) returns (outcome: AcceptOutcome)
      modifies this
      ensures State(db, map[]) ==
              Run(State(old(db), map[]), [Accept(0, i, hash, verified), Spend(0), LockAccount(0), Decide(0), Finish(0)])
      ensures outcome.Refused? <==> i !in old(db).invites || !Live(old(db).invites[i], old(db).now)
      ensures !outcome.Joined? ==> db == old(db)
      ensures outcome.Refused? <==>
                !(&& i in old(db).invites
                  && old(db).invites[i].acceptedAt == None && old(db).invites[i].revokedAt == None
                  && old(db).invites[i].expiresAt > old(db).now)
      ensures outcome.NeedsPassword? ==>
                && old(db).invites[i].email in old(db).accounts && verified != Some(old(db).invites[i].email)
                && exists k | k in old(db).seats :: k.user == old(db).invites[i].email
      ensures outcome.Joined? ==>
                var invite := old(db).invites[i];
                var email, seat := invite.email, Seat(invite.email, invite.tenant);
                var proved := email in old(db).accounts && verified == Some(email);
                && outcome == Joined(email, invite.tenant)
                && (proved || forall k | k in old(db).seats :: email in old(db).accounts ==> k.user != email)
                && db.accounts == (if proved then old(db).accounts else old(db).accounts[email := hash])
                && db.seats == (if seat in old(db).seats then old(db).seats else old(db).seats[seat := Staff])
                && db.invites == old(db).invites[i := invite.(acceptedAt := Some(old(db).now))]
                && db.properties == old(db).properties && db.now == old(db).now
                && (forall x | x in old(db).assignments ::
                      x in db.assignments && db.assignments[x] == old(db).assignments[x])
                && (forall x | x in db.assignments && x !in old(db).assignments ::
                      x.user == email && x.property in invite.grants && db.assignments[x] == invite.tenant)
                && (forall p | p in invite.grants :: Assigned(email, p) in db.assignments)
    {
      hide Run;
      AcceptRuns(db, i, hash, verified);
      if i !in db.invites || !Live(db.invites[i], db.now) {
        return Refused;
      }
      var invite := db.invites[i];
      var email, seat := invite.email, Seat(invite.email, invite.tenant);
      var accounts := db.accounts;
      if email !in db.accounts {
        accounts := accounts[email := hash];
      } else if verified != Some(email) {
        assert forall k | k in db.seats && k.user == email :: k in SeatsOf(db, email);
        if SeatsOf(db, email) != {} {
          return NeedsPassword;
        }
        accounts := accounts[email := hash];
      }
      var seats := if seat in db.seats then db.seats else db.seats[seat := Staff];
      db := db.(accounts := accounts, seats := seats,
                assignments := Grants(email, invite.grants, invite.tenant) + db.assignments,
                invites := db.invites[i := invite.(acceptedAt := Some(db.now))]);
      return Joined(email, invite.tenant);
    }

    /**
     * An owner invites an address: refuse another tenant's property and a member, clear what expired, refuse a pending
     * one, insert, and mail the link; when the mail cannot be sent the invite is revoked again.
     */
    method Invite(id: nat, tenant: nat, owner: string, email: string, grants: set<nat>, ttl: nat, mailed: bool)
      returns (outcome: CreateOutcome)
      requires id !in db.invites && grants != {} && ttl > 0
      modifies this
      ensures outcome.NotAllowed? <==>
                !(Seat(owner, tenant) in old(db).seats && old(db).seats[Seat(owner, tenant)] == Owner)
      ensures !outcome.NotAllowed? ==>
                (outcome.NoSuchProperty? <==>
                 exists p | p in grants :: !(p in old(db).properties && old(db).properties[p] == tenant))
      ensures !outcome.NotAllowed? && !outcome.NoSuchProperty? ==>
                (outcome.AlreadyMember? <==> Seat(email, tenant) in old(db).seats)
      ensures outcome in {AlreadyPending, Created, MailFailed} ==>
                (outcome.AlreadyPending? <==> exists j | j in old(db).invites ::
                   var x := old(db).invites[j];
                   && x.tenant == tenant && x.email == email
                   && x.acceptedAt == None && x.revokedAt == None && x.expiresAt > old(db).now)
      ensures outcome in {Created, MailFailed} ==> (outcome.Created? <==> mailed)
      ensures outcome.Created? ==>
                && db == CreateInvite(Supersede(old(db), tenant, email), id, tenant, owner, email, grants, ttl)
                && id in db.invites && Live(db.invites[id], db.now) && db.invites[id].grants == grants
      ensures outcome.MailFailed? ==>
                && db == Revoke(CreateInvite(Supersede(old(db), tenant, email), id, tenant, owner, email, grants, ttl),
                                tenant, id)
                && id in db.invites && !Open(db.invites[id]) && !HasOpen(db, tenant, email)
      ensures outcome.AlreadyPending? ==> db == Supersede(old(db), tenant, email)
      ensures outcome.Created? || outcome.MailFailed? ==>
                && db == old(db).(invites := db.invites) && db.invites.Keys == old(db).invites.Keys + {id}
                && db.invites[id] == Invites.Invite(tenant, email, owner, grants, old(db).now + ttl, None,
                                                    if mailed then None else Some(old(db).now))
      ensures outcome.Created? || outcome.MailFailed? || outcome.AlreadyPending? ==>
                forall j | j in old(db).invites ::
                  var x := old(db).invites[j];
                  && j in db.invites
                  && db.invites[j] == if && x.tenant == tenant && x.email == email && x.acceptedAt == None
                                         && x.revokedAt == None && x.expiresAt <= old(db).now
                                      then x.(revokedAt := Some(old(db).now)) else x
      ensures outcome.NotAllowed? || outcome.NoSuchProperty? || outcome.AlreadyMember? ==> db == old(db)
    {
      if Seat(owner, tenant) !in db.seats || db.seats[Seat(owner, tenant)] != Owner {
        return NotAllowed;
      }
      if !OwnProperties(db, tenant, grants) {
        return NoSuchProperty;
      }
      if Seat(email, tenant) in db.seats {
        return AlreadyMember;
      }
      SupersedeExpired(tenant, email);
      PendingIsLive(old(db), tenant, email);
      if HasOpen(db, tenant, email) {
        return AlreadyPending;
      }
      var row := Invites.Invite(tenant, email, owner, grants, db.now + ttl, None, None);
      db := db.(invites := db.invites[id := row]);
      if !mailed {
        var _ := RevokeInvite(tenant, id);
        return MailFailed;
      }
      return Created;
    }

    method SupersedeExpired(tenant: nat, email: string)
      modifies this
      ensures db == Supersede(old(db), tenant, email)
      ensures db == old(db).(invites := db.invites) && db.invites.Keys == old(db).invites.Keys
      ensures forall j | j in old(db).invites ::
                var x := old(db).invites[j];
                db.invites[j] == if && x.tenant == tenant && x.email == email && x.acceptedAt == None
                                    && x.revokedAt == None && x.expiresAt <= old(db).now
                                 then x.(revokedAt := Some(old(db).now)) else x
    {
      db := db.(invites := map i | i in db.invites ::
                  if Lapsed(db, tenant, email, i) then db.invites[i].(revokedAt := Some(db.now)) else db.invites[i]);
    }

    /** Withdraw: idempotent on a closed invite, and `found` is false only for an id the tenant does not have. */
    method RevokeInvite(tenant: nat, i: nat) returns (found: bool)
      modifies this
      ensures db == Revoke(old(db), tenant, i)
      ensures found <==> i in old(db).invites && old(db).invites[i].tenant == tenant
      ensures found ==> i in db.invites && !Open(db.invites[i])
      ensures db == if && i in old(db).invites && old(db).invites[i].tenant == tenant
                       && old(db).invites[i].acceptedAt == None && old(db).invites[i].revokedAt == None
                    then old(db).(invites :=
                           old(db).invites[i := old(db).invites[i].(revokedAt := Some(old(db).now))])
                    else old(db)
    {
      if i in db.invites && db.invites[i].tenant == tenant && Open(db.invites[i]) {
        db := db.(invites := db.invites[i := db.invites[i].(revokedAt := Some(db.now))]);
        return true;
      }
      return i in db.invites && db.invites[i].tenant == tenant;
    }

    /** The request is the new set; afterwards the member's assignments in the tenant are exactly it. */
    method ReplaceAssignments(tenant: nat, user: string, properties: set<nat>) returns (ok: bool)
      modifies this
      ensures db == Replace(old(db), tenant, user, properties)
      ensures ok <==>
                && properties != {} && Seat(user, tenant) in old(db).seats
                && (forall p | p in properties :: p in old(db).properties && old(db).properties[p] == tenant)
                && (forall p | p in properties && Assigned(user, p) in old(db).assignments ::
                      old(db).assignments[Assigned(user, p)] == tenant)
      ensures !ok ==> db == old(db)
      ensures db == old(db).(assignments := db.assignments)
      ensures forall x | x in old(db).assignments && (x.user != user || old(db).assignments[x] != tenant) ::
                x in db.assignments && db.assignments[x] == old(db).assignments[x]
      ensures forall x | x in db.assignments && (x.user != user || db.assignments[x] != tenant) ::
                x in old(db).assignments && db.assignments[x] == old(db).assignments[x]
      ensures ok ==> forall p :: Assigned(user, p) in db.assignments && db.assignments[Assigned(user, p)] == tenant
                                 <==> p in properties
    {
      ok := && properties != {} && Seat(user, tenant) in db.seats && OwnProperties(db, tenant, properties)
            && !AssignedElsewhere(db, tenant, user, properties);
      if ok {
        db := db.(assignments := Elsewhere(db, tenant, user) + Grants(user, properties, tenant));
      }
    }

    /** End a staff seat; an owner's cannot be ended here. */
    method RemoveStaff(tenant: nat, user: string) returns (removed: bool)
      modifies this
      ensures db == Remove(old(db), tenant, user)
      ensures removed <==> Seat(user, tenant) in old(db).seats && old(db).seats[Seat(user, tenant)] == Staff
      ensures removed ==> Seat(user, tenant) !in db.seats
      ensures removed ==> forall a | a in db.assignments && a.user == user :: db.assignments[a] != tenant
      ensures db.accounts == old(db).accounts && db.properties == old(db).properties && db.now == old(db).now
      ensures !removed ==> db == old(db)
      ensures removed ==> db.seats == old(db).seats - {Seat(user, tenant)}
      ensures forall x | x in old(db).assignments && (x.user != user || old(db).assignments[x] != tenant) ::
                x in db.assignments && db.assignments[x] == old(db).assignments[x]
      ensures forall x | x in db.assignments ::
                x in old(db).assignments && db.assignments[x] == old(db).assignments[x]
      ensures forall i | i in old(db).invites
                         && !(old(db).invites[i].createdBy == user && old(db).invites[i].tenant == tenant) ::
                i in db.invites && db.invites[i] == old(db).invites[i]
      ensures forall i | i in db.invites :: i in old(db).invites && db.invites[i] == old(db).invites[i]
      ensures removed ==>
                forall i | i in db.invites :: db.invites[i].createdBy != user || db.invites[i].tenant != tenant
    {
      removed := Seat(user, tenant) in db.seats && db.seats[Seat(user, tenant)] == Staff;
      if removed {
        db := Remove(db, tenant, user);
      }
    }
  }

  /** What is open once the expired invites are closed is what was live. */
  lemma PendingIsLive(db: Db, tenant: nat, email: string)
    ensures HasOpen(Supersede(db, tenant, email), tenant, email) <==> HasLive(db, tenant, email)
  {
    var after := Supersede(db, tenant, email);
    if i :| i in db.invites && db.invites[i].tenant == tenant && db.invites[i].email == email
            && Live(db.invites[i], db.now) {
      assert after.invites[i] == db.invites[i];
    }
    if i :| i in after.invites && after.invites[i].tenant == tenant && after.invites[i].email == email
            && Open(after.invites[i]) {
      assert Live(db.invites[i], db.now);
    }
  }

  /** What an accept without company leaves. */
  function AfterAccept(db: Db, i: nat, hash: nat, verified: Option<string>): Db {
    if i !in db.invites || !Live(db.invites[i], db.now) then db
    else
      var invite := db.invites[i];
      var email, seat := invite.email, Seat(invite.email, invite.tenant);
      if email in db.accounts && verified != Some(email) && SeatsOf(db, email) != {} then db
      else
        db.(accounts := if email in db.accounts && verified == Some(email) then db.accounts
                        else db.accounts[email := hash],
            seats := if seat in db.seats then db.seats else db.seats[seat := Staff],
            assignments := Grants(email, invite.grants, invite.tenant) + db.assignments,
            invites := db.invites[i := invite.(acceptedAt := Some(db.now))])
  }

  lemma AcceptRuns(db: Db, i: nat, hash: nat, verified: Option<string>)
    ensures Run(State(db, map[]), [Accept(0, i, hash, verified), Spend(0), LockAccount(0), Decide(0), Finish(0)])
         == State(AfterAccept(db, i, hash, verified), map[])
  {
    hide SeatsOf, Grants;
    RunFive(State(db, map[]), Accept(0, i, hash, verified), Spend(0), LockAccount(0), Decide(0), Finish(0));
    var arrived := State(db, map[0 := Arrived(i, db.now, hash, verified)]);
    assert Do(State(db, map[]), Accept(0, i, hash, verified)) == arrived;
    assert arrived.txs - {0} == map[];
    if i in db.invites && Live(db.invites[i], db.now) {
      var spent := State(db, map[0 := Spent(i, db.now, hash, verified)]);
      assert Do(arrived, Spend(0)) == spent;
      SpentAlone(db, i, hash, verified);
    } else {
      assert Do(arrived, Spend(0)) == State(db, map[]);
      assert forall a | a in {LockAccount(0), Decide(0), Finish(0)} :: Do(State(db, map[]), a) == State(db, map[]);
    }
  }

  lemma SpentAlone(db: Db, i: nat, hash: nat, verified: Option<string>)
    requires i in db.invites && Live(db.invites[i], db.now)
    ensures Do(Do(Do(State(db, map[0 := Spent(i, db.now, hash, verified)]), LockAccount(0)), Decide(0)), Finish(0))
         == State(AfterAccept(db, i, hash, verified), map[])
  {
    hide SeatsOf, Grants;
    var email := db.invites[i].email;
    var holding := Holding(i, db.now, hash, verified, email in db.accounts);
    assert Do(State(db, map[0 := Spent(i, db.now, hash, verified)]), LockAccount(0)) == State(db, map[0 := holding]);
    assert map[0 := holding] - {0} == map[];
    if PasswordRequired(db, holding) {
      assert Do(State(db, map[0 := holding]), Decide(0)) == State(db, map[]);
    } else {
      var ready := Ready(i, db.now, hash, Decision(db, holding));
      assert Do(State(db, map[0 := holding]), Decide(0)) == State(db, map[0 := ready]);
      assert map[0 := ready] - {0} == map[];
    }
  }

  lemma RunFive(s: State, a: Action, b: Action, c: Action, d: Action, e: Action)
    ensures Run(s, [a, b, c, d, e]) == Do(Do(Do(Do(Do(s, a), b), c), d), e)
  {
    hide Do;
    assert [a][..0] == [] && [a, b][..1] == [a] && [a, b, c][..2] == [a, b] && [a, b, c, d][..3] == [a, b, c];
    assert [a, b, c, d, e][..4] == [a, b, c, d];
    assert Run(s, [a]) == Do(s, a);
    assert Run(s, [a, b]) == Do(Do(s, a), b);
    assert Run(s, [a, b, c]) == Do(Do(Do(s, a), b), c);
    assert Run(s, [a, b, c, d]) == Do(Do(Do(Do(s, a), b), c), d);
  }
}
