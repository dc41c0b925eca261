/**
 * Staff invites: accounts, seats, assignments and invites, with an accept in five steps around its two row locks.
 *
 * An account is addressed by its email, which `app_user_email_key` makes unique and nothing edits.
 */
module Invites {
  import opened Options

  datatype Role = Owner | Staff

  datatype Seat = Seat(user: string, tenant: nat)

  datatype Assigned = Assigned(user: string, property: nat)

  /** One staff_invite row with the properties it grants. */
  datatype Invite = Invite(
    tenant: nat,
    email: string,
    createdBy: string,
    grants: set<nat>,
    expiresAt: int,
    acceptedAt: Option<int>,
    revokedAt: Option<int>)

  datatype Db = Db(
    accounts: map<string, nat>,
    seats: map<Seat, Role>,
    properties: map<nat, nat>,
    assignments: map<Assigned, nat>,
    invites: map<nat, Invite>,
    now: int)

  // ---- Liveness ---------------------------------------------------------------------------------------

  /** The WHERE clause shared by the list, the duplicate check and the guarded UPDATE. */
  predicate Live(i: Invite, now: int) {
    i.acceptedAt == None && i.revokedAt == None && i.expiresAt > now
  }

  /** What the partial unique index counts: open, expired or not. */
  predicate Open(i: Invite) {
    i.acceptedAt == None && i.revokedAt == None
  }

  datatype Refusal = Accepted | Expired | Revoked

  function RefusalReason(i: Invite, now: int): Option<Refusal> {
    if i.acceptedAt.Some? then Some(Accepted)
    else if i.expiresAt <= now then Some(Expired)
    else if i.revokedAt.Some? then Some(Revoked)
    else None
  }

  function SeatsOf(db: Db, user: string): set<Seat> {
    set k | k in db.seats && k.user == user
  }

  datatype Mode = SignIn | Create

  /** Which password the page asks for, from the account's seat count (no account: None). */
  function InviteAcceptModeFor(seatCount: Option<nat>): Mode {
    if seatCount.Some? && seatCount.value > 0 then SignIn else Create
  }

  function SeatCount(db: Db, user: string): Option<nat> {
    if user in db.accounts then Some(|SeatsOf(db, user)|) else None
  }

  function Grants(user: string, properties: set<nat>, tenant: nat): map<Assigned, nat> {
    map p | p in properties :: Assigned(user, p) := tenant
  }

  // ---- Accepting --------------------------------------------------------------------------------------

  /** What the accept does about the account: insert it, leave it alone, or overwrite its password. */
  datatype Way = MakeAccount | UseAccount | ClaimAccount

  /**
   * An accept in flight: it has begun, then spent its invite, then found (or not) and locked the account, then counted
   * its seats.
   */
  datatype Tx =
    | Arrived(invite: nat, began: int, hash: nat, verified: Option<string>)
    | Spent(invite: nat, began: int, hash: nat, verified: Option<string>)
    | Holding(invite: nat, began: int, hash: nat, verified: Option<string>, found: bool)
    | Ready(invite: nat, began: int, hash: nat, way: Way)

  datatype State = State(db: Db, txs: map<nat, Tx>)

  /** The transaction holds the row of an account that was there. */
  predicate HoldsAccount(tx: Tx) {
    (tx.Holding? && tx.found) || (tx.Ready? && tx.way != MakeAccount)
  }

  /** A live account, and nobody proved to hold it: `PasswordRequiredError`. */
  predicate PasswordRequired(db: Db, tx: Tx)
    requires tx.Holding? && tx.invite in db.invites
  {
    var email := db.invites[tx.invite].email;
    tx.found && tx.verified != Some(email) && SeatsOf(db, email) != {}
  }

  function Decision(db: Db, tx: Tx): Way
    requires tx.Holding? && tx.invite in db.invites
  {
    if !tx.found then MakeAccount
    else if tx.verified == Some(db.invites[tx.invite].email) then UseAccount
    else ClaimAccount
  }

  /** Someone registered the address meanwhile: `app_user_email_key`. */
  predicate EmailTaken(db: Db, tx: Tx)
    requires tx.Ready? && tx.invite in db.invites
  {
    tx.way == MakeAccount && db.invites[tx.invite].email in db.accounts
  }

  /** The account, then `on conflict do nothing` once for the seat and once for every granted property. */
  function Seated(db: Db, tx: Tx): Db
    requires tx.Ready? && tx.invite in db.invites
  {
    var i := db.invites[tx.invite];
    var seat := Seat(i.email, i.tenant);
    db.(accounts := if tx.way == UseAccount then db.accounts else db.accounts[i.email := tx.hash],
        seats := if seat in db.seats then db.seats else db.seats[seat := Staff],
        assignments := Grants(i.email, i.grants, i.tenant) + db.assignments,
        invites := db.invites[tx.invite := i.(acceptedAt := Some(db.now))])
  }

  /** The transaction holds the row of invite i. */
  predicate HoldsInvite(tx: Tx, i: nat) {
    !tx.Arrived? && tx.invite == i
  }

  predicate InviteLocked(s: State, i: nat) {
    exists t | t in s.txs :: HoldsInvite(s.txs[t], i)
  }

  predicate HoldsAddress(db: Db, tx: Tx, email: string) {
    HoldsAccount(tx) && tx.invite in db.invites && db.invites[tx.invite].email == email
  }

  /** Another accept holds the account row. */
  predicate AccountLocked(s: State, t: nat, email: string) {
    exists u | u in s.txs :: u != t && HoldsAddress(s.db, s.txs[u], email)
  }

  /** A transaction's clock is the one it began with. */
  function DoAccept(s: State, t: nat, i: nat, hash: nat, verified: Option<string>): State {
    if t in s.txs then s else s.(txs := s.txs[t := Arrived(i, s.db.now, hash, verified)])
  }

  /** The guarded UPDATE; it waits for another accept of the same invite, and ends on one that is not live. */
  function DoSpend(s: State, t: nat): State {
    if t !in s.txs || !s.txs[t].Arrived? || InviteLocked(s, s.txs[t].invite) then s
    else
      var tx := s.txs[t];
      if tx.invite !in s.db.invites || !Live(s.db.invites[tx.invite], tx.began) then s.(txs := s.txs - {t})
      else s.(txs := s.txs[t := Spent(tx.invite, tx.began, tx.hash, tx.verified)])
  }

  /** `select … for update` on the account row. */
  function DoLockAccount(s: State, t: nat): State {
    if t !in s.txs || !s.txs[t].Spent? || s.txs[t].invite !in s.db.invites then s
    else
      var tx := s.txs[t];
      var email := s.db.invites[tx.invite].email;
      if AccountLocked(s, t, email) then s
      else s.(txs := s.txs[t := Holding(tx.invite, tx.began, tx.hash, tx.verified, email in s.db.accounts)])
  }

  /** Count the seats under the lock, and raise or choose. */
  function DoDecide(s: State, t: nat): State {
    if t !in s.txs || !s.txs[t].Holding? || s.txs[t].invite !in s.db.invites then s
    else
      var tx := s.txs[t];
      if PasswordRequired(s.db, tx) then s.(txs := s.txs - {t})
      else s.(txs := s.txs[t := Ready(tx.invite, tx.began, tx.hash, Decision(s.db, tx))])
  }

  /** Write the account, the seat and the assignments, and commit the spent invite with them. */
  function DoFinish(s: State, t: nat): State {
    if t !in s.txs || !s.txs[t].Ready? || s.txs[t].invite !in s.db.invites then s
    else if EmailTaken(s.db, s.txs[t]) then s.(txs := s.txs - {t})
    else State(Seated(s.db, s.txs[t]), s.txs - {t})
  }

  // ---- The owner's side -------------------------------------------------------------------------------

  predicate HasOpen(db: Db, tenant: nat, email: string) {
    exists i | i in db.invites :: db.invites[i].tenant == tenant && db.invites[i].email == email && Open(db.invites[i])
  }

  predicate OwnProperties(db: Db, tenant: nat, properties: set<nat>) {
    forall p | p in properties :: p in db.properties && db.properties[p] == tenant
  }

  /** An owner's invite, refused by `staff_invite_live_email_uniq` while another is open for the address. */
  function CreateInvite(db: Db, id: nat, tenant: nat, owner: string, email: string, grants: set<nat>, ttl: int): Db {
    if id in db.invites || Seat(owner, tenant) !in db.seats || db.seats[Seat(owner, tenant)] != Owner
       || grants == {} || !OwnProperties(db, tenant, grants) || HasOpen(db, tenant, email) then db
    else db.(invites := db.invites[id := Invite(tenant, email, owner, grants, db.now + ttl, None, None)])
  }

  predicate Lapsed(db: Db, tenant: nat, email: string, i: nat) {
    && i in db.invites && db.invites[i].tenant == tenant && db.invites[i].email == email
    && Open(db.invites[i]) && db.invites[i].expiresAt <= db.now
  }

  /** Close the address's invites that ran out of time. */
  function Supersede(db: Db, tenant: nat, email: string): Db {
    db.(invites := map i | i in db.invites ::
                     if Lapsed(db, tenant, email, i) then db.invites[i].(revokedAt := Some(db.now)) else db.invites[i])
  }

  function Revoke(db: Db, tenant: nat, i: nat): Db {
    if i !in db.invites || db.invites[i].tenant != tenant || !Open(db.invites[i]) then db
    else db.(invites := db.invites[i := db.invites[i].(revokedAt := Some(db.now))])
  }

  /** The user holds one of the properties under another tenant: the primary key would refuse the row. */
  predicate AssignedElsewhere(db: Db, tenant: nat, user: string, properties: set<nat>) {
    exists p | p in properties :: Assigned(user, p) in db.assignments && db.assignments[Assigned(user, p)] != tenant
  }

  /** The assignments that are not this user's in this tenant. */
  function Elsewhere(db: Db, tenant: nat, user: string): map<Assigned, nat> {
    map a | a in db.assignments && !(a.user == user && db.assignments[a] == tenant) :: db.assignments[a]
  }

  /**
   * Delete and insert in one transaction; the foreign keys refuse a non-member or another tenant's property,
   * and an empty set is no statement at all.
   */
  function Replace(db: Db, tenant: nat, user: string, properties: set<nat>): Db {
    if properties == {} || Seat(user, tenant) !in db.seats || !OwnProperties(db, tenant, properties)
       || AssignedElsewhere(db, tenant, user, properties) then db
    else
      db.(assignments := Elsewhere(db, tenant, user) + Grants(user, properties, tenant))
  }

  /** Deleting a staff seat cascades to its assignments and to the invites its holder made. */
  function Remove(db: Db, tenant: nat, user: string): Db {
    if Seat(user, tenant) !in db.seats || db.seats[Seat(user, tenant)] != Staff then db
    else
      db.(seats := db.seats - {Seat(user, tenant)},
          assignments := Elsewhere(db, tenant, user),
          invites := map i | i in db.invites && !(db.invites[i].createdBy == user && db.invites[i].tenant == tenant) ::
                       db.invites[i])
  }

  /** Registration: a new account owning a new tenant. */
  function Register(db: Db, email: string, hash: nat, tenant: nat): Db {
    if email in db.accounts || (exists k | k in db.seats :: k.tenant == tenant) then db
    else db.(accounts := db.accounts[email := hash], seats := db.seats[Seat(email, tenant) := Owner])
  }

  function AddProperty(db: Db, p: nat, tenant: nat): Db {
    if p in db.properties then db else db.(properties := db.properties[p := tenant])
  }

  /** Deleting a property cascades out of every grant and assignment. */
  function DropProperty(db: Db, p: nat): Db {
    db.(properties := db.properties - {p},
        assignments := map a | a in db.assignments && a.property != p :: db.assignments[a],
        invites := map i | i in db.invites :: db.invites[i].(grants := db.invites[i].grants - {p}))
  }

  // ---- Steps ------------------------------------------------------------------------------------------

  datatype Action =
    | Accept(t: nat, invite: nat, hash: nat, verified: Option<string>)
    | Spend(t: nat)
    | LockAccount(t: nat)
    | Decide(t: nat)
    | Finish(t: nat)
    | Abort(t: nat)
    | Invited(id: nat, tenant: nat, owner: string, email: string, grants: set<nat>, ttl: int)
    | Superseded(tenant: nat, email: string)
    | RevokeInvite(tenant: nat, invite: nat)
    | ReplaceAssignments(tenant: nat, user: string, properties: set<nat>)
    | RemoveStaff(tenant: nat, user: string)
    | Registered(email: string, hash: nat, tenant: nat)
    | PropertyAdded(property: nat, tenant: nat)
    | PropertyDropped(property: nat)
    | Tick(elapsed: nat)

  /** An owner's statement would write or delete an invite row that an accept holds: it waits. */
  predicate WaitsFor(s: State, a: Action) {
    exists t | t in s.txs && !s.txs[t].Arrived? ::
      var i := s.txs[t].invite;
      match a
      case RevokeInvite(tenant, j) => i == j
      case Superseded(tenant, email) => Lapsed(s.db, tenant, email, i)
      case RemoveStaff(tenant, user) =>
        i in s.db.invites && s.db.invites[i].createdBy == user && s.db.invites[i].tenant == tenant
      case _ => false
  }

  function Do(s: State, a: Action): State {
    if WaitsFor(s, a) then s
    else
      match a
      case Accept(t, i, hash, verified) => DoAccept(s, t, i, hash, verified)
      case Spend(t) => DoSpend(s, t)
      case LockAccount(t) => DoLockAccount(s, t)
      case Decide(t) => DoDecide(s, t)
      case Finish(t) => DoFinish(s, t)
      case Abort(t) => s.(txs := s.txs - {t})
      case Invited(id, tenant, owner, email, grants, ttl) =>
        s.(db := CreateInvite(s.db, id, tenant, owner, email, grants, ttl))
      case Superseded(tenant, email) => s.(db := Supersede(s.db, tenant, email))
      case RevokeInvite(tenant, i) => s.(db := Revoke(s.db, tenant, i))
      case ReplaceAssignments(tenant, user, ps) => s.(db := Replace(s.db, tenant, user, ps))
      case RemoveStaff(tenant, user) => s.(db := Remove(s.db, tenant, user))
      case Registered(email, hash, tenant) => s.(db := Register(s.db, email, hash, tenant))
      case PropertyAdded(p, tenant) => s.(db := AddProperty(s.db, p, tenant))
      case PropertyDropped(p) => s.(db := DropProperty(s.db, p))
      case Tick(elapsed) => s.(db := s.db.(now := s.db.now + elapsed))
  }

  function Run(s: State, actions: seq<Action>): State {
    if actions == [] then s else Do(Run(s, actions[..|actions| - 1]), actions[|actions| - 1])
  }

  const EMPTY := State(Db(map[], map[], map[], map[], map[], 0), map[])
}
