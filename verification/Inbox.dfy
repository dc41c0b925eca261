/**
 * The sync-conflict inbox over whole runs: pulls of any feed on any connection, dismissals by owners,
 * and any other writer of the booking table, in any order.
 */
module Inbox {
  import opened Options
  import opened Bookings
  import opened Reconcile
  import opened Convergence

  datatype Desk = Desk(rows: Rows, conflicts: Conflicts)

  datatype Action =
    | Pull(conn: Connection, feed: Feed, now: int, weather: Weather)
    | Dismiss(key: ConflictKey, tenant: nat, at: int)
    | OtherWriters(table: Rows)

  /** An owner closes one open conflict of their own tenant; anything else matches no row. */
  function DismissIn(conflicts: Conflicts, key: ConflictKey, tenant: nat, at: int): Conflicts {
    if key in conflicts && conflicts[key].tenant == tenant && conflicts[key].status == Open then
      conflicts[key := conflicts[key].(status := Dismissed, closedAt := Some(at))]
    else
      conflicts
  }

  function Do(desk: Desk, a: Action): Desk {
    match a
    case Pull(conn, Unhealthy(_), _, _) => desk
    case Pull(conn, Healthy(events), now, weather) =>
      Desk(PullRows(desk.rows, conn, events, weather.faulted),
           PullConflicts(desk.rows, desk.conflicts, conn, events, weather, now))
    case Dismiss(key, tenant, at) => desk.(conflicts := DismissIn(desk.conflicts, key, tenant, at))
    case OtherWriters(table) => desk.(rows := table)
  }

  function Run(desk: Desk, actions: seq<Action>): Desk {
    if actions == [] then desk else Do(Run(desk, actions[..|actions| - 1]), actions[|actions| - 1])
  }

  /** A run takes its steps one after another; a healthy pull writes both tables, an unhealthy one neither. */
  lemma RunSteps(desk: Desk, actions: seq<Action>, a: Action)
    ensures Run(desk, []) == desk
    ensures Run(desk, actions + [a]) == Do(Run(desk, actions), a)
    ensures a.Pull? && a.feed.Unhealthy? ==> Do(desk, a) == desk
    ensures a.Pull? && a.feed.Healthy? ==>
              && Do(desk, a).rows == PullRows(desk.rows, a.conn, a.feed.events, a.weather.faulted)
              && Do(desk, a).conflicts ==
                 PullConflicts(desk.rows, desk.conflicts, a.conn, a.feed.events, a.weather, a.now)
    ensures a.Dismiss? || a.OtherWriters? ==>
              Do(desk, a) == if a.Dismiss? then Desk(desk.rows, DismissIn(desk.conflicts, a.key, a.tenant, a.at))
                             else Desk(a.table, desk.conflicts)
  {
    hide PullRows, PullConflicts;
    assert (actions + [a])[..|actions|] == actions;
  }

  /** `closed_at` is null exactly while the conflict is open. */
  ghost predicate ClosedIffStamped(conflicts: Conflicts) {
    forall k | k in conflicts :: conflicts[k].closedAt == None <==> conflicts[k].status == Open
  }

  /** Nothing a later state may not undo: the row, its first detection, a dismissal and its stamp. */
  ghost predicate Remembers(before: Conflicts, after: Conflicts) {
    forall k | k in before ::
      && k in after
      && after[k].firstDetected == before[k].firstDetected
      && after[k].tenant == before[k].tenant && after[k].unit == before[k].unit
      && (before[k].status == Dismissed ==> after[k].status == Dismissed && after[k].closedAt == before[k].closedAt)
  }

  lemma {:induction false} FilingKeeps(rows: Rows, conflicts: Conflicts, conn: Connection, events: seq<Event>,
                                       weather: Weather, now: int, i: nat)
    requires ClosedIffStamped(conflicts) && i <= |events|
    ensures ClosedIffStamped(ConflictsAfter(rows, conflicts, conn, events, weather, now, i))
    ensures Remembers(conflicts, ConflictsAfter(rows, conflicts, conn, events, weather, now, i))
  {
    hide Lands;
    if i > 0 {
      FilingKeeps(rows, conflicts, conn, events, weather, now, i - 1);
    }
  }

  lemma StepKeeps(desk: Desk, a: Action)
    requires ClosedIffStamped(desk.conflicts)
    ensures ClosedIffStamped(Do(desk, a).conflicts) && Remembers(desk.conflicts, Do(desk, a).conflicts)
  {
    hide PullRows, ConflictsAfter, MissedAfter;
    if a.Pull? && a.feed.Healthy? {
      FilingKeeps(desk.rows, desk.conflicts, a.conn, a.feed.events, a.weather, a.now, |a.feed.events|);
    }
  }

  /**
   * Over every run: a conflict row is never lost, its first detection never moves, a dismissal is never
   * left, and `closed_at` is set exactly when the conflict is not open.
   */
  lemma {:induction false} RunKeeps(desk: Desk, actions: seq<Action>)
    requires ClosedIffStamped(desk.conflicts)
    ensures ClosedIffStamped(Run(desk, actions).conflicts)
    ensures Remembers(desk.conflicts, Run(desk, actions).conflicts)
    ensures forall k | k in desk.conflicts ::
              var was, after := desk.conflicts[k], Run(desk, actions).conflicts;
              && k in after
              && after[k].firstDetected == was.firstDetected
              && after[k].tenant == was.tenant && after[k].unit == was.unit
              && (was.status == Dismissed ==> after[k].status == Dismissed && after[k].closedAt == was.closedAt)
  {
    hide Do;
    if actions != [] {
      RunKeeps(desk, actions[..|actions| - 1]);
      StepKeeps(Run(desk, actions[..|actions| - 1]), actions[|actions| - 1]);
    }
  }

  /** An event whose UID is u did not land. */
  ghost predicate Failed(rows: Rows, conn: Connection, events: seq<Event>, faulted: set<nat>, u: string) {
    exists i | 0 <= i < |events| :: events[i].uid == u && !Lands(rows, conn, events, faulted, i)
  }

  lemma {:induction false} MissedAreTheFailed(rows: Rows, conn: Connection, events: seq<Event>, faulted: set<nat>,
                                             i: nat, u: string)
    requires i <= |events|
    ensures u in MissedAfter(rows, conn, events, faulted, i) <==>
            exists m | 0 <= m < i :: events[m].uid == u && !Lands(rows, conn, events, faulted, m)
  {
    hide Lands;
    if i > 0 {
      MissedAreTheFailed(rows, conn, events, faulted, i - 1, u);
    }
  }

  lemma {:induction false} FilingNeverResolves(rows: Rows, conflicts: Conflicts, conn: Connection, events: seq<Event>,
                                              weather: Weather, now: int, i: nat, k: ConflictKey)
    requires i <= |events|
    requires k in ConflictsAfter(rows, conflicts, conn, events, weather, now, i)
    requires ConflictsAfter(rows, conflicts, conn, events, weather, now, i)[k].status == Resolved
    ensures k in conflicts && conflicts[k].status == Resolved
  {
    hide Lands;
    if i > 0 {
      FilingNeverResolves(rows, conflicts, conn, events, weather, now, i - 1, k);
    }
  }

  /**
   * `resolved` is a measurement: a step writes it only by a healthy, non-empty pull of that connection in
   * which the feed did not offer the UID or every event that carried it landed.
   */
  lemma ResolvedIsMeasured(desk: Desk, a: Action, k: ConflictKey)
    requires k in Do(desk, a).conflicts && Do(desk, a).conflicts[k].status == Resolved
    requires !(k in desk.conflicts && desk.conflicts[k].status == Resolved)
    ensures a.Pull? && a.feed.Healthy? && a.feed.events != [] && k.conn == a.conn.id
    ensures !Failed(desk.rows, a.conn, a.feed.events, a.weather.faulted, k.uid)
  {
    hide PullRows, ConflictsAfter, MissedAfter, Lands;
    if a.Pull? && a.feed.Healthy? {
      var n := |a.feed.events|;
      var mid := ConflictsAfter(desk.rows, desk.conflicts, a.conn, a.feed.events, a.weather, a.now, n);
      if k in mid && mid[k].status == Resolved {
        FilingNeverResolves(desk.rows, desk.conflicts, a.conn, a.feed.events, a.weather, a.now, n, k);
        assert false;
      }
      MissedAreTheFailed(desk.rows, a.conn, a.feed.events, a.weather.faulted, n, k.uid);
    }
  }

  /**
   * After a healthy, non-empty pull every conflict of the connection that is still open is one whose
   * UID the feed offered and could not land.
   */
  lemma OpenAreTheFailed(desk: Desk, conn: Connection, events: seq<Event>, now: int, weather: Weather, k: ConflictKey)
    requires events != []
    requires var after := PullConflicts(desk.rows, desk.conflicts, conn, events, weather, now);
             k in after && k.conn == conn.id && after[k].tenant == conn.tenant && after[k].status == Open
    ensures Failed(desk.rows, conn, events, weather.faulted, k.uid)
  {
    hide ConflictsAfter, MissedAfter, Lands;
    MissedAreTheFailed(desk.rows, conn, events, weather.faulted, |events|, k.uid);
  }

  /** Event i was refused by the constraint and filed. */
  ghost predicate FiledAt(rows: Rows, conn: Connection, events: seq<Event>, weather: Weather, i: nat)
    requires i < |events|
  {
    !Lands(rows, conn, events, weather.faulted, i) && i !in weather.faulted && i !in weather.unfiled
  }

  lemma {:induction false} FiledStands(rows: Rows, conflicts: Conflicts, conn: Connection, events: seq<Event>,
                                       weather: Weather, now: int, i: nat, j: nat)
    requires i < j <= |events| && FiledAt(rows, conn, events, weather, i)
    ensures var after := ConflictsAfter(rows, conflicts, conn, events, weather, now, j);
            var k := ConflictKey(conn.id, events[i].uid);
            k in after && after[k].status != Resolved && after[k].lastSeen == now
  {
    hide Lands;
    if i < j - 1 {
      FiledStands(rows, conflicts, conn, events, weather, now, i, j - 1);
    }
  }

  /** A refused event that could be filed is in the inbox after the pull: open, unless its owner had dismissed it. */
  lemma RefusedAreInTheInbox(rows: Rows, conflicts: Conflicts, conn: Connection, events: seq<Event>,
                             weather: Weather, now: int, i: nat)
    requires i < |events| && FiledAt(rows, conn, events, weather, i)
    ensures var after := PullConflicts(rows, conflicts, conn, events, weather, now);
            var k := ConflictKey(conn.id, events[i].uid);
            && k in after && after[k].lastSeen == now
            && (after[k].status == Open || after[k].status == Dismissed)
  {
    hide ConflictsAfter, MissedAfter, Lands;
    FiledStands(rows, conflicts, conn, events, weather, now, i, |events|);
    MissedAreTheFailed(rows, conn, events, weather.faulted, |events|, events[i].uid);
  }

  ghost predicate SameConflict(before: Conflicts, after: Conflicts, k: ConflictKey) {
    (k in before <==> k in after) && (k in before ==> before[k] == after[k])
  }

  /** Events i..j file nothing under key k. */
  lemma {:induction false} FilingFrame(rows: Rows, conflicts: Conflicts, conn: Connection, events: seq<Event>,
                                       weather: Weather, now: int, i: nat, j: nat, k: ConflictKey)
    requires i <= j <= |events|
    requires forall m | i <= m < j :: FiledAt(rows, conn, events, weather, m) ==>
               ConflictKey(conn.id, events[m].uid) != k
    ensures SameConflict(ConflictsAfter(rows, conflicts, conn, events, weather, now, i),
                         ConflictsAfter(rows, conflicts, conn, events, weather, now, j), k)
  {
    hide Lands;
    if i < j {
      FilingFrame(rows, conflicts, conn, events, weather, now, i, j - 1, k);
      assert FiledAt(rows, conn, events, weather, j - 1) ==> ConflictKey(conn.id, events[j - 1].uid) != k;
    }
  }

  /** What filing event e makes of the conflict it may already have. */
  function Refiled(known: Option<Conflict>, conn: Connection, e: Event, now: int): Conflict {
    if known.None? then Conflict(conn.tenant, conn.unit, e.start, e.end, Open, now, now, None)
    else
      var c := known.value;
      Conflict(c.tenant, c.unit, e.start, e.end,
               if c.status == Dismissed then Dismissed else Open,
               c.firstDetected, now,
               if c.status == Resolved then None else c.closedAt)
  }

  /**
   * The conflict of a refused event after the pull, exactly: on the nights the feed wants, seen now, open again
   * unless dismissed, first detected when it first was.
   */
  lemma RefusedConflictExactly(rows: Rows, conflicts: Conflicts, conn: Connection, events: seq<Event>,
                               weather: Weather, now: int, i: nat)
    requires DistinctUids(events) && i < |events| && FiledAt(rows, conn, events, weather, i)
    ensures var after := PullConflicts(rows, conflicts, conn, events, weather, now);
            var k := ConflictKey(conn.id, events[i].uid);
            k in after && after[k] == Refiled(if k in conflicts then Some(conflicts[k]) else None, conn, events[i], now)
  {
    hide Lands, MissedAfter, ConflictsAfter;
    var k := ConflictKey(conn.id, events[i].uid);
    FilingFrame(rows, conflicts, conn, events, weather, now, 0, i, k);
    FilingFrame(rows, conflicts, conn, events, weather, now, i + 1, |events|, k);
    MissedAreTheFailed(rows, conn, events, weather.faulted, |events|, events[i].uid);
    OneFiling(rows, conflicts, conn, events, weather, now, i);
  }

  lemma OneFiling(rows: Rows, conflicts: Conflicts, conn: Connection, events: seq<Event>, weather: Weather, now: int,
                  i: nat)
    requires i < |events|
    ensures ConflictsAfter(rows, conflicts, conn, events, weather, now, 0) == conflicts
    ensures FiledAt(rows, conn, events, weather, i) ==>
              ConflictsAfter(rows, conflicts, conn, events, weather, now, i + 1)
              == File(ConflictsAfter(rows, conflicts, conn, events, weather, now, i), conn, events[i], now)
  {
    hide Lands, File;
  }

  /**
   * Every other conflict after the pull, exactly: an open one of this connection whose UID landed or is gone
   * from the feed is resolved now; all the rest are as they were.
   */
  lemma OtherConflictsExactly(rows: Rows, conflicts: Conflicts, conn: Connection, events: seq<Event>,
                              weather: Weather, now: int, k: ConflictKey)
    requires events != []
    requires forall m | 0 <= m < |events| :: FiledAt(rows, conn, events, weather, m) ==>
               ConflictKey(conn.id, events[m].uid) != k
    ensures var after := PullConflicts(rows, conflicts, conn, events, weather, now);
            if k in conflicts && k.conn == conn.id && conflicts[k].tenant == conn.tenant && conflicts[k].status == Open
               && !Failed(rows, conn, events, weather.faulted, k.uid)
            then k in after && after[k] == conflicts[k].(status := Resolved, closedAt := Some(now))
            else SameConflict(conflicts, after, k)
  {
    hide Lands, MissedAfter, ConflictsAfter, File;
    OneFiling(rows, conflicts, conn, events, weather, now, 0);
    FilingFrame(rows, conflicts, conn, events, weather, now, 0, |events|, k);
    MissedAreTheFailed(rows, conn, events, weather.faulted, |events|, k.uid);
  }

  /** A healthy but empty feed changes no booking and no conflict, exactly as an unhealthy one. */
  lemma EmptyFeedChangesNothing(desk: Desk, conn: Connection, now: int, weather: Weather, error: string)
    ensures Do(desk, Pull(conn, Healthy([]), now, weather)) == desk
    ensures Do(desk, Pull(conn, Unhealthy(error), now, weather)) == desk
  {
    assert RowsAfter(desk.rows, conn, [], weather.faulted, 0) == desk.rows;
    assert ConflictsAfter(desk.rows, desk.conflicts, conn, [], weather, now, 0) == desk.conflicts;
  }

  /** Dismissing moves the one conflict it names, and only from open. */
  lemma DismissExactly(conflicts: Conflicts, key: ConflictKey, tenant: nat, at: int)
    ensures var after := DismissIn(conflicts, key, tenant, at);
            && after.Keys == conflicts.Keys
            && forall k | k in conflicts ::
                 after[k] == if k == key && conflicts[k].tenant == tenant && conflicts[k].status == Open
                             then conflicts[k].(status := Dismissed, closedAt := Some(at)) else conflicts[k]
  {
  }

  /** Over every run a conflict is dismissed only by an owner's own dismissal of that conflict. */
  lemma DismissedByItsOwner(desk: Desk, a: Action, k: ConflictKey)
    requires k in Do(desk, a).conflicts && Do(desk, a).conflicts[k].status == Dismissed
    requires !(k in desk.conflicts && desk.conflicts[k].status == Dismissed)
    ensures a.Dismiss? && a.key == k
    ensures k in desk.conflicts && desk.conflicts[k].status == Open && desk.conflicts[k].tenant == a.tenant
  {
    hide PullRows, ConflictsAfter, MissedAfter, Lands;
    if a.Pull? && a.feed.Healthy? {
      var n := |a.feed.events|;
      FilingNeverDismisses(desk.rows, desk.conflicts, a.conn, a.feed.events, a.weather, a.now, n, k);
    }
  }

  lemma {:induction false} FilingNeverDismisses(rows: Rows, conflicts: Conflicts, conn: Connection, events: seq<Event>,
                                                weather: Weather, now: int, i: nat, k: ConflictKey)
    requires i <= |events| && !(k in conflicts && conflicts[k].status == Dismissed)
    ensures var after := ConflictsAfter(rows, conflicts, conn, events, weather, now, i);
            !(k in after && after[k].status == Dismissed)
  {
    hide Lands;
    if i > 0 {
      FilingNeverDismisses(rows, conflicts, conn, events, weather, now, i - 1, k);
    }
  }

  // ---- What the inbox shows ---------------------------------------------------------------------------

  /** The occupying bookings whose nights a conflict wants, as listed beside it. */
  function Blockers(rows: Rows, c: Conflict): set<Key> {
    set k | k in rows && rows[k].unit == c.unit && rows[k].tenant == c.tenant && Occupying(rows[k])
            && rows[k].checkIn < c.checkOut && c.checkIn < rows[k].checkOut
  }

  /** Beside a conflict stand the pending and confirmed bookings of its unit and tenant that share a night with it. */
  lemma BlockersExactly(rows: Rows, c: Conflict, k: Key)
    ensures k in Blockers(rows, c) <==>
            && k in rows && rows[k].unit == c.unit && rows[k].tenant == c.tenant
            && (rows[k].status == PendingPayment || rows[k].status == Confirmed)
            && rows[k].checkIn < c.checkOut && c.checkIn < rows[k].checkOut
  {
  }

  /** The rows that make the constraint refuse event e. */
  function Causes(rows: Rows, conn: Connection, e: Event): set<Key> {
    set k | k in rows && k != RowKey(conn, e) && Blocks(rows, k, Landing(rows, conn, e))
  }

  /** The UID's own older row still occupies some night the event now wants. */
  predicate OwnRowOverlaps(rows: Rows, conn: Connection, e: Event) {
    var k := RowKey(conn, e);
    k in rows && Occupying(rows[k]) && rows[k].checkIn < e.end && e.start < rows[k].checkOut
  }

  /**
   * Beside a conflict the owner sees every row that caused the refusal; the list is exactly those rows unless
   * the UID's own older row overlaps the nights it wants, and then that row is listed too.
   */
  lemma BlockersAreCausesIff(rows: Rows, conn: Connection, e: Event, c: Conflict)
    requires Belongs(rows, conn) && c.unit == conn.unit && c.tenant == conn.tenant
    requires c.checkIn == e.start && c.checkOut == e.end
    requires forall k | k in rows && rows[k].unit == conn.unit :: rows[k].tenant == conn.tenant
    ensures Causes(rows, conn, e) <= Blockers(rows, c) <= Causes(rows, conn, e) + {RowKey(conn, e)}
    ensures Blockers(rows, c) == Causes(rows, conn, e) <==> !OwnRowOverlaps(rows, conn, e)
    ensures Clashes(rows, conn, e) <==> Causes(rows, conn, e) != {}
  {
    var own := RowKey(conn, e);
    assert own in Blockers(rows, c) <==> OwnRowOverlaps(rows, conn, e);
    assert own !in Causes(rows, conn, e);
    if Clashes(rows, conn, e) {
      var k :| k in rows && k != own && Blocks(rows, k, Landing(rows, conn, e));
      assert k in Causes(rows, conn, e);
    }
  }

  datatype DismissOutcome = ClosedAs(status: ConflictStatus, closedAt: Option<int>) | NotFound

  /** The owner's side of the inbox. */
  class ConflictInbox {
    var conflicts: Conflicts

    /** Close an open conflict; on one that is closed already this is a read. */
    method Dismiss(key: ConflictKey, tenant: nat, at: int) returns (outcome: DismissOutcome)
      modifies this
      ensures conflicts == DismissIn(old(conflicts), key, tenant, at)
      ensures conflicts.Keys == old(conflicts).Keys
      ensures forall k | k in old(conflicts) && k != key :: conflicts[k] == old(conflicts)[k]
      ensures (key in old(conflicts) && old(conflicts)[key].tenant == tenant && old(conflicts)[key].status == Open) ==>
                conflicts[key] == old(conflicts)[key].(status := Dismissed, closedAt := Some(at))
      ensures !(key in old(conflicts) && old(conflicts)[key].tenant == tenant && old(conflicts)[key].status == Open) ==>
                conflicts == old(conflicts)
      ensures outcome.NotFound? <==> key !in old(conflicts) || old(conflicts)[key].tenant != tenant
      ensures !outcome.NotFound? ==>
                key in conflicts && outcome == ClosedAs(conflicts[key].status, conflicts[key].closedAt)
                && outcome.status != Open
    {
      if key in conflicts && conflicts[key].tenant == tenant && conflicts[key].status == Open {
        conflicts := conflicts[key := conflicts[key].(status := Dismissed, closedAt := Some(at))];
        return ClosedAs(Dismissed, Some(at));
      }
      if key in conflicts && conflicts[key].tenant == tenant {
        return ClosedAs(conflicts[key].status, conflicts[key].closedAt);
      }
      return NotFound;
    }
  }
}
