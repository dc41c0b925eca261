/**
 * The iCal import: one connection's feed reconciled against the booking table and the conflict inbox.
 *
 * `RowsAfter`, `MissedAfter` and `ConflictsAfter` say what the tables hold after the first i events
 * of a pull; class ChannelSync is the service that walks the events and is proved to leave exactly that.
 */
module Reconcile {
  import opened Options
  import opened Bookings

  datatype Connection = Connection(id: nat, tenant: nat, unit: nat, channel: Source)

  /** A parsed VEVENT; the parser only ever hands over non-empty stays. */
  datatype Raw = Raw(uid: string, start: int, end: int)
  type Event = e: Raw | e.start < e.end witness Raw("", 0, 1)

  datatype ConflictStatus = Open | Resolved | Dismissed

  datatype Conflict = Conflict(
    tenant: nat,
    unit: nat,
    checkIn: int,
    checkOut: int,
    status: ConflictStatus,
    firstDetected: int,
    lastSeen: int,
    closedAt: Option<int>)

  datatype ConflictKey = ConflictKey(conn: nat, uid: string)

  type Conflicts = map<ConflictKey, Conflict>

  /**
   * What the environment does to one pull: the positions of the events whose upsert fails for a reason
   * other than the overlap constraint, and of those whose conflict could not be filed.
   */
  datatype Weather = Weather(faulted: set<nat>, unfiled: set<nat>)

  function RowKey(conn: Connection, e: Event): Key {
    Imported(conn.id, e.uid)
  }

  /** The row an upsert stores: insert a confirmed row, or move and re-confirm the one the UID already has. */
  function Landing(rows: Rows, conn: Connection, e: Event): Booking {
    var key := RowKey(conn, e);
    if key in rows then
      rows[key].(checkIn := e.start, checkOut := e.end, status := Confirmed)
    else
      Booking(conn.tenant, conn.unit, conn.channel, Confirmed, e.start, e.end, None, None)
  }

  /** The exclusion constraint refuses event e. */
  predicate Clashes(rows: Rows, conn: Connection, e: Event) {
    Refused(rows, RowKey(conn, e), Landing(rows, conn, e))
  }

  function Upsert(rows: Rows, conn: Connection, e: Event): Rows {
    rows[RowKey(conn, e) := Landing(rows, conn, e)]
  }

  /** The booking table after the first i events. */
  function RowsAfter(rows: Rows, conn: Connection, events: seq<Event>, faulted: set<nat>, i: nat): Rows
    requires i <= |events|
  {
    if i == 0 then rows
    else
      var before := RowsAfter(rows, conn, events, faulted, i - 1);
      if i - 1 in faulted || Clashes(before, conn, events[i - 1]) then before
      else Upsert(before, conn, events[i - 1])
  }

  /** Event i of the pull was stored. */
  predicate Lands(rows: Rows, conn: Connection, events: seq<Event>, faulted: set<nat>, i: nat)
    requires i < |events|
  {
    i !in faulted && !Clashes(RowsAfter(rows, conn, events, faulted, i), conn, events[i])
  }

  /** The UIDs among the first i events that did not land, for any reason. */
  function MissedAfter(rows: Rows, conn: Connection, events: seq<Event>, faulted: set<nat>, i: nat): seq<string>
    requires i <= |events|
  {
    if i == 0 then []
    else
      var before := MissedAfter(rows, conn, events, faulted, i - 1);
      if Lands(rows, conn, events, faulted, i - 1) then before else before + [events[i - 1].uid]
  }

  /** How many of the first i events landed, and how many the constraint refused. */
  function ImportedAfter(rows: Rows, conn: Connection, events: seq<Event>, faulted: set<nat>, i: nat): nat
    requires i <= |events|
  {
    if i == 0 then 0
    else ImportedAfter(rows, conn, events, faulted, i - 1)
         + if Lands(rows, conn, events, faulted, i - 1) then 1 else 0
  }

  function RefusedAfter(rows: Rows, conn: Connection, events: seq<Event>, faulted: set<nat>, i: nat): nat
    requires i <= |events|
  {
    if i == 0 then 0
    else RefusedAfter(rows, conn, events, faulted, i - 1)
         + if i - 1 in faulted || Lands(rows, conn, events, faulted, i - 1) then 0 else 1
  }

  /** Filing a refused event: a new open conflict, or the known one moved and, if it was resolved, reopened. */
  function File(conflicts: Conflicts, conn: Connection, e: Event, now: int): Conflicts {
    var key := ConflictKey(conn.id, e.uid);
    if key in conflicts then
      var c := conflicts[key];
      conflicts[key := c.(
        checkIn := e.start,
        checkOut := e.end,
        lastSeen := now,
        status := if c.status == Resolved then Open else c.status,
        closedAt := if c.status == Resolved then None else c.closedAt)]
    else
      conflicts[key := Conflict(conn.tenant, conn.unit, e.start, e.end, Open, now, now, None)]
  }

  /** The inbox after the first i events. */
  function ConflictsAfter(rows: Rows, conflicts: Conflicts, conn: Connection, events: seq<Event>,
                          weather: Weather, now: int, i: nat): Conflicts
    requires i <= |events|
  {
    if i == 0 then conflicts
    else
      var before := ConflictsAfter(rows, conflicts, conn, events, weather, now, i - 1);
      if Lands(rows, conn, events, weather.faulted, i - 1) || i - 1 in weather.faulted || i - 1 in weather.unfiled
      then before
      else File(before, conn, events[i - 1], now)
  }

  function Uids(events: seq<Event>): set<string> {
    set e <- events :: e.uid
  }

  /** An import of this connection that is confirmed and whose UID the feed no longer offers. */
  predicate Absent(rows: Rows, conn: Connection, uids: set<string>, k: Key) {
    && k in rows && k.Imported? && k.conn == conn.id
    && rows[k].tenant == conn.tenant && rows[k].status == Confirmed && k.uid !in uids
  }

  function Vanished(rows: Rows, conn: Connection, events: seq<Event>): set<Key> {
    if events == [] then {} else set k | k in rows && Absent(rows, conn, Uids(events), k)
  }

  function CancelAbsent(rows: Rows, conn: Connection, events: seq<Event>): Rows {
    if events == [] then rows
    else map k | k in rows :: if Absent(rows, conn, Uids(events), k) then rows[k].(status := Cancelled) else rows[k]
  }

  /** An open conflict of this connection that no event of the pull left standing. */
  predicate Healed(conflicts: Conflicts, conn: Connection, missed: seq<string>, k: ConflictKey) {
    && k in conflicts && k.conn == conn.id && conflicts[k].tenant == conn.tenant
    && conflicts[k].status == Open && k.uid !in missed
  }

  function CloseHealed(conflicts: Conflicts, conn: Connection, events: seq<Event>, missed: seq<string>,
                       now: int): Conflicts {
    if events == [] then conflicts
    else map k | k in conflicts ::
           if Healed(conflicts, conn, missed, k) then conflicts[k].(status := Resolved, closedAt := Some(now))
           else conflicts[k]
  }

  /** The booking table one healthy pull leaves. */
  function PullRows(rows: Rows, conn: Connection, events: seq<Event>, faulted: set<nat>): Rows {
    CancelAbsent(RowsAfter(rows, conn, events, faulted, |events|), conn, events)
  }

  /** The inbox one healthy pull leaves. */
  function PullConflicts(rows: Rows, conflicts: Conflicts, conn: Connection, events: seq<Event>,
                         weather: Weather, now: int): Conflicts
  {
    CloseHealed(ConflictsAfter(rows, conflicts, conn, events, weather, now, |events|), conn, events,
                MissedAfter(rows, conn, events, weather.faulted, |events|), now)
  }

  /** What the fetch and the parse handed over. */
  datatype Feed = Unhealthy(error: string) | Healthy(events: seq<Event>)

  datatype Health = Health(ok: bool, lastSynced: Option<int>, lastError: Option<string>)

  datatype SyncOutcome = SyncOutcome(health: Health, imported: nat, cancelled: nat, conflicts: nat)

  /** What a healthy pull reports. */
  function PullOutcome(rows: Rows, conn: Connection, events: seq<Event>, faulted: set<nat>, now: int): SyncOutcome {
    SyncOutcome(Health(true, Some(now), None),
                ImportedAfter(rows, conn, events, faulted, |events|),
                |Vanished(RowsAfter(rows, conn, events, faulted, |events|), conn, events)|,
                RefusedAfter(rows, conn, events, faulted, |events|))
  }

  lemma {:induction false} ImportedCounts(rows: Rows, conn: Connection, events: seq<Event>, faulted: set<nat>, i: nat)
    requires i <= |events|
    ensures ImportedAfter(rows, conn, events, faulted, i) ==
            |set m | 0 <= m < i && Lands(rows, conn, events, faulted, m)|
  {
    hide Lands;
    var landed := set m | 0 <= m < i && Lands(rows, conn, events, faulted, m);
    if i == 0 {
      assert landed == {};
    } else {
      ImportedCounts(rows, conn, events, faulted, i - 1);
      var l := set m | 0 <= m < i - 1 && Lands(rows, conn, events, faulted, m);
      assert landed == if Lands(rows, conn, events, faulted, i - 1) then l + {i - 1} else l;
    }
  }

  lemma {:induction false} RefusedCounts(rows: Rows, conn: Connection, events: seq<Event>, faulted: set<nat>, i: nat)
    requires i <= |events|
    ensures RefusedAfter(rows, conn, events, faulted, i) ==
            |set m | 0 <= m < i && m !in faulted && !Lands(rows, conn, events, faulted, m)|
  {
    hide Lands;
    var refused := set m | 0 <= m < i && m !in faulted && !Lands(rows, conn, events, faulted, m);
    if i == 0 {
      assert refused == {};
    } else {
      RefusedCounts(rows, conn, events, faulted, i - 1);
      var r := set m | 0 <= m < i - 1 && m !in faulted && !Lands(rows, conn, events, faulted, m);
      assert refused == if i - 1 in faulted || Lands(rows, conn, events, faulted, i - 1) then r else r + {i - 1};
    }
  }

  lemma FaultedNeverLands(rows: Rows, conn: Connection, events: seq<Event>, faulted: set<nat>, i: nat)
    requires i < |events|
    ensures Lands(rows, conn, events, faulted, i) ==> i !in faulted
  {
  }

  /** Every event is counted once: landed, refused or faulted. */
  lemma {:induction false} EachCountsOnce(rows: Rows, conn: Connection, events: seq<Event>, faulted: set<nat>, i: nat)
    requires i <= |events|
    ensures ImportedAfter(rows, conn, events, faulted, i) + RefusedAfter(rows, conn, events, faulted, i)
            + |set m | 0 <= m < i && m in faulted| == i
  {
    hide Lands;
    var bad := set m | 0 <= m < i && m in faulted;
    if i == 0 {
      assert bad == {};
    } else {
      EachCountsOnce(rows, conn, events, faulted, i - 1);
      FaultedNeverLands(rows, conn, events, faulted, i - 1);
      var b := set m | 0 <= m < i - 1 && m in faulted;
      assert bad == if i - 1 in faulted then b + {i - 1} else b;
    }
  }

  lemma AbsentKeepsKeys(rows: Rows, conn: Connection, events: seq<Event>)
    ensures CancelAbsent(rows, conn, events).Keys == rows.Keys
  {
  }

  /** A row counts as cancelled exactly when it was confirmed after the events and is cancelled after the pull. */
  lemma VanishedAre(rows: Rows, conn: Connection, events: seq<Event>)
    ensures Vanished(rows, conn, events) ==
            set k | k in rows && rows[k].status == Confirmed && CancelAbsent(rows, conn, events)[k].status == Cancelled
  {
  }

  /** The import service: three tables and the method the cron and "Sync now" both call. */
  class ChannelSync {
    var rows: Rows
    var conflicts: Conflicts
    var health: map<nat, Health>

    constructor ()
      ensures rows == map[] && conflicts == map[] && health == map[]
    {
      rows, conflicts, health := map[], map[], map[];
    }

    /** Insert-or-update one event in its own savepoint; false when the constraint refused it. */
    method UpsertEvent(conn: Connection, e: Event) returns (stored: bool)
      modifies this`rows
      ensures stored == !Clashes(old(rows), conn, e)
      ensures rows == if stored then Upsert(old(rows), conn, e) else old(rows)
      ensures var key := Imported(conn.id, e.uid);
              var unit := if key in old(rows) then old(rows)[key].unit else conn.unit;
              stored <==>
              forall k | k in old(rows) && k != key && old(rows)[k].status in {PendingPayment, Confirmed}
                         && old(rows)[k].unit == unit ::
                !(old(rows)[k].checkIn < e.end && e.start < old(rows)[k].checkOut)
      ensures var key := Imported(conn.id, e.uid);
              stored ==>
              rows == old(rows)[key :=
                if key in old(rows) then old(rows)[key].(checkIn := e.start, checkOut := e.end, status := Confirmed)
                else Booking(conn.tenant, conn.unit, conn.channel, Confirmed, e.start, e.end, None, None)]
    {
      var key := RowKey(conn, e);
      var row := Landing(rows, conn, e);
      stored := !Refused(rows, key, row);
      if stored {
        rows := rows[key := row];
      }
    }

    /** File one refused event; `filed` is false when even that failed, which the sync survives. */
    method RecordConflict(conn: Connection, e: Event, now: int, filed: bool)
      modifies this`conflicts
      ensures conflicts == if filed then File(old(conflicts), conn, e, now) else old(conflicts)
      ensures filed ==>
                var key := ConflictKey(conn.id, e.uid);
                && conflicts.Keys == old(conflicts).Keys + {key}
                && (forall k | k in old(conflicts) && k != key :: conflicts[k] == old(conflicts)[k])
                && (key !in old(conflicts) ==>
                      conflicts[key] == Conflict(conn.tenant, conn.unit, e.start, e.end, Open, now, now, None))
                && (key in old(conflicts) ==>
                      var c := old(conflicts)[key];
                      conflicts[key] == Conflict(c.tenant, c.unit, e.start, e.end,
                                                 if c.status == Dismissed then Dismissed else Open,
                                                 c.firstDetected, now,
                                                 if c.status == Resolved then None else c.closedAt))
    {
      if filed {
        var key := ConflictKey(conn.id, e.uid);
        if key in conflicts {
          var c := conflicts[key];
          var reopened := c.status == Resolved;
          c := c.(checkIn := e.start, checkOut := e.end, lastSeen := now);
          if reopened {
            c := c.(status := Open, closedAt := None);
          }
          conflicts := conflicts[key := c];
        } else {
          conflicts := conflicts[key := Conflict(conn.tenant, conn.unit, e.start, e.end, Open, now, now, None)];
        }
      }
    }

    /** Remember that a pull failed: the last good sync time stays, no other table is touched. */
    method MarkError(conn: Connection, error: string) returns (outcome: SyncOutcome)
      modifies this`health
      ensures health == old(health)[conn.id := outcome.health]
      ensures outcome == SyncOutcome(
                           Health(false,
                                  if conn.id in old(health) then old(health)[conn.id].lastSynced else None,
                                  Some(error)),
                           0, 0, 0)
    {
      var last := if conn.id in health then health[conn.id].lastSynced else None;
      outcome := SyncOutcome(Health(false, last, Some(error)), 0, 0, 0);
      health := health[conn.id := outcome.health];
    }

    /** The savepoint-per-event loop. */
    method ImportEvents(conn: Connection, events: seq<Event>, now: int, weather: Weather)
      returns (imported: nat, refused: nat, missed: seq<string>)
      modifies this`rows, this`conflicts
      ensures rows == RowsAfter(old(rows), conn, events, weather.faulted, |events|)
      ensures conflicts == ConflictsAfter(old(rows), old(conflicts), conn, events, weather, now, |events|)
      ensures missed == MissedAfter(old(rows), conn, events, weather.faulted, |events|)
      ensures imported == ImportedAfter(old(rows), conn, events, weather.faulted, |events|)
      ensures refused == RefusedAfter(old(rows), conn, events, weather.faulted, |events|)
    {
      imported, refused, missed := 0, 0, [];
      for i := 0 to |events|
        invariant rows == RowsAfter(old(rows), conn, events, weather.faulted, i)
        invariant conflicts == ConflictsAfter(old(rows), old(conflicts), conn, events, weather, now, i)
        invariant missed == MissedAfter(old(rows), conn, events, weather.faulted, i)
        invariant imported == ImportedAfter(old(rows), conn, events, weather.faulted, i)
        invariant refused == RefusedAfter(old(rows), conn, events, weather.faulted, i)
      {
        hide Clashes, Upsert, File;
        if i in weather.faulted {
          missed := missed + [events[i].uid];
        } else {
          var stored := UpsertEvent(conn, events[i]);
          if stored {
            imported := imported + 1;
          } else {
            missed := missed + [events[i].uid];
            RecordConflict(conn, events[i], now, i !in weather.unfiled);
            refused := refused + 1;
          }
        }
      }
    }

    /** Cancel the imports whose UID vanished from a feed that offered at least one event. */
    method CancelVanished(conn: Connection, events: seq<Event>) returns (cancelled: nat)
      modifies this`rows
      ensures rows == CancelAbsent(old(rows), conn, events)
      ensures cancelled == |Vanished(old(rows), conn, events)|
      ensures rows.Keys == old(rows).Keys
      ensures forall k | k in old(rows) ::
                rows[k] == if && events != [] && k.Imported? && k.conn == conn.id
                              && old(rows)[k].tenant == conn.tenant && old(rows)[k].status == Confirmed
                              && forall e | e in events :: e.uid != k.uid
                           then old(rows)[k].(status := Cancelled) else old(rows)[k]
      ensures cancelled == |set k | k in old(rows) && rows[k] != old(rows)[k]|
    {
      var gone := Vanished(rows, conn, events);
      cancelled := |gone|;
      if events != [] {
        rows := map k | k in rows :: if k in gone then rows[k].(status := Cancelled) else rows[k];
      }
      assert forall u :: u in Uids(events) <==> exists e | e in events :: e.uid == u;
      assert gone == set k | k in old(rows) && rows[k] != old(rows)[k];
    }

    /** Resolve the open conflicts this pull measured as gone. */
    method ResolveHealed(conn: Connection, events: seq<Event>, missed: seq<string>, now: int)
      modifies this`conflicts
      ensures conflicts == CloseHealed(old(conflicts), conn, events, missed, now)
      ensures conflicts.Keys == old(conflicts).Keys
      ensures forall k | k in old(conflicts) ::
                conflicts[k] == if && events != [] && k.conn == conn.id && old(conflicts)[k].tenant == conn.tenant
                                   && old(conflicts)[k].status == Open && k.uid !in missed
                                then old(conflicts)[k].(status := Resolved, closedAt := Some(now))
                                else old(conflicts)[k]
    {
      if events != [] {
        conflicts := map k | k in conflicts ::
          if Healed(conflicts, conn, missed, k) then conflicts[k].(status := Resolved, closedAt := Some(now))
          else conflicts[k];
      }
    }

    /** Reconcile one connection with what its feed said. */
    method SyncConnection(conn: Connection, feed: Feed, now: int, weather: Weather) returns (outcome: SyncOutcome)
      modifies this
      ensures feed.Unhealthy? ==> rows == old(rows) && conflicts == old(conflicts)
      ensures feed.Unhealthy? ==> !outcome.health.ok && outcome.imported == outcome.cancelled == outcome.conflicts == 0
      ensures feed.Healthy? ==> rows == PullRows(old(rows), conn, feed.events, weather.faulted)
      ensures feed.Healthy? ==> conflicts == PullConflicts(old(rows), old(conflicts), conn, feed.events, weather, now)
      ensures feed.Healthy? ==> outcome == PullOutcome(old(rows), conn, feed.events, weather.faulted, now)
      ensures feed.Healthy? ==> outcome.health == Health(true, Some(now), None)
      ensures feed.Healthy? ==>
                && outcome.imported ==
                   |set i | 0 <= i < |feed.events| && Lands(old(rows), conn, feed.events, weather.faulted, i)|
                && outcome.conflicts ==
                   |set i | 0 <= i < |feed.events| && i !in weather.faulted
                            && !Lands(old(rows), conn, feed.events, weather.faulted, i)|
                && outcome.imported + outcome.conflicts + |set i | 0 <= i < |feed.events| && i in weather.faulted|
                   == |feed.events|
      ensures feed.Healthy? ==>
                var mid := RowsAfter(old(rows), conn, feed.events, weather.faulted, |feed.events|);
                && mid.Keys == rows.Keys
                && outcome.cancelled == |set k | k in mid && mid[k].status == Confirmed && rows[k].status == Cancelled|
      ensures feed.Unhealthy? ==>
                outcome.health == Health(false,
                                         if conn.id in old(health) then old(health)[conn.id].lastSynced else None,
                                         Some(feed.error))
      ensures health.Keys == old(health).Keys + {conn.id} && health[conn.id] == outcome.health
      ensures forall c | c in old(health) && c != conn.id :: health[c] == old(health)[c]
      ensures health == old(health)[conn.id := outcome.health]
    {
      if feed.Unhealthy? {
        outcome := MarkError(conn, feed.error);
        return;
      }
      hide RowsAfter, ConflictsAfter, MissedAfter, ImportedAfter, RefusedAfter, CancelAbsent, CloseHealed;
      var imported, refused, missed := ImportEvents(conn, feed.events, now, weather);
      var cancelled := CancelVanished(conn, feed.events);
      ResolveHealed(conn, feed.events, missed, now);
      outcome := SyncOutcome(Health(true, Some(now), None), imported, cancelled, refused);
      health := health[conn.id := outcome.health];
      ImportedCounts(old(rows), conn, feed.events, weather.faulted, |feed.events|);
      RefusedCounts(old(rows), conn, feed.events, weather.faulted, |feed.events|);
      EachCountsOnce(old(rows), conn, feed.events, weather.faulted, |feed.events|);
      ghost var mid := RowsAfter(old(rows), conn, feed.events, weather.faulted, |feed.events|);
      VanishedAre(mid, conn, feed.events);
      AbsentKeepsKeys(mid, conn, feed.events);
    }
  }
}
