/**
 * What one pull does exactly, and where repeated pulls of one feed end up.
 */
module Convergence {
  import opened Options
  import opened Bookings
  import opened Reconcile

  /** Rows imported through the connection sit on its unit and belong to its tenant. */
  ghost predicate Belongs(rows: Rows, conn: Connection) {
    forall k | k in rows && k.Imported? && k.conn == conn.id ::
      rows[k].unit == conn.unit && rows[k].tenant == conn.tenant
  }

  ghost predicate Ready(rows: Rows, conn: Connection) {
    ValidRows(rows) && Belongs(rows, conn)
  }

  ghost predicate DistinctUids(events: seq<Event>) {
    forall i, j | 0 <= i < j < |events| :: events[i].uid != events[j].uid
  }

  /** A UID the feed repeats, as recurrence overrides may, stands for the same nights each time. */
  ghost predicate Consistent(events: seq<Event>) {
    forall i, j | 0 <= i < j < |events| && events[i].uid == events[j].uid :: events[i] == events[j]
  }

  lemma DistinctIsConsistent(events: seq<Event>)
    requires DistinctUids(events)
    ensures Consistent(events)
  {
  }

  /** The UID is confirmed on exactly the nights the feed gives it. */
  predicate Landed(rows: Rows, conn: Connection, e: Event) {
    var key := RowKey(conn, e);
    key in rows && rows[key].status == Confirmed && rows[key].checkIn == e.start && rows[key].checkOut == e.end
  }

  ghost predicate SameRow(before: Rows, after: Rows, k: Key) {
    (k in before <==> k in after) && (k in before ==> before[k] == after[k])
  }

  lemma RowsAfterReady(rows: Rows, conn: Connection, events: seq<Event>, faulted: set<nat>, i: nat)
    requires Ready(rows, conn) && i <= |events|
    ensures Ready(RowsAfter(rows, conn, events, faulted, i), conn)
  {
  }

  /**
   * The events in turn, spelled out: event i takes its row to its nights, confirmed, unless it faulted or another
   * occupying row of the unit is on one of them; nothing else changes.
   */
  lemma EventInTurn(rows: Rows, conn: Connection, events: seq<Event>, faulted: set<nat>, i: nat)
    requires i < |events|
    ensures var before := RowsAfter(rows, conn, events, faulted, i);
            var after := RowsAfter(rows, conn, events, faulted, i + 1);
            var e, key := events[i], Imported(conn.id, events[i].uid);
            var unit := if key in before then before[key].unit else conn.unit;
            var lands := i !in faulted
              && forall k | k in before && k != key && before[k].status in {PendingPayment, Confirmed}
                            && before[k].unit == unit ::
                   !(before[k].checkIn < e.end && e.start < before[k].checkOut);
            && RowsAfter(rows, conn, events, faulted, 0) == rows
            && (Lands(rows, conn, events, faulted, i) <==> lands)
            && after == if !lands then before
                        else if key in before
                        then before[key := before[key].(checkIn := e.start, checkOut := e.end, status := Confirmed)]
                        else before[key := Booking(conn.tenant, conn.unit, conn.channel, Confirmed,
                                                   e.start, e.end, None, None)]
  {
  }

  lemma CancelAbsentOnlyFrees(rows: Rows, conn: Connection, events: seq<Event>)
    ensures OnlyFrees(rows, CancelAbsent(rows, conn, events))
  {
  }

  /** A pull keeps the table valid, whatever the feed says and whatever fails. */
  lemma PullKeepsReady(rows: Rows, conn: Connection, events: seq<Event>, faulted: set<nat>)
    requires Ready(rows, conn)
    ensures Ready(PullRows(rows, conn, events, faulted), conn)
  {
    RowsAfterReady(rows, conn, events, faulted, |events|);
    var mid := RowsAfter(rows, conn, events, faulted, |events|);
    CancelAbsentOnlyFrees(mid, conn, events);
    FreeingKeepsValid(mid, CancelAbsent(mid, conn, events));
  }

  /** Events i..j leave alone every row that is not one of theirs. */
  lemma {:induction false} RowsAfterFrame(rows: Rows, conn: Connection, events: seq<Event>, faulted: set<nat>,
                                         i: nat, j: nat, k: Key)
    requires i <= j <= |events|
    requires forall m | i <= m < j :: RowKey(conn, events[m]) != k
    ensures SameRow(RowsAfter(rows, conn, events, faulted, i), RowsAfter(rows, conn, events, faulted, j), k)
  {
    if i < j {
      RowsAfterFrame(rows, conn, events, faulted, i, j - 1, k);
    }
  }

  /** What the pull does to the row of its event i. */
  lemma EventOutcome(rows: Rows, conn: Connection, events: seq<Event>, faulted: set<nat>, i: nat)
    requires DistinctUids(events) && i < |events|
    ensures var after := PullRows(rows, conn, events, faulted);
            if Lands(rows, conn, events, faulted, i) then Landed(after, conn, events[i])
            else SameRow(rows, after, RowKey(conn, events[i]))
  {
    var k := RowKey(conn, events[i]);
    assert events[i].uid in Uids(events);
    RowsAfterFrame(rows, conn, events, faulted, 0, i, k);
    RowsAfterFrame(rows, conn, events, faulted, i + 1, |events|, k);
  }

  /** Row k is an import of this connection whose UID the feed offers. */
  predicate Offered(conn: Connection, events: seq<Event>, k: Key) {
    k.Imported? && k.conn == conn.id && k.uid in Uids(events)
  }

  /** What the pull does to a row the feed does not offer: a confirmed import is cancelled, nothing else happens. */
  lemma RowOutcome(rows: Rows, conn: Connection, events: seq<Event>, faulted: set<nat>, k: Key)
    requires Belongs(rows, conn) && events != [] && !Offered(conn, events, k)
    ensures var after := PullRows(rows, conn, events, faulted);
            if k in rows && k.Imported? && k.conn == conn.id && rows[k].status == Confirmed
            then k in after && after[k] == rows[k].(status := Cancelled)
            else SameRow(rows, after, k)
  {
    RowsAfterFrame(rows, conn, events, faulted, 0, |events|, k);
  }

  /**
   * One pull, exactly. For a non-empty feed with distinct UIDs: an event that landed is confirmed on the
   * feed's nights; one that did not keeps the row it had; an import the feed no longer offers is not
   * confirmed any more; every other row - direct sales, blocks, other connections - is untouched.
   */
  lemma PullExactly(rows: Rows, conn: Connection, events: seq<Event>, faulted: set<nat>)
    requires Belongs(rows, conn) && DistinctUids(events) && events != []
    ensures forall i | 0 <= i < |events| && Lands(rows, conn, events, faulted, i) ::
              Landed(PullRows(rows, conn, events, faulted), conn, events[i])
    ensures forall i | 0 <= i < |events| && !Lands(rows, conn, events, faulted, i) ::
              SameRow(rows, PullRows(rows, conn, events, faulted), RowKey(conn, events[i]))
    ensures forall k | k in PullRows(rows, conn, events, faulted) && k.Imported? && k.conn == conn.id
                       && PullRows(rows, conn, events, faulted)[k].status == Confirmed ::
              k.uid in Uids(events)
    ensures forall k: Key | !(k.Imported? && k.conn == conn.id) ::
              SameRow(rows, PullRows(rows, conn, events, faulted), k)
  {
    hide PullRows, Landed, Lands, SameRow, Belongs;
    forall i | 0 <= i < |events|
      ensures if Lands(rows, conn, events, faulted, i)
              then Landed(PullRows(rows, conn, events, faulted), conn, events[i])
              else SameRow(rows, PullRows(rows, conn, events, faulted), RowKey(conn, events[i]))
    {
      EventOutcome(rows, conn, events, faulted, i);
    }
    forall k: Key | !Offered(conn, events, k)
      ensures k in PullRows(rows, conn, events, faulted) && k.Imported? && k.conn == conn.id ==>
                PullRows(rows, conn, events, faulted)[k].status != Confirmed
      ensures !(k.Imported? && k.conn == conn.id) ==> SameRow(rows, PullRows(rows, conn, events, faulted), k)
    {
      RowOutcome(rows, conn, events, faulted, k);
      NotConfirmedOtherwise(rows, PullRows(rows, conn, events, faulted), k);
    }
  }

  lemma NotConfirmedOtherwise(rows: Rows, after: Rows, k: Key)
    ensures SameRow(rows, after, k) && k in after && after[k].status == Confirmed ==>
              k in rows && rows[k].status == Confirmed
  {
  }

  // ---- Repeated pulls of one feed, with no other writer and no fault --------------------------------

  function PullAgain(rows: Rows, conn: Connection, events: seq<Event>, times: nat): Rows {
    if times == 0 then rows else PullRows(PullAgain(rows, conn, events, times - 1), conn, events, {})
  }

  lemma PullAgainReady(rows: Rows, conn: Connection, events: seq<Event>, times: nat)
    requires Ready(rows, conn)
    ensures Ready(PullAgain(rows, conn, events, times), conn)
  {
    if times > 0 {
      PullAgainReady(rows, conn, events, times - 1);
      PullKeepsReady(PullAgain(rows, conn, events, times - 1), conn, events, {});
    }
  }

  /** Where an event has landed, storing it again changes nothing and is never refused. */
  lemma LandedIsStable(rows: Rows, conn: Connection, e: Event)
    requires ValidRows(rows) && Landed(rows, conn, e)
    ensures !Clashes(rows, conn, e) && Upsert(rows, conn, e) == rows
  {
  }

  /** Storing any event of the feed leaves a landed one landed. */
  lemma UpsertKeepsLanded(rows: Rows, conn: Connection, other: Event, e: Event)
    requires other == e || other.uid != e.uid
    requires Landed(rows, conn, e)
    ensures Landed(Upsert(rows, conn, other), conn, e)
  {
  }

  lemma SameOrOther(events: seq<Event>, i: nat, j: nat)
    requires Consistent(events) && i < |events| && j < |events|
    ensures events[i] == events[j] || events[i].uid != events[j].uid
  {
    assert i < j || j < i || i == j;
  }

  /** Once landed, landed to the end of the pull. */
  lemma {:induction false} LandedSurvives(rows: Rows, conn: Connection, events: seq<Event>, k: nat, i: nat, j: nat)
    requires Consistent(events) && k < |events| && i <= j <= |events|
    requires Landed(RowsAfter(rows, conn, events, {}, i), conn, events[k])
    ensures Landed(RowsAfter(rows, conn, events, {}, j), conn, events[k])
  {
    hide *;
    if i < j {
      SameOrOther(events, j - 1, k);
      LandedSurvives(rows, conn, events, k, i, j - 1);
      StoredNext(rows, conn, events, j);
      var before := RowsAfter(rows, conn, events, {}, j - 1);
      UpsertKeepsLanded(before, conn, events[j - 1], events[k]);
    }
  }

  lemma CancelKeepsLanded(rows: Rows, conn: Connection, events: seq<Event>, e: Event)
    requires e in events
    ensures Landed(CancelAbsent(rows, conn, events), conn, e) == Landed(rows, conn, e)
  {
  }

  /** A UID whose row carries its feed dates keeps them through every pull. */
  lemma LandedForGood(rows: Rows, conn: Connection, events: seq<Event>, e: Event)
    requires Ready(rows, conn) && Consistent(events) && e in events && Landed(rows, conn, e)
    ensures Landed(PullRows(rows, conn, events, {}), conn, e)
  {
    var k :| 0 <= k < |events| && events[k] == e;
    LandedSurvives(rows, conn, events, k, 0, |events|);
    CancelKeepsLanded(RowsAfter(rows, conn, events, {}, |events|), conn, events, e);
  }

  function Unlanded(rows: Rows, conn: Connection, events: seq<Event>): set<Event> {
    set e | e in events && !Landed(rows, conn, e)
  }

  ghost predicate NothingAbsent(rows: Rows, conn: Connection, events: seq<Event>) {
    forall k | k in rows :: !Absent(rows, conn, Uids(events), k)
  }

  lemma PullLeavesNothingAbsent(rows: Rows, conn: Connection, events: seq<Event>)
    requires events != []
    ensures NothingAbsent(PullRows(rows, conn, events, {}), conn, events)
  {
  }

  /** While no unlanded event lands, the first i events change nothing. */
  lemma {:induction false} NoLandingNoChange(rows: Rows, conn: Connection, events: seq<Event>, i: nat)
    requires Ready(rows, conn) && Consistent(events) && i <= |events|
    requires Unlanded(rows, conn, events) <= Unlanded(PullRows(rows, conn, events, {}), conn, events)
    ensures RowsAfter(rows, conn, events, {}, i) == rows
  {
    hide *;
    StoredNone(rows, conn, events);
    if i > 0 {
      NoLandingNoChange(rows, conn, events, i - 1);
      NoLandingStep(rows, conn, events, i);
    }
  }

  lemma NoLandingStep(rows: Rows, conn: Connection, events: seq<Event>, i: nat)
    requires Ready(rows, conn) && Consistent(events) && 0 < i <= |events|
    requires Unlanded(rows, conn, events) <= Unlanded(PullRows(rows, conn, events, {}), conn, events)
    requires RowsAfter(rows, conn, events, {}, i - 1) == rows
    ensures RowsAfter(rows, conn, events, {}, i) == rows
  {
    var e := events[i - 1];
    StoredNext(rows, conn, events, i);
    hide RowsAfter, PullRows, Ready, Consistent, Unlanded, Landed, Clashes, Upsert;
    if Landed(rows, conn, e) {
      StaysPut(rows, conn, e);
    } else if !Clashes(rows, conn, e) {
      UpsertLands(rows, conn, e);
      LandsForGood(rows, conn, events, i);
      LandedLeaves(rows, conn, events, e);
    }
  }

  lemma StoredNone(rows: Rows, conn: Connection, events: seq<Event>)
    ensures RowsAfter(rows, conn, events, {}, 0) == rows
  {
    hide Clashes, Upsert;
  }

  lemma StoredNext(rows: Rows, conn: Connection, events: seq<Event>, i: nat)
    requires 0 < i <= |events|
    ensures var before := RowsAfter(rows, conn, events, {}, i - 1);
            RowsAfter(rows, conn, events, {}, i) ==
            if Clashes(before, conn, events[i - 1]) then before else Upsert(before, conn, events[i - 1])
  {
    hide Clashes, Upsert;
  }

  lemma StaysPut(rows: Rows, conn: Connection, e: Event)
    requires Ready(rows, conn) && Landed(rows, conn, e)
    ensures !Clashes(rows, conn, e) && Upsert(rows, conn, e) == rows
  {
    LandedIsStable(rows, conn, e);
  }

  lemma UpsertLands(rows: Rows, conn: Connection, e: Event)
    ensures Landed(Upsert(rows, conn, e), conn, e)
  {
  }

  /** What landed by event i has landed at the end of the pull. */
  lemma LandsForGood(rows: Rows, conn: Connection, events: seq<Event>, i: nat)
    requires Consistent(events) && 0 < i <= |events|
    requires Landed(RowsAfter(rows, conn, events, {}, i), conn, events[i - 1])
    ensures Landed(PullRows(rows, conn, events, {}), conn, events[i - 1])
  {
    hide RowsAfter, Landed;
    LandedSurvives(rows, conn, events, i - 1, i, |events|);
    CancelKeepsLanded(RowsAfter(rows, conn, events, {}, |events|), conn, events, events[i - 1]);
  }

  /** An event that lands in the pull leaves the unlanded. */
  lemma LandedLeaves(rows: Rows, conn: Connection, events: seq<Event>, e: Event)
    requires e in events && !Landed(rows, conn, e) && Landed(PullRows(rows, conn, events, {}), conn, e)
    ensures !(Unlanded(rows, conn, events) <= Unlanded(PullRows(rows, conn, events, {}), conn, events))
  {
    hide PullRows, Landed;
    assert e in Unlanded(rows, conn, events);
  }

  /** A pull that lands nothing new on a table with nothing absent changes nothing. */
  lemma QuietPull(rows: Rows, conn: Connection, events: seq<Event>)
    requires Ready(rows, conn) && Consistent(events) && NothingAbsent(rows, conn, events)
    requires Unlanded(rows, conn, events) <= Unlanded(PullRows(rows, conn, events, {}), conn, events)
    ensures PullRows(rows, conn, events, {}) == rows
  {
    NoLandingNoChange(rows, conn, events, |events|);
  }

  lemma UnlandedShrinks(rows: Rows, conn: Connection, events: seq<Event>)
    requires Ready(rows, conn) && Consistent(events)
    ensures Unlanded(PullRows(rows, conn, events, {}), conn, events) <= Unlanded(rows, conn, events)
  {
    forall e | e in events && Landed(rows, conn, e)
      ensures Landed(PullRows(rows, conn, events, {}), conn, e)
    {
      LandedForGood(rows, conn, events, e);
    }
  }

  lemma SubsetSize<T>(a: set<T>, b: set<T>)
    requires a <= b
    ensures |a| <= |b| && (a != b ==> |a| < |b|)
  {
    assert |b - a| == |b| - |a|;
    if a != b {
      var x :| x in b && x !in a;
      assert x in b - a;
    }
  }

  lemma PullAgainShift(rows: Rows, conn: Connection, events: seq<Event>, times: nat)
    ensures PullAgain(PullRows(rows, conn, events, {}), conn, events, times) == PullAgain(rows, conn, events, times + 1)
  {
  }

  lemma FixpointStays(rows: Rows, conn: Connection, events: seq<Event>, times: nat)
    requires Settled(rows, conn, events)
    ensures PullAgain(rows, conn, events, times) == rows
  {
  }

  /** A pull that changes a table with nothing absent lands at least one more event. */
  lemma PullMakesProgress(rows: Rows, conn: Connection, events: seq<Event>)
    requires Ready(rows, conn) && Consistent(events) && NothingAbsent(rows, conn, events)
    requires PullRows(rows, conn, events, {}) != rows
    ensures |Unlanded(PullRows(rows, conn, events, {}), conn, events)| < |Unlanded(rows, conn, events)|
  {
    var next := PullRows(rows, conn, events, {});
    UnlandedShrinks(rows, conn, events);
    if Unlanded(rows, conn, events) <= Unlanded(next, conn, events) {
      QuietPull(rows, conn, events);
      assert false;
    }
    SubsetSize(Unlanded(next, conn, events), Unlanded(rows, conn, events));
  }

  /** A table the next pull leaves as it is. */
  ghost predicate Settled(rows: Rows, conn: Connection, events: seq<Event>) {
    PullRows(rows, conn, events, {}) == rows
  }

  /** The number of unlanded events bounds the pulls still needed once nothing is absent. */
  lemma {:induction false} Settles(rows: Rows, conn: Connection, events: seq<Event>, fuel: nat)
    requires Ready(rows, conn) && Consistent(events) && events != []
    requires NothingAbsent(rows, conn, events) && |Unlanded(rows, conn, events)| <= fuel
    ensures Settled(PullAgain(rows, conn, events, fuel), conn, events)
    decreases fuel
  {
    hide Ready, PullRows, NothingAbsent, Unlanded, Consistent;
    if Settled(rows, conn, events) {
      FixpointStays(rows, conn, events, fuel);
    } else {
      PullMakesProgress(rows, conn, events);
      PullKeepsReady(rows, conn, events, {});
      PullLeavesNothingAbsent(rows, conn, events);
      Settles(PullRows(rows, conn, events, {}), conn, events, fuel - 1);
      PullAgainShift(rows, conn, events, fuel - 1);
    }
  }

  lemma {:induction false} EventsBoundUnlanded(rows: Rows, conn: Connection, events: seq<Event>)
    ensures |Unlanded(rows, conn, events)| <= |events|
  {
    if events == [] {
      assert Unlanded(rows, conn, events) == {};
    } else {
      var rest := events[1..];
      EventsBoundUnlanded(rows, conn, rest);
      assert Unlanded(rows, conn, events) <= Unlanded(rows, conn, rest) + {events[0]};
      SubsetSize(Unlanded(rows, conn, events), Unlanded(rows, conn, rest) + {events[0]});
    }
  }

  lemma {:induction false} PullAgainAdd(rows: Rows, conn: Connection, events: seq<Event>, a: nat, b: nat)
    ensures PullAgain(rows, conn, events, a + b) == PullAgain(PullAgain(rows, conn, events, a), conn, events, b)
  {
    hide PullRows;
    if b == 0 {
      assert a + b == a;
    } else {
      PullAgainAdd(rows, conn, events, a, b - 1);
      assert a + b - 1 == a + (b - 1);
    }
  }

  /** n + 1 pulls of a feed of n events reach a table the next pull leaves as it is. */
  lemma ReachesFixpoint(rows: Rows, conn: Connection, events: seq<Event>)
    requires Ready(rows, conn) && Consistent(events) && events != []
    ensures Settled(PullAgain(rows, conn, events, |events| + 1), conn, events)
  {
    var first := PullRows(rows, conn, events, {});
    PullKeepsReady(rows, conn, events, {});
    PullLeavesNothingAbsent(rows, conn, events);
    EventsBoundUnlanded(first, conn, events);
    Settles(first, conn, events, |events|);
    PullAgainShift(rows, conn, events, |events|);
  }

  /**
   * The import converges: n + 1 pulls of a healthy feed of n >= 1 events, in which a repeated UID stands for the
   * same nights each time, reach a booking table that every further pull leaves as it is.
   */
  lemma Converges(rows: Rows, conn: Connection, events: seq<Event>, more: nat)
    requires Ready(rows, conn) && Consistent(events) && events != []
    ensures PullAgain(rows, conn, events, |events| + 1 + more) == PullAgain(rows, conn, events, |events| + 1)
  {
    hide *;
    ReachesFixpoint(rows, conn, events);
    PullAgainAdd(rows, conn, events, |events| + 1, more);
    FixpointStays(PullAgain(rows, conn, events, |events| + 1), conn, events, more);
  }
}
