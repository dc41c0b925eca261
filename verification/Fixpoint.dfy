/**
 * Which feeds the import can mirror completely.
 *
 * The fixpoint of module Convergence need not equal the feed: two UIDs that swap their dates block
 * each other for ever. This module gives the exact condition on the table and the feed, before the
 * first pull, under which every event ends up on its own nights.
 */
module Fixpoint {
  import opened Options
  import opened Bookings
  import opened Reconcile
  import opened Convergence

  ghost predicate AllLanded(rows: Rows, conn: Connection, events: seq<Event>) {
    forall e | e in events :: Landed(rows, conn, e)
  }

  /** Row k occupies a night event e wants. */
  predicate InTheWay(rows: Rows, conn: Connection, k: Key, e: Event) {
    && k in rows && Occupying(rows[k]) && rows[k].unit == conn.unit
    && rows[k].checkIn < e.end && e.start < rows[k].checkOut
  }

  /** Two events of the feed never want the same night. */
  ghost predicate FeedDisjoint(events: seq<Event>) {
    forall e, f | e in events && f in events && e.uid != f.uid :: !(e.start < f.end && f.start < e.end)
  }

  /** No pull of this feed will ever move or cancel row k. */
  predicate Outside(rows: Rows, conn: Connection, events: seq<Event>, k: Key) {
    k in rows && !(k.Imported? && k.conn == conn.id && (k.uid in Uids(events) || rows[k].status == Confirmed))
  }

  ghost predicate ClearOutside(rows: Rows, conn: Connection, events: seq<Event>) {
    forall e, k | e in events && Outside(rows, conn, events, k) :: !InTheWay(rows, conn, k, e)
  }

  /** Event e wants a night that another UID of s still holds. */
  ghost predicate Waits(rows: Rows, conn: Connection, s: set<string>, e: Event) {
    exists f | f in s :: f != e.uid && InTheWay(rows, conn, Imported(conn.id, f), e)
  }

  /** Every UID of s waits for another UID of s. */
  ghost predicate Deadlocked(rows: Rows, conn: Connection, events: seq<Event>, s: set<string>) {
    && s != {} && s <= Uids(events)
    && forall e {:trigger Waits(rows, conn, s, e)} | e in events && e.uid in s :: Waits(rows, conn, s, e)
  }

  lemma ClashMeansInTheWay(rows: Rows, conn: Connection, e: Event)
    requires Belongs(rows, conn)
    ensures Clashes(rows, conn, e) <==> exists k | k in rows :: k != RowKey(conn, e) && InTheWay(rows, conn, k, e)
  {
    var b := Landing(rows, conn, e);
    assert b.unit == conn.unit && b.checkIn == e.start && b.checkOut == e.end;
    forall k | k in rows
      ensures Blocks(rows, k, b) <==> InTheWay(rows, conn, k, e)
    {
    }
  }

  // ---- Rows no pull changes -------------------------------------------------------------------------

  lemma {:induction false} OutsideStays(rows: Rows, conn: Connection, events: seq<Event>, k: Key, times: nat)
    requires Ready(rows, conn) && DistinctUids(events) && events != [] && Outside(rows, conn, events, k)
    ensures SameRow(rows, PullAgain(rows, conn, events, times), k)
  {
    if times > 0 {
      OutsideStays(rows, conn, events, k, times - 1);
      PullAgainReady(rows, conn, events, times - 1);
      RowOutcome(PullAgain(rows, conn, events, times - 1), conn, events, {}, k);
    }
  }

  lemma {:induction false} AbsentStaysFree(rows: Rows, conn: Connection, events: seq<Event>, k: Key, times: nat)
    requires Ready(rows, conn) && DistinctUids(events) && events != [] && times >= 1
    requires k in rows && k.Imported? && k.conn == conn.id && k.uid !in Uids(events) && rows[k].status == Confirmed
    ensures k in PullAgain(rows, conn, events, times) && PullAgain(rows, conn, events, times)[k].status == Cancelled
  {
    if times > 1 {
      AbsentStaysFree(rows, conn, events, k, times - 1);
    }
    PullAgainReady(rows, conn, events, times - 1);
    RowOutcome(PullAgain(rows, conn, events, times - 1), conn, events, {}, k);
  }

  /** An event a pull leaves unlanded keeps the row it had. */
  lemma UnlandedKeepsRow(rows: Rows, conn: Connection, events: seq<Event>, e: Event)
    requires Ready(rows, conn) && DistinctUids(events) && e in events
    requires !Landed(PullRows(rows, conn, events, {}), conn, e)
    ensures !Landed(rows, conn, e) && SameRow(rows, PullRows(rows, conn, events, {}), RowKey(conn, e))
  {
    hide PullRows, Landed, Lands, Ready;
    var i :| 0 <= i < |events| && events[i] == e;
    EventOutcome(rows, conn, events, {}, i);
    if Landed(rows, conn, e) {
      LandedForGood(rows, conn, events, e);
    }
  }

  /** A row of the feed changes only by landing. */
  lemma {:induction false} UnlandedStays(rows: Rows, conn: Connection, events: seq<Event>, e: Event, times: nat)
    requires Ready(rows, conn) && DistinctUids(events) && events != [] && e in events
    requires !Landed(PullAgain(rows, conn, events, times), conn, e)
    ensures SameRow(rows, PullAgain(rows, conn, events, times), RowKey(conn, e))
  {
    if times > 0 {
      var before := PullAgain(rows, conn, events, times - 1);
      PullAgainReady(rows, conn, events, times - 1);
      UnlandedKeepsRow(before, conn, events, e);
      UnlandedStays(rows, conn, events, e, times - 1);
    }
  }

  /** A row the feed does not offer never appears. */
  lemma {:induction false} NothingNewOutside(rows: Rows, conn: Connection, events: seq<Event>, k: Key, times: nat)
    requires Ready(rows, conn) && DistinctUids(events) && events != []
    requires k !in rows && !Offered(conn, events, k)
    ensures k !in PullAgain(rows, conn, events, times)
  {
    if times > 0 {
      NothingNewOutside(rows, conn, events, k, times - 1);
      PullAgainReady(rows, conn, events, times - 1);
      RowOutcome(PullAgain(rows, conn, events, times - 1), conn, events, {}, k);
    }
  }

  // ---- Sufficient -----------------------------------------------------------------------------------

  /** In a settled table an event that has not landed is refused. */
  lemma SettledRefuses(rows: Rows, conn: Connection, events: seq<Event>, e: Event)
    requires Ready(rows, conn) && DistinctUids(events) && events != [] && Settled(rows, conn, events)
    requires e in events && !Landed(rows, conn, e)
    ensures Clashes(rows, conn, e)
  {
    var i :| 0 <= i < |events| && events[i] == e;
    NoLandingNoChange(rows, conn, events, i);
    EventOutcome(rows, conn, events, {}, i);
  }

  /** What still refuses an event after n + 1 pulls is another event that never landed. */
  lemma BlockerIsUnlanded(rows: Rows, conn: Connection, events: seq<Event>, settled: Rows, e: Event) returns (f: string)
    requires Ready(rows, conn) && DistinctUids(events) && events != []
    requires FeedDisjoint(events) && ClearOutside(rows, conn, events)
    requires settled == PullAgain(rows, conn, events, |events| + 1)
    requires e in events && !Landed(settled, conn, e)
    ensures f != e.uid && exists d :: d in events && d.uid == f && !Landed(settled, conn, d)
    ensures InTheWay(rows, conn, Imported(conn.id, f), e)
  {
    hide PullAgain, Settled, DistinctUids, Consistent, ValidRows, Clashes, ClearOutside;
    PullAgainReady(rows, conn, events, |events| + 1);
    DistinctIsConsistent(events);
    ReachesFixpoint(rows, conn, events);
    SettledRefuses(settled, conn, events, e);
    ClashMeansInTheWay(settled, conn, e);
    var k :| k in settled && k != RowKey(conn, e) && InTheWay(settled, conn, k, e);
    if !Offered(conn, events, k) {
      BlockerNotOutside(rows, conn, events, settled, e, k);
      assert false;
    }
    f := k.uid;
    var d :| d in events && d.uid == f;
    if Landed(settled, conn, d) {
      assert false;
    }
    UnlandedStays(rows, conn, events, d, |events| + 1);
  }

  lemma BlockerNotOutside(rows: Rows, conn: Connection, events: seq<Event>, settled: Rows, e: Event, k: Key)
    requires Ready(rows, conn) && DistinctUids(events) && events != [] && ClearOutside(rows, conn, events)
    requires settled == PullAgain(rows, conn, events, |events| + 1)
    requires e in events && !Offered(conn, events, k)
    ensures !InTheWay(settled, conn, k, e)
  {
    hide PullAgain, Ready, DistinctUids;
    if k !in rows {
      NothingNewOutside(rows, conn, events, k, |events| + 1);
    } else if Outside(rows, conn, events, k) {
      OutsideStays(rows, conn, events, k, |events| + 1);
    } else {
      AbsentStaysFree(rows, conn, events, k, |events| + 1);
    }
  }

  lemma UnlandedIsDeadlocked(rows: Rows, conn: Connection, events: seq<Event>)
    requires Ready(rows, conn) && DistinctUids(events) && events != []
    requires FeedDisjoint(events) && ClearOutside(rows, conn, events)
    requires !AllLanded(PullAgain(rows, conn, events, |events| + 1), conn, events)
    ensures exists s :: Deadlocked(rows, conn, events, s)
  {
    var settled := PullAgain(rows, conn, events, |events| + 1);
    var s := set e | e in events && !Landed(settled, conn, e) :: e.uid;
    var w :| w in events && !Landed(settled, conn, w);
    assert w.uid in s;
    forall e | e in events && e.uid in s
      ensures Waits(rows, conn, s, e)
    {
      var f := BlockerIsUnlanded(rows, conn, events, settled, e);
    }
    assert Deadlocked(rows, conn, events, s);
  }

  // ---- Necessary ------------------------------------------------------------------------------------

  /** The rows of a deadlocked set are as they were after any number of events and pulls. */
  ghost predicate Untouched(before: Rows, after: Rows, conn: Connection, s: set<string>) {
    forall u | u in s :: SameRow(before, after, Imported(conn.id, u))
  }

  lemma {:induction false} DeadlockSurvivesEvents(start: Rows, rows: Rows, conn: Connection, events: seq<Event>,
                                                 s: set<string>, i: nat)
    requires Ready(rows, conn) && i <= |events|
    requires Deadlocked(start, conn, events, s) && Untouched(start, rows, conn, s)
    ensures Untouched(start, RowsAfter(rows, conn, events, {}, i), conn, s)
  {
    if i > 0 {
      hide Deadlocked, Untouched, Ready, Clashes, Upsert;
      DeadlockSurvivesEvents(start, rows, conn, events, s, i - 1);
      var before := RowsAfter(rows, conn, events, {}, i - 1);
      RowsAfterReady(rows, conn, events, {}, i - 1);
      if events[i - 1].uid in s {
        DeadlockedClash(start, before, conn, events, s, events[i - 1]);
      } else {
        UpsertLeavesOthers(start, before, conn, s, events[i - 1]);
      }
    }
  }

  /** While the set is as it was, its events clash. */
  lemma DeadlockedClash(start: Rows, before: Rows, conn: Connection, events: seq<Event>, s: set<string>, e: Event)
    requires Ready(before, conn) && Deadlocked(start, conn, events, s) && Untouched(start, before, conn, s)
    requires e in events && e.uid in s
    ensures Clashes(before, conn, e)
  {
    assert Waits(start, conn, s, e);
    var f :| f in s && f != e.uid && InTheWay(start, conn, Imported(conn.id, f), e);
    hide Deadlocked, Clashes;
    assert SameRow(start, before, Imported(conn.id, f));
    assert InTheWay(before, conn, Imported(conn.id, f), e);
    ClashMeansInTheWay(before, conn, e);
  }

  lemma UpsertLeavesOthers(start: Rows, before: Rows, conn: Connection, s: set<string>, e: Event)
    requires Untouched(start, before, conn, s) && e.uid !in s
    ensures Untouched(start, Upsert(before, conn, e), conn, s)
  {
    forall u | u in s
      ensures SameRow(start, Upsert(before, conn, e), Imported(conn.id, u))
    {
      assert SameRow(start, before, Imported(conn.id, u));
    }
  }

  lemma {:induction false} DeadlockSurvives(rows: Rows, conn: Connection, events: seq<Event>, s: set<string>,
                                            times: nat)
    requires Ready(rows, conn) && Deadlocked(rows, conn, events, s)
    ensures Untouched(rows, PullAgain(rows, conn, events, times), conn, s)
  {
    if times > 0 {
      DeadlockSurvives(rows, conn, events, s, times - 1);
      var before := PullAgain(rows, conn, events, times - 1);
      PullAgainReady(rows, conn, events, times - 1);
      DeadlockSurvivesEvents(rows, before, conn, events, s, |events|);
    }
  }

  /** No event of a deadlocked set ever lands. */
  lemma DeadlockNeverLands(rows: Rows, conn: Connection, events: seq<Event>, s: set<string>, e: Event, times: nat)
    requires Ready(rows, conn) && Deadlocked(rows, conn, events, s) && e in events && e.uid in s
    ensures !Landed(PullAgain(rows, conn, events, times), conn, e)
  {
    DeadlockSurvives(rows, conn, events, s, times);
    var key := RowKey(conn, e);
    assert SameRow(rows, PullAgain(rows, conn, events, times), key);
    assert Waits(rows, conn, s, e);
    var f :| f in s && f != e.uid && InTheWay(rows, conn, Imported(conn.id, f), e);
    assert key in rows ==> !Occupying(rows[key]) || !Blocks(rows, Imported(conn.id, f), rows[key]);
  }

  lemma LandedFeedIsDisjoint(rows: Rows, conn: Connection, events: seq<Event>)
    requires Ready(rows, conn) && AllLanded(rows, conn, events)
    ensures FeedDisjoint(events)
  {
    forall e, f | e in events && f in events && e.uid != f.uid
      ensures !(e.start < f.end && f.start < e.end)
    {
      assert Landed(rows, conn, e) && Landed(rows, conn, f);
      assert !Blocks(rows, RowKey(conn, e), rows[RowKey(conn, f)]);
    }
  }

  lemma LandedFeedIsClear(rows: Rows, conn: Connection, events: seq<Event>, times: nat)
    requires Ready(rows, conn) && DistinctUids(events) && events != []
    requires AllLanded(PullAgain(rows, conn, events, times), conn, events)
    ensures ClearOutside(rows, conn, events)
  {
    var after := PullAgain(rows, conn, events, times);
    PullAgainReady(rows, conn, events, times);
    forall e, k | e in events && Outside(rows, conn, events, k)
      ensures !InTheWay(rows, conn, k, e)
    {
      OutsideStays(rows, conn, events, k, times);
      assert Landed(after, conn, e);
      assert e.uid in Uids(events);
      assert !Blocks(after, k, after[RowKey(conn, e)]);
    }
  }

  /**
   * The import mirrors the whole feed exactly when no two events share a night, no row the feed cannot
   * move is in the way, and no set of UIDs is deadlocked in the table the first pull starts from.
   */
  lemma MirrorsFeedIff(rows: Rows, conn: Connection, events: seq<Event>)
    requires Ready(rows, conn) && DistinctUids(events) && events != []
    ensures AllLanded(PullAgain(rows, conn, events, |events| + 1), conn, events)
            <==>
            && FeedDisjoint(events)
            && ClearOutside(rows, conn, events)
            && !exists s :: Deadlocked(rows, conn, events, s)
  {
    hide *;
    var n := |events| + 1;
    var settled := PullAgain(rows, conn, events, n);
    if AllLanded(settled, conn, events) {
      PullAgainReady(rows, conn, events, n);
      LandedFeedIsDisjoint(settled, conn, events);
      LandedFeedIsClear(rows, conn, events, n);
      forall s | Deadlocked(rows, conn, events, s)
        ensures false
      {
        var e := DeadlockMember(rows, conn, events, s);
        DeadlockNeverLands(rows, conn, events, s, e, n);
        LandedMember(settled, conn, events, e);
      }
    } else if FeedDisjoint(events) && ClearOutside(rows, conn, events) {
      UnlandedIsDeadlocked(rows, conn, events);
    }
  }

  lemma DeadlockMember(rows: Rows, conn: Connection, events: seq<Event>, s: set<string>) returns (e: Event)
    requires Deadlocked(rows, conn, events, s)
    ensures e in events && e.uid in s
  {
    var u :| u in s;
    assert u in Uids(events);
    e :| e in events && e.uid == u;
  }

  lemma LandedMember(rows: Rows, conn: Connection, events: seq<Event>, e: Event)
    requires AllLanded(rows, conn, events) && e in events
    ensures Landed(rows, conn, e)
  {
  }

  /** Two UIDs that swap their nights are the smallest deadlock: neither ever lands. */
  lemma SwapNeverLands(conn: Connection, times: nat)
    ensures var a: Event := Raw("a", 0, 2);
            var b: Event := Raw("b", 2, 4);
            var rows: Rows := map[
              Imported(conn.id, "a") := Booking(conn.tenant, conn.unit, conn.channel, Confirmed, 2, 4, None, None),
              Imported(conn.id, "b") := Booking(conn.tenant, conn.unit, conn.channel, Confirmed, 0, 2, None, None)];
            && Ready(rows, conn)
            && !Landed(PullAgain(rows, conn, [a, b], times), conn, a)
            && !Landed(PullAgain(rows, conn, [a, b], times), conn, b)
  {
    var a: Event := Raw("a", 0, 2);
    var b: Event := Raw("b", 2, 4);
    var rows: Rows := map[
      Imported(conn.id, "a") := Booking(conn.tenant, conn.unit, conn.channel, Confirmed, 2, 4, None, None),
      Imported(conn.id, "b") := Booking(conn.tenant, conn.unit, conn.channel, Confirmed, 0, 2, None, None)];
    var events := [a, b];
    var s := {"a", "b"};
    assert a in events && b in events;
    assert Deadlocked(rows, conn, events, s) by {
      assert InTheWay(rows, conn, Imported(conn.id, "b"), a);
      assert InTheWay(rows, conn, Imported(conn.id, "a"), b);
    }
    DeadlockNeverLands(rows, conn, events, s, a, times);
    DeadlockNeverLands(rows, conn, events, s, b, times);
  }
}
