/**
 * A feed of n events that needs all n + 1 pulls, for every n: each event wants the night the next UID still holds,
 * and the last one wants the night of a booking the feed has dropped.
 */
module WorstCase {
  import opened Options
  import opened Bookings
  import opened Reconcile
  import opened Convergence

  /** n different UIDs, told apart by their length. */
  function Name(i: nat): (s: string)
    ensures |s| == i
  {
    seq(i, _ => 'a')
  }

  function ChainEvent(i: nat): Event {
    Raw(Name(i), i + 1, i + 2)
  }

  function Chain(n: nat): (events: seq<Event>)
    ensures |events| == n && forall i | 0 <= i < n :: events[i] == ChainEvent(i)
  {
    seq(n, i requires 0 <= i < n => ChainEvent(i))
  }

  function Night(conn: Connection, night: nat, status: Status): Booking {
    Booking(conn.tenant, conn.unit, conn.channel, status, night, night + 1, None, None)
  }

  /** UID i of n while the first m have not moved; UID n is the dropped booking. */
  function ChainRow(conn: Connection, n: nat, m: nat, dropped: Status, i: nat): Booking {
    if i == n then Night(conn, n, dropped)
    else if i < m then Night(conn, i, Confirmed)
    else Night(conn, i + 1, Confirmed)
  }

  function ChainRows(conn: Connection, n: nat, m: nat, dropped: Status): (rows: Rows)
    ensures forall i | 0 <= i <= n ::
              Imported(conn.id, Name(i)) in rows && rows[Imported(conn.id, Name(i))] == ChainRow(conn, n, m, dropped, i)
    ensures forall k | k in rows :: exists i | 0 <= i <= n :: k == Imported(conn.id, Name(i))
  {
    map i | 0 <= i <= n :: Imported(conn.id, Name(i)) := ChainRow(conn, n, m, dropped, i)
  }

  /** Where each row of the table comes from. */
  lemma ChainKey(conn: Connection, n: nat, m: nat, dropped: Status, k: Key) returns (i: nat)
    requires k in ChainRows(conn, n, m, dropped)
    ensures i <= n && k == Imported(conn.id, Name(i))
    ensures ChainRows(conn, n, m, dropped)[k] == ChainRow(conn, n, m, dropped, i)
  {
    i :| 0 <= i <= n && k == Imported(conn.id, Name(i));
  }

  /** Two such tables with the same row for every UID are the same. */
  lemma SameChain(conn: Connection, n: nat, m: nat, dropped: Status, rows: Rows)
    requires rows.Keys == ChainRows(conn, n, m, dropped).Keys
    requires forall i | 0 <= i <= n ::
               && Imported(conn.id, Name(i)) in rows
               && rows[Imported(conn.id, Name(i))] == ChainRow(conn, n, m, dropped, i)
    ensures rows == ChainRows(conn, n, m, dropped)
  {
    forall k | k in rows
      ensures rows[k] == ChainRows(conn, n, m, dropped)[k]
    {
      var i := ChainKey(conn, n, m, dropped, k);
    }
  }

  lemma ChainReady(conn: Connection, n: nat, m: nat, dropped: Status)
    requires m == n || dropped == Cancelled
    ensures Ready(ChainRows(conn, n, m, dropped), conn)
  {
    var rows := ChainRows(conn, n, m, dropped);
    hide ChainRows, Blocks, Occupying;
    forall k | k in rows
      ensures rows[k].checkIn < rows[k].checkOut && rows[k].unit == conn.unit && rows[k].tenant == conn.tenant
    {
      var i := ChainKey(conn, n, m, dropped, k);
    }
    forall k, j | k in rows && j in rows && k != j && Occupying(rows[j])
      ensures !Blocks(rows, k, rows[j])
    {
      var a := ChainKey(conn, n, m, dropped, k);
      var b := ChainKey(conn, n, m, dropped, j);
      ChainApart(conn, n, m, dropped, a, b);
      NoBlock(rows, k, rows[j]);
    }
  }

  /** Two UIDs that both occupy a night occupy different ones. */
  lemma ChainApart(conn: Connection, n: nat, m: nat, dropped: Status, a: nat, b: nat)
    requires (m == n || dropped == Cancelled) && a <= n && b <= n && a != b
    ensures var x, y := ChainRow(conn, n, m, dropped, a), ChainRow(conn, n, m, dropped, b);
            Occupying(x) && Occupying(y) ==> !RangesOverlap(x, y)
  {
  }

  lemma NoBlock(rows: Rows, k: Key, b: Booking)
    requires k in rows && (Occupying(rows[k]) ==> !RangesOverlap(rows[k], b))
    ensures !Blocks(rows, k, b)
  {
  }

  /** The next UID holds the night that event i wants. */
  lemma ChainRefuses(conn: Connection, n: nat, m: nat, dropped: Status, i: nat)
    requires i < n && m <= n && (i + 1 < m || (i + 1 == n && dropped == Confirmed))
    ensures Clashes(ChainRows(conn, n, m, dropped), conn, ChainEvent(i))
  {
    var rows := ChainRows(conn, n, m, dropped);
    assert |Name(i)| != |Name(i + 1)|;
    assert Blocks(rows, Imported(conn.id, Name(i + 1)), Landing(rows, conn, ChainEvent(i)));
  }

  /** The last of the unmoved UIDs finds its night free. */
  lemma ChainAccepts(conn: Connection, n: nat, m: nat)
    requires 1 <= m <= n
    ensures !Clashes(ChainRows(conn, n, m, Cancelled), conn, ChainEvent(m - 1))
  {
    var rows := ChainRows(conn, n, m, Cancelled);
    var e := ChainEvent(m - 1);
    var b := Landing(rows, conn, e);
    assert b == Night(conn, m, Confirmed);
    hide ChainRows, Landing, ChainEvent;
    forall k | k in rows && k != RowKey(conn, e)
      ensures !Blocks(rows, k, b)
    {
      var i := ChainKey(conn, n, m, Cancelled, k);
      EventKey(conn, m - 1);
    }
  }

  lemma EventKey(conn: Connection, i: nat)
    ensures RowKey(conn, ChainEvent(i)) == Imported(conn.id, Name(i))
  {
  }

  /** And there it goes. */
  lemma ChainMoves(conn: Connection, n: nat, m: nat)
    requires 1 <= m <= n
    ensures Upsert(ChainRows(conn, n, m, Cancelled), conn, ChainEvent(m - 1)) == ChainRows(conn, n, m - 1, Cancelled)
  {
    ChainUpsert(conn, n, m);
    SameKeys(conn, n, m, m - 1, Cancelled, Cancelled);
    var after := ChainRows(conn, n, m, Cancelled)[Imported(conn.id, Name(m - 1)) := Night(conn, m, Confirmed)];
    ChainMoved(conn, n, m, after);
  }

  lemma ChainMoved(conn: Connection, n: nat, m: nat, after: Rows)
    requires 1 <= m <= n && ChainRows(conn, n, m, Cancelled).Keys == ChainRows(conn, n, m - 1, Cancelled).Keys
    requires after == ChainRows(conn, n, m, Cancelled)[Imported(conn.id, Name(m - 1)) := Night(conn, m, Confirmed)]
    ensures after == ChainRows(conn, n, m - 1, Cancelled)
  {
    hide ChainRows, Night;
    forall i | 0 <= i <= n
      ensures Imported(conn.id, Name(i)) in after
      ensures after[Imported(conn.id, Name(i))] == ChainRow(conn, n, m - 1, Cancelled, i)
    {
      NamesDiffer(i, m - 1);
    }
    SameChain(conn, n, m - 1, Cancelled, after);
  }

  lemma NamesDiffer(i: nat, j: nat)
    ensures Name(i) == Name(j) <==> i == j
  {
    assert |Name(i)| == i && |Name(j)| == j;
  }

  lemma ChainUpsert(conn: Connection, n: nat, m: nat)
    requires 1 <= m <= n
    ensures var rows := ChainRows(conn, n, m, Cancelled);
            Upsert(rows, conn, ChainEvent(m - 1)) == rows[Imported(conn.id, Name(m - 1)) := Night(conn, m, Confirmed)]
  {
    var rows := ChainRows(conn, n, m, Cancelled);
    assert rows[Imported(conn.id, Name(m - 1))] == Night(conn, m - 1, Confirmed);
    hide ChainRows;
  }

  lemma SameKeys(conn: Connection, n: nat, m: nat, l: nat, a: Status, b: Status)
    ensures ChainRows(conn, n, m, a).Keys == ChainRows(conn, n, l, b).Keys
  {
  }

  lemma ChainLanded(conn: Connection, n: nat, m: nat, i: nat)
    requires m <= i < n
    ensures Landed(ChainRows(conn, n, m, Cancelled), conn, ChainEvent(i))
  {
  }

  /** A UID that has moved stays where it is. */
  lemma ChainStays(conn: Connection, n: nat, m: nat, i: nat)
    requires m <= i < n
    ensures var rows := ChainRows(conn, n, m, Cancelled);
            !Clashes(rows, conn, ChainEvent(i)) && Upsert(rows, conn, ChainEvent(i)) == rows
  {
    ChainReady(conn, n, m, Cancelled);
    ChainLanded(conn, n, m, i);
    LandedIsStable(ChainRows(conn, n, m, Cancelled), conn, ChainEvent(i));
  }

  /** The first pull stores nothing. */
  lemma {:induction false} FirstStores(conn: Connection, n: nat, i: nat)
    requires i <= n
    ensures RowsAfter(ChainRows(conn, n, n, Confirmed), conn, Chain(n), {}, i) == ChainRows(conn, n, n, Confirmed)
  {
    hide ChainRows, Chain, Clashes;
    if i > 0 {
      FirstStores(conn, n, i - 1);
      ChainRefuses(conn, n, n, Confirmed, i - 1);
    }
  }

  /** A later pull moves exactly one UID: the last that has not moved. */
  lemma {:induction false} LaterStores(conn: Connection, n: nat, m: nat, i: nat)
    requires 1 <= m <= n && i <= n
    ensures RowsAfter(ChainRows(conn, n, m, Cancelled), conn, Chain(n), {}, i)
         == ChainRows(conn, n, if i < m then m else m - 1, Cancelled)
  {
    hide ChainRows, Chain, Clashes, Upsert, ChainEvent;
    if i > 0 {
      LaterStores(conn, n, m, i - 1);
      assert Chain(n)[i - 1] == ChainEvent(i - 1);
      if i < m {
        ChainRefuses(conn, n, m, Cancelled, i - 1);
      } else if i == m {
        ChainAccepts(conn, n, m);
        ChainMoves(conn, n, m);
      } else {
        ChainStays(conn, n, m - 1, i - 1);
      }
    }
  }

  lemma ChainUids(n: nat, i: nat)
    ensures Name(i) in Uids(Chain(n)) <==> i < n
  {
    if i < n {
      assert Chain(n)[i] in Chain(n);
    }
    if e :| e in Chain(n) && e.uid == Name(i) {
      var j :| 0 <= j < n && Chain(n)[j] == e;
    }
  }

  /** Every pull leaves the dropped booking cancelled and nothing else changed by that. */
  lemma ChainCancels(conn: Connection, n: nat, m: nat, dropped: Status)
    requires n >= 1 && (dropped == Confirmed || dropped == Cancelled)
    ensures CancelAbsent(ChainRows(conn, n, m, dropped), conn, Chain(n)) == ChainRows(conn, n, m, Cancelled)
  {
    hide Uids, Chain;
    var rows := ChainRows(conn, n, m, dropped);
    var after := CancelAbsent(rows, conn, Chain(n));
    forall i | 0 <= i <= n
      ensures Imported(conn.id, Name(i)) in after
      ensures after[Imported(conn.id, Name(i))] == ChainRow(conn, n, m, Cancelled, i)
    {
      ChainUids(n, i);
    }
    SameKeys(conn, n, m, m, dropped, Cancelled);
    SameChain(conn, n, m, Cancelled, after);
  }

  /** After t pulls, all but the first n + 1 - t UIDs have moved. */
  lemma {:induction false} ChainAfter(conn: Connection, n: nat, t: nat)
    requires 1 <= t <= n + 1 && n >= 1
    ensures PullAgain(ChainRows(conn, n, n, Confirmed), conn, Chain(n), t) == ChainRows(conn, n, n + 1 - t, Cancelled)
  {
    hide ChainRows, Chain, RowsAfter, CancelAbsent;
    var start := ChainRows(conn, n, n, Confirmed);
    if t == 1 {
      assert PullAgain(start, conn, Chain(n), 0) == start;
      FirstStores(conn, n, n);
      ChainCancels(conn, n, n, Confirmed);
    } else {
      ChainAfter(conn, n, t - 1);
      LaterStores(conn, n, n + 2 - t, n);
      ChainCancels(conn, n, n + 1 - t, Cancelled);
    }
  }

  /** n + 1 pulls are needed for every n: after n of them the first event has not landed, after n + 1 all have. */
  lemma BoundIsTight(conn: Connection, n: nat)
    requires n >= 1
    ensures var rows := ChainRows(conn, n, n, Confirmed);
            var events := Chain(n);
            && |events| == n && Ready(rows, conn) && DistinctUids(events)
            && PullAgain(rows, conn, events, n + 1) != PullAgain(rows, conn, events, n)
            && !Landed(PullAgain(rows, conn, events, n), conn, events[0])
            && forall e | e in events :: Landed(PullAgain(rows, conn, events, n + 1), conn, e)
  {
    var events := Chain(n);
    hide ChainRows, PullAgain, Landed, Ready, ChainEvent;
    ChainReady(conn, n, n, Confirmed);
    ChainAfter(conn, n, n);
    ChainAfter(conn, n, n + 1);
    FirstNotLanded(conn, n);
    ChainLanded(conn, n, 0, 0);
    forall e | e in events
      ensures Landed(ChainRows(conn, n, 0, Cancelled), conn, e)
    {
      var i :| 0 <= i < n && events[i] == e;
      ChainLanded(conn, n, 0, i);
    }
    ChainDistinct(n);
  }

  lemma FirstNotLanded(conn: Connection, n: nat)
    requires n >= 1
    ensures !Landed(ChainRows(conn, n, 1, Cancelled), conn, ChainEvent(0))
  {
  }

  lemma ChainDistinct(n: nat)
    ensures DistinctUids(Chain(n))
  {
    assert forall i, j | 0 <= i < j < n :: |Chain(n)[i].uid| != |Chain(n)[j].uid|;
  }
}
