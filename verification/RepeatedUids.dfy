/**
 * A feed that repeats a UID with other nights need not settle: pulled into its own table it swings between two
 * tables for ever. Its events want, in this order, b on night 2, c on 3, a on 1, b on 3, c on 0 and a on 3.
 */
module RepeatedUids {
  import opened Options
  import opened Bookings
  import opened Reconcile
  import opened Convergence

  function At(uid: string, night: int): Event {
    Raw(uid, night, night + 1)
  }

  const FEED: seq<Event> := [At("b", 2), At("c", 3), At("a", 1), At("b", 3), At("c", 0), At("a", 3)]

  function Stay(conn: Connection, night: int): Booking {
    Booking(conn.tenant, conn.unit, conn.channel, Confirmed, night, night + 1, None, None)
  }

  /** The three UIDs on one night each. */
  function Nights(conn: Connection, a: int, b: int, c: int): Rows {
    map[Imported(conn.id, "a") := Stay(conn, a),
        Imported(conn.id, "b") := Stay(conn, b),
        Imported(conn.id, "c") := Stay(conn, c)]
  }

  /** Storing moves one UID unless another is on the night. */
  lemma StoreOne(conn: Connection, a: int, b: int, c: int, night: int)
    ensures var rows := Nights(conn, a, b, c);
            && (Clashes(rows, conn, At("a", night)) <==> night == b || night == c)
            && (Clashes(rows, conn, At("b", night)) <==> night == a || night == c)
            && (Clashes(rows, conn, At("c", night)) <==> night == a || night == b)
            && Upsert(rows, conn, At("a", night)) == Nights(conn, night, b, c)
            && Upsert(rows, conn, At("b", night)) == Nights(conn, a, night, c)
            && Upsert(rows, conn, At("c", night)) == Nights(conn, a, b, night)
  {
    var rows := Nights(conn, a, b, c);
    ClashOne(conn, rows, "a", "b", "c", night);
    ClashOne(conn, rows, "b", "a", "c", night);
    ClashOne(conn, rows, "c", "a", "b", night);
  }

  lemma ClashOne(conn: Connection, rows: Rows, uid: string, v: string, w: string, night: int)
    requires uid != v && uid != w
    requires rows.Keys == {Imported(conn.id, uid), Imported(conn.id, v), Imported(conn.id, w)}
    requires forall k | k in rows :: rows[k] == Stay(conn, rows[k].checkIn)
    ensures Clashes(rows, conn, At(uid, night)) <==>
              rows[Imported(conn.id, v)].checkIn == night || rows[Imported(conn.id, w)].checkIn == night
  {
    var b := Landing(rows, conn, At(uid, night));
    assert b == Stay(conn, night);
    if rows[Imported(conn.id, v)].checkIn == night {
      assert Blocks(rows, Imported(conn.id, v), b);
    }
    if rows[Imported(conn.id, w)].checkIn == night {
      assert Blocks(rows, Imported(conn.id, w), b);
    }
  }

  /** One event of the feed stored after another. */
  lemma NextRows(rows: Rows, conn: Connection, i: nat)
    requires i < 6
    ensures RowsAfter(rows, conn, FEED, {}, 0) == rows
    ensures var before := RowsAfter(rows, conn, FEED, {}, i);
            RowsAfter(rows, conn, FEED, {}, i + 1) ==
            if Clashes(before, conn, FEED[i]) then before else Upsert(before, conn, FEED[i])
  {
    hide Clashes, Upsert;
  }

  lemma NothingVanishes(conn: Connection, a: int, b: int, c: int)
    ensures CancelAbsent(Nights(conn, a, b, c), conn, FEED) == Nights(conn, a, b, c)
  {
    assert FEED[0].uid == "b" && FEED[1].uid == "c" && FEED[2].uid == "a";
    assert FEED[0] in FEED && FEED[1] in FEED && FEED[2] in FEED;
  }

  /** A pull of the first table gives the second. */
  lemma Forth(conn: Connection)
    ensures PullRows(Nights(conn, 3, 2, 0), conn, FEED, {}) == Nights(conn, 1, 3, 0)
  {
    hide Clashes, Upsert, Nights, RowsAfter, CancelAbsent;
    var rows := Nights(conn, 3, 2, 0);
    NextRows(rows, conn, 0);
    StoreOne(conn, 3, 2, 0, 2);
    NextRows(rows, conn, 1);
    StoreOne(conn, 3, 2, 0, 3);
    NextRows(rows, conn, 2);
    StoreOne(conn, 3, 2, 0, 1);
    NextRows(rows, conn, 3);
    StoreOne(conn, 1, 2, 0, 3);
    NextRows(rows, conn, 4);
    StoreOne(conn, 1, 3, 0, 0);
    NextRows(rows, conn, 5);
    StoreOne(conn, 1, 3, 0, 3);
    NothingVanishes(conn, 1, 3, 0);
  }

  /** And a pull of the second the first. */
  lemma Back(conn: Connection)
    ensures PullRows(Nights(conn, 1, 3, 0), conn, FEED, {}) == Nights(conn, 3, 2, 0)
  {
    hide Clashes, Upsert, Nights, RowsAfter, CancelAbsent;
    var rows := Nights(conn, 1, 3, 0);
    NextRows(rows, conn, 0);
    StoreOne(conn, 1, 3, 0, 2);
    NextRows(rows, conn, 1);
    StoreOne(conn, 1, 2, 0, 3);
    NextRows(rows, conn, 2);
    StoreOne(conn, 1, 2, 3, 1);
    NextRows(rows, conn, 3);
    StoreOne(conn, 1, 2, 3, 3);
    NextRows(rows, conn, 4);
    StoreOne(conn, 1, 2, 3, 0);
    NextRows(rows, conn, 5);
    StoreOne(conn, 1, 2, 0, 3);
    NothingVanishes(conn, 3, 2, 0);
  }

  lemma TwoTables(conn: Connection)
    ensures Ready(Nights(conn, 3, 2, 0), conn) && Nights(conn, 3, 2, 0) != Nights(conn, 1, 3, 0)
  {
    assert Nights(conn, 3, 2, 0)[Imported(conn.id, "a")] != Nights(conn, 1, 3, 0)[Imported(conn.id, "a")];
  }

  lemma RepeatsDiffer()
    ensures !Consistent(FEED)
  {
    assert FEED[0].uid == FEED[3].uid && FEED[0] != FEED[3];
  }

  /** However often it is pulled, the table is never one that the next pull leaves alone. */
  lemma {:induction false} NeverSettles(conn: Connection, times: nat)
    ensures Ready(Nights(conn, 3, 2, 0), conn) && !Consistent(FEED)
    ensures PullAgain(Nights(conn, 3, 2, 0), conn, FEED, times)
         == if times % 2 == 0 then Nights(conn, 3, 2, 0) else Nights(conn, 1, 3, 0)
    ensures !Settled(PullAgain(Nights(conn, 3, 2, 0), conn, FEED, times), conn, FEED)
  {
    hide PullRows, Nights, Ready, Consistent;
    Forth(conn);
    Back(conn);
    TwoTables(conn);
    RepeatsDiffer();
    if times > 0 {
      NeverSettles(conn, times - 1);
    }
  }
}
