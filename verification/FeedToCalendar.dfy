/**
 * From one calendar's export to another's booking table: printing, transport, parsing and reconciling together.
 */
module FeedToCalendar {
  import opened Options
  import Bookings
  import Calendar
  import IcalExport
  import IcalParse
  import IcalRoundTrip
  import IcalTheorems
  import IcalSoundness
  import Text
  import R = Reconcile
  import Convergence

  /** The dates the database can store: they exist, and no year 0000. */
  predicate Storable(e: IcalExport.Event) {
    IcalRoundTrip.ValidDates(e) && Calendar.ReadIso(e.start).year >= 1 && Calendar.ReadIso(e.end).year >= 1
  }

  /** A parsed event as the stay it asks for; one without real dates never gets as far as its stay. */
  function Stay(e: IcalExport.Event): R.Event {
    if IcalRoundTrip.ValidDates(e) then
      Calendar.TextOrderIsDayOrder(e.start, e.end);
      R.Raw(e.uid, Calendar.DayOf(e.start), Calendar.DayOf(e.end))
    else R.Raw(e.uid, 0, 1)
  }

  function Stays(events: seq<IcalExport.Event>): (stays: seq<R.Event>)
    ensures |stays| == |events|
    ensures forall i | 0 <= i < |events| :: stays[i] == Stay(events[i])
  {
    if events == [] then [] else [Stay(events[0])] + Stays(events[1..])
  }

  /** The positions whose upsert the database refuses for its dates. */
  function Unstorable(events: seq<IcalExport.Event>): set<nat> {
    set i | 0 <= i < |events| && !Storable(events[i])
  }

  /** The database refuses exactly the dates that do not exist, are out of order or lie in the year 0000. */
  lemma UnstorableIff(events: seq<IcalExport.Event>, i: nat)
    ensures i in Unstorable(events) <==>
            && i < |events|
            && !(var e := events[i];
                 && Calendar.RealIso(e.start) && Calendar.RealIso(e.end) && Calendar.Less(e.start, e.end)
                 && e.start[..4] != "0000" && e.end[..4] != "0000")
  {
    hide Calendar.Less;
    if i < |events| && IcalRoundTrip.ValidDates(events[i]) {
      YearZero(events[i].start);
      YearZero(events[i].end);
    }
  }

  lemma YearZero(iso: string)
    requires Calendar.IsoShape(iso)
    ensures Calendar.ReadIso(iso).year == 0 <==> iso[..4] == "0000"
  {
    Calendar.DigitsOrder(iso[..4], "0000");
    assert "0000" == Calendar.Pad(0, 4);
    Calendar.PadNum(0, 4);
    assert Calendar.Pow10(4) == 10000;
  }

  /** A body of dates the database can store is pulled whole: every event gets its turn, unless its own query fails. */
  lemma StorableBodyIsPulled(rows: Bookings.Rows, conn: R.Connection, body: string, zone: IcalParse.Zone,
                             faulted: set<nat>)
    requires IcalParse.Parse(body, Some(zone)).Parsed?
    requires forall e | e in IcalParse.Parse(body, Some(zone)).events :: Storable(e)
    ensures PullBody(rows, conn, body, Some(zone), faulted)
         == R.PullRows(rows, conn, Stays(IcalParse.Parse(body, Some(zone)).events), faulted)
  {
    hide IcalParse.Parse, R.PullRows, Storable;
    var events := IcalParse.Parse(body, Some(zone)).events;
    assert faulted + Unstorable(events) == faulted;
  }

  /** What pulling any body does to the booking table: a body that does not parse changes nothing. */
  function PullBody(rows: Bookings.Rows, conn: R.Connection, body: string, zone: Option<IcalParse.Zone>,
                    faulted: set<nat>): Bookings.Rows
  {
    match IcalParse.Parse(body, zone)
    case Parsed(events, _) => R.PullRows(rows, conn, Stays(events), faulted + Unstorable(events))
    case _ => rows
  }

  // ---- Any body ---------------------------------------------------------------------------------------

  /** No body at all, truncated, hostile or foreign, ever sells a night twice. */
  lemma AnyBodyKeepsReady(rows: Bookings.Rows, conn: R.Connection, body: string, zone: Option<IcalParse.Zone>,
                          faulted: set<nat>)
    requires Convergence.Ready(rows, conn)
    ensures Convergence.Ready(PullBody(rows, conn, body, zone, faulted), conn)
  {
    hide IcalParse.Parse, R.PullRows, Convergence.Ready;
    match IcalParse.Parse(body, zone)
    case Parsed(events, _) =>
      Convergence.PullKeepsReady(rows, conn, Stays(events), faulted + Unstorable(events));
    case _ =>
  }

  /** Nor touches a direct booking, a block or another connection's row. */
  lemma AnyBodyKeepsToItsRows(rows: Bookings.Rows, conn: R.Connection, body: string, zone: Option<IcalParse.Zone>,
                              faulted: set<nat>, key: Bookings.Key)
    requires Convergence.Belongs(rows, conn) && !(key.Imported? && key.conn == conn.id)
    ensures Convergence.SameRow(rows, PullBody(rows, conn, body, zone, faulted), key)
  {
    hide IcalParse.Parse, R.PullRows;
    match IcalParse.Parse(body, zone)
    case Parsed(events, _) =>
      if events == [] {
        EmptyPull(rows, conn, Stays(events), faulted + Unstorable(events));
      } else {
        Convergence.RowOutcome(rows, conn, Stays(events), faulted + Unstorable(events), key);
      }
    case _ =>
  }

  /**
   * Event i of any accepted body with distinct UIDs: if it landed, the database could store its dates and it is
   * confirmed on them; if not, its UID keeps the row it had.
   */
  lemma AnyBodyEvent(rows: Bookings.Rows, conn: R.Connection, body: string, zone: IcalParse.Zone, faulted: set<nat>,
                     i: nat)
    requires IcalParse.Parse(body, Some(zone)).Parsed?
    requires var events := IcalParse.Parse(body, Some(zone)).events;
             i < |events| && forall m, n | 0 <= m < n < |events| :: events[m].uid != events[n].uid
    ensures var e := IcalParse.Parse(body, Some(zone)).events[i];
            var key := Bookings.Imported(conn.id, e.uid);
            var after := PullBody(rows, conn, body, Some(zone), faulted);
            var events := IcalParse.Parse(body, Some(zone)).events;
            if R.Lands(rows, conn, Stays(events), faulted + Unstorable(events), i) then
              && Storable(e) && i !in faulted && key in after && after[key].status == Bookings.Confirmed
              && after[key].checkIn == Calendar.DayOf(e.start) && after[key].checkOut == Calendar.DayOf(e.end)
            else Convergence.SameRow(rows, after, key)
  {
    hide IcalParse.Parse, R.PullRows, Calendar.RealIso, Calendar.Less;
    var events := IcalParse.Parse(body, Some(zone)).events;
    var stays := Stays(events);
    StaysDistinct(events);
    assert stays[i] == Stay(events[i]);
    Convergence.EventOutcome(rows, conn, stays, faulted + Unstorable(events), i);
    assert !Storable(events[i]) ==> i in faulted + Unstorable(events);
  }

  /**
   * The database can store every accepted event of a body without a fake leap day, unless its years are 0000: the
   * only dates the parser accepts and the database does not.
   */
  lemma AcceptedIsStorableIff(body: string, zone: IcalParse.Zone, e: IcalExport.Event)
    requires IcalParse.Parse(body, Some(zone)).Parsed? && e in IcalParse.Parse(body, Some(zone)).events
    requires IcalSoundness.NoFakeLeapDays(body, zone)
    ensures IcalRoundTrip.ValidDates(e)
    ensures Storable(e) <==> Calendar.ReadIso(e.start).year >= 1 && Calendar.ReadIso(e.end).year >= 1
  {
    hide IcalParse.Parse, Calendar.RealIso, Calendar.Less, IcalSoundness.NoFakeLeapDays;
    IcalSoundness.AcceptedEventsAreReal(body, zone, e);
  }

  // ---- An exported body, cut anywhere -------------------------------------------------------------------

  ghost predicate Exportable(events: seq<IcalExport.Event>) {
    IcalTheorems.AllValid(events) && forall i | 0 <= i < |events| :: IcalTheorems.CleanUid(events[i].uid)
  }

  function Export(prodId: string, stamp: string, events: seq<IcalExport.Event>): string
    requires IcalExport.AllPrintable(events)
  {
    IcalExport.Body(IcalExport.CalendarLines(prodId, stamp, events))
  }

  lemma WholeFeed(prodId: string, stamp: string, events: seq<IcalExport.Event>, zone: IcalParse.Zone)
    requires Exportable(events) && Text.NoBreaks(stamp)
    ensures IcalExport.AllPrintable(events)
    ensures IcalParse.Parse(Export(prodId, stamp, events), Some(zone)) == IcalParse.Parsed(events, [])
  {
    hide IcalParse.Parse, IcalExport.Body, IcalExport.CalendarLines, IcalTheorems.AllValid, IcalTheorems.CleanUid;
    IcalTheorems.RoundTripIff(prodId, stamp, events, zone);
  }

  /** A feed cut off anywhere on its way reconciles as nothing at all or as the whole feed. */
  lemma CutFeedIsAllOrNothing(prodId: string, stamp: string, events: seq<IcalExport.Event>, zone: IcalParse.Zone,
                              k: nat, rows: Bookings.Rows, conn: R.Connection, faulted: set<nat>)
    requires Exportable(events) && Text.NoBreaks(stamp) && IcalExport.AllPrintable(events)
    requires k <= |Export(prodId, stamp, events)|
    ensures PullBody(rows, conn, Export(prodId, stamp, events)[..k], Some(zone), faulted) ==
            if k + 2 < |Export(prodId, stamp, events)| then rows
            else R.PullRows(rows, conn, Stays(events), faulted + Unstorable(events))
  {
    hide IcalParse.Parse, IcalExport.Body, IcalExport.CalendarLines, R.PullRows, IcalTheorems.CleanUid;
    WholeFeed(prodId, stamp, events, zone);
    IcalTheorems.TruncationSafe(prodId, stamp, events, k, zone);
  }

  lemma StaysDistinct(events: seq<IcalExport.Event>)
    requires forall i, j | 0 <= i < j < |events| :: events[i].uid != events[j].uid
    ensures Convergence.DistinctUids(Stays(events))
  {
  }

  /** So no cut of a feed ever cancels a booking the whole feed still offers. */
  lemma CutFeedCancelsNothingOffered(prodId: string, stamp: string, events: seq<IcalExport.Event>, zone: IcalParse.Zone,
                                     k: nat, rows: Bookings.Rows, conn: R.Connection, faulted: set<nat>, i: nat)
    requires Exportable(events) && Text.NoBreaks(stamp) && IcalExport.AllPrintable(events)
    requires forall m, n | 0 <= m < n < |events| :: events[m].uid != events[n].uid
    requires k <= |Export(prodId, stamp, events)| && i < |events|
    requires var key := Bookings.Imported(conn.id, events[i].uid); key in rows && rows[key].status == Bookings.Confirmed
    ensures var key := Bookings.Imported(conn.id, events[i].uid);
            var after := PullBody(rows, conn, Export(prodId, stamp, events)[..k], Some(zone), faulted);
            key in after && after[key].status == Bookings.Confirmed
  {
    hide PullBody, Export, IcalTheorems.CleanUid, IcalRoundTrip.ValidDates, R.PullRows, Storable;
    CutFeedIsAllOrNothing(prodId, stamp, events, zone, k, rows, conn, faulted);
    var stays := Stays(events);
    StaysDistinct(events);
    assert stays[i] == Stay(events[i]);
    Convergence.EventOutcome(rows, conn, stays, faulted + Unstorable(events), i);
  }

  lemma EmptyPull(rows: Bookings.Rows, conn: R.Connection, stays: seq<R.Event>, faulted: set<nat>)
    requires stays == []
    ensures R.PullRows(rows, conn, stays, faulted) == rows
  {
  }
}
