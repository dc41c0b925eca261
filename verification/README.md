# Sambung: a verified model of the booking engine and channel manager

This project states, in Dafny, what Sambung's hard parts promise and proves it: the iCalendar printer and
parser, the reconciliation of imported feeds, the booking and payment ledger under concurrency, the tenant
transaction protocol, invite acceptance, pricing, interval merging, and the CSV export.

`dafny verify dfyconfig.toml` checks everything. The modules, by subject:

- **Bookings**: booking rows, the `booking_no_overlap` exclusion constraint and what it means night by night.
- **Reconcile, Convergence, WorstCase, RepeatedUids, Fixpoint, Inbox**: one feed pulled into the booking table. `Reconcile` holds the
  service (class `ChannelSync`, its savepoint-per-event loop) and the functions it is proved to compute; the
  others prove what one pull does, where repeated pulls end up and how many it takes, when that is the whole feed,
  and the life of a conflict over whole runs.
- **Text, Calendar, IcalExport, IcalParse, IcalUnfold, IcalRoundTrip, IcalTheorems, IcalOctets, IcalSoundness,
  IcalLines, IcalWire**: calendar arithmetic, the feed printer and the feed parser (sections 3.1, 3.3.4, 3.3.5 and 3.3.11 of RFC 5545).
- **FeedToCalendar**: printing, a transport that may cut the feed anywhere, parsing and reconciling, together; and what
  pulling any body at all can do.
- **Tables, Ledger, LedgerInvariant, LedgerTheorems, LedgerEvents, LedgerService, BookingService**: bookings and payments.
  `Ledger` is a machine over committed tables and open transactions with their row locks, one action per statement
  or commit, total on every state; the theorems are about every run of it. `LedgerService` and `BookingService` hold the
  imperative services, each proved to be a run of ledger steps.
- **TenantTx, TenantSteps, TenantIsolation, TenantErasure, TenantEscapes, TenantContext**: pooled connections with their statement
  queues, joined and deferred work, and the liveness flag.
- **Invites, InviteSafety, InviteTheorems, InviteService**: accounts, seats, assignments and invites, with an accept
  split into five steps around its two row locks.
- **Pricing, Ranges, Availability**: the price identity, the canonical form of blocked ranges, the quote.
- **Csv**: the reservations export, read back with the grammar of section 2 of RFC 4180.

## How the system is represented

- A table is a map from its key to its row. A constraint is a guard on the write: the exclusion constraint refuses an
  occupying row that shares a night with another occupying row of its unit; unique keys are the map keys or are checked
  by the write; foreign keys are checked by the write, and their cascades are part of the delete.
- An imported booking row is addressed by (connection, UID), the pair its partial unique index makes unique; every
  other row by its own id. Stays are half-open ranges of day numbers; module `Calendar` proves that `YYYY-MM-DD` text
  order is day-number order.
- Time is a number that only moves forward. `now()` is the time the transaction began, as in PostgreSQL, however long
  it then waits for a lock.
- A transaction is a sequence of actions; other actions may come between any two. A statement that would wait for a row
  lock leaves the state as it is, so a run in which it waits is a run in which it is tried again later. A transaction may
  be aborted between any two of its steps.
- What the environment decides is a parameter: which events of a pull fail for a reason other than the constraint,
  whether filing a conflict failed, whether a delivery crashed before or after its commit, what the gateway answers,
  which password the caller has proved to hold.
- A date that does not exist, or lies in year 0000, cannot be stored in PostgreSQL; an event that carries one fails like any
  other fault of that event.
- Characters are Unicode scalar values; where the printer counts octets, so does the model, in UTF-8.

## Where the code and its documentation differ

The model follows the code.

- The feed printer escapes TEXT and the parser does not unescape it, so a UID with a backslash, semicolon, comma or line
  break does not survive the round trip (`IcalTheorems.RoundTripIff` says exactly which do).
- Pulling a feed repeatedly reaches a fixpoint, but not necessarily the feed: UIDs that wait for each other's nights wait
  for ever (`Fixpoint.MirrorsFeedIff`, `Fixpoint.SwapNeverLands`).
- The rows listed beside a conflict are described as exactly those that caused the refusal; the UID's own older row is
  listed too when it overlaps (`Inbox.BlockersAreCausesIff`).
- "Confirmed" does not imply "paid": a settlement that follows a failure confirms the booking and leaves the payment
  failed (`LedgerEvents.SettlementAfterFailure`; exactly when, `LedgerEvents.ConfirmedUnpaidIff`).
- The parser is described as collecting fields only from the event itself; it also collects them from a component nested
  in a VEVENT, whose delimiters it does not see. Exactly when that leaves the event alone: `IcalSoundness.NestedLeavesEventIff`; an
  alarm that moves its event: `IcalRoundTrip.AlarmMovesTheEvent`.
- Unfolding in two passes loses a blank of the text where an empty line is continued after a CRLF by a line that starts with
  two blanks (`IcalWire.TwoPassesAreOneIff`).
- `toIsoDate` promises a date that exists; a UTC value on 29 February of a year before 0001 becomes one that does not
  (`IcalSoundness.AcceptedDateRealIff`, `IcalSoundness.FakeLeapDayExists`).
- `addOneDay` reads the years 0000 to 0099 as 1900 to 1999 (`Calendar.AddOneDayIff`).
- The price identity corrects a night once per override that covers it; it is the nightly sum because the table forbids
  overlapping overrides (`Pricing.TotalCorrectsEachNight`, `Pricing.OverlappingOverridesMisprice`).
- Pulling a feed that gives one UID different nights need not settle at all (`RepeatedUids.NeverSettles`).
- A challenged capture and its acceptance share one event id, so the acceptance can be taken for a duplicate
  (`LedgerEvents.SettlementLostIff`, `LedgerEvents.SharedIdLosesSettlement`).
- The liveness guard lets through any text that trims and lower-cases to `commit` or `rollback`, whoever issues it
  (`TenantIsolation.LateQueryBouncesIff`; which queries are safe, `TenantEscapes.SafeQueriesIff`).
- The CSV apostrophe is not undone: a cell that already carried one reads back the same as the bare formula
  (`Csv.NeutralMergesIff`).

## Model

| member | source | states |
|---|---|---|
| Bookings.ExclusiveMeansNoNightSoldTwice | packages/db/drizzle/0000_init.sql:144-148 | On non-empty stays the exclusion constraint holds exactly when no two occupying bookings of a unit share a night. |
| Bookings.StoreKeepsValid | packages/db/drizzle/0000_init.sql:144-148 | Storing a row the constraint accepts keeps the whole table free of shared nights. |
| Bookings.FreeingKeepsValid | packages/db/drizzle/0000_init.sql:142-148 | Taking rows off the calendar never needs the constraint's permission. |
| Reconcile.ChannelSync.UpsertEvent | apps/api/src/channel-sync/ical-import.service.ts:245-269 | An event is stored confirmed on the feed's nights exactly when no other occupying row of its unit shares a night; otherwise the table is untouched. |
| Reconcile.ChannelSync.RecordConflict | apps/api/src/channel-sync/ical-import.service.ts:298-356 | A refusal becomes an open conflict, or moves the known one, reopening it only from resolved; a failed filing changes nothing. |
| Reconcile.ChannelSync.ImportEvents | apps/api/src/channel-sync/ical-import.service.ts:147-176 | The loop leaves exactly the table, inbox, missed UIDs and counters of event-by-event reconciliation. |
| Reconcile.ChannelSync.CancelVanished | apps/api/src/channel-sync/ical-import.service.ts:408-429 | Exactly the connection's confirmed imports that a non-empty feed no longer offers are cancelled, and counted. |
| Reconcile.ChannelSync.ResolveHealed | apps/api/src/channel-sync/ical-import.service.ts:372-395 | The connection's open conflicts that no event of a non-empty feed left standing are resolved and stamped. |
| Reconcile.ChannelSync.MarkError | apps/api/src/channel-sync/ical-import.service.ts:434-456 | A failed pull records its error, keeps the last good sync time and touches no booking and no conflict. |
| Reconcile.ChannelSync.SyncConnection | apps/api/src/channel-sync/ical-import.service.ts:97-203 | The whole pull: an unhealthy feed changes no booking and no conflict; a healthy one stores health ok, synced now, no error, counts the events that landed and those refused, which with the faulted ones are all, and the rows it cancelled. |
| Convergence.PullKeepsReady | apps/api/src/channel-sync/ical-import.service.ts:147-190 | Whatever the feed says and whatever fails, a pull leaves no night sold twice. |
| Convergence.EventOutcome | apps/api/src/channel-sync/ical-import.service.ts:245-269 | After the pull an event that landed is confirmed on its feed nights; one that did not keeps the row it had. |
| Convergence.RowOutcome | apps/api/src/channel-sync/ical-import.service.ts:408-429 | After the pull a confirmed import the feed does not offer is cancelled; every other row outside the feed is as it was. |
| Convergence.PullExactly | apps/api/src/channel-sync/ical-import.service.ts:97-190 | One pull, exactly, for every row: landed, kept, cancelled, or untouched. |
| Convergence.EventInTurn | apps/api/src/channel-sync/ical-import.service.ts:245-269 | Each event in turn, spelled out: which rows it reads, the one it writes, and what that holds. |
| Convergence.LandedForGood | apps/api/src/channel-sync/ical-import.service.ts:245-269 | A UID whose row carries its feed dates keeps them through every pull of that feed. |
| Convergence.PullMakesProgress | apps/api/src/channel-sync/ical-import.service.ts:147-190 | A pull that changes a table with nothing left to cancel lands at least one more event. |
| Convergence.ReachesFixpoint | apps/api/src/channel-sync/ical-import.service.ts:147-190 | n + 1 pulls of a feed of n events, in which a repeated UID stands for the same nights, reach a table that the next pull leaves as it is. |
| Convergence.Converges | apps/api/src/channel-sync/ical-import.service.ts:147-190 | Every number of further pulls leaves that table as it is. |
| RepeatedUids.NeverSettles | apps/api/src/channel-sync/ical-import.service.ts:147-190 | A feed that repeats a UID with other nights need not settle: one of six events swings between two tables for ever. |
| WorstCase.BoundIsTight | apps/api/src/channel-sync/ical-import.service.ts:147-190 | For every n there is a feed of n events and a table from which n pulls are not enough: the bound n + 1 is the exact worst case. |
| Fixpoint.MirrorsFeedIff | apps/api/src/channel-sync/ical-import.service.ts:147-190 | The fixpoint is the whole feed exactly when its events share no night, nothing immovable is in the way and no UIDs are deadlocked. |
| Fixpoint.DeadlockNeverLands | apps/api/src/channel-sync/ical-import.service.ts:245-269 | UIDs that all wait for nights other members of the set still hold never land, however often the feed is pulled. |
| Fixpoint.SwapNeverLands | apps/api/src/channel-sync/ical-import.service.ts:245-269 | Two UIDs that swap nights are such a set. |
| Inbox.RunKeeps | apps/api/src/channel-sync/ical-import.service.ts:298-395 | Over every run no conflict row is lost, first detection never moves, a dismissal is never left, and `closedAt` is null exactly when open. |
| Inbox.ResolvedIsMeasured | apps/api/src/channel-sync/ical-import.service.ts:372-395 | `resolved` is written only by a healthy non-empty pull in which the UID landed or was absent. |
| Inbox.OpenAreTheFailed | apps/api/src/channel-sync/ical-import.service.ts:372-395 | After such a pull the connection's open conflicts are all UIDs that failed to land in it. |
| Inbox.RefusedAreInTheInbox | apps/api/src/channel-sync/ical-import.service.ts:298-356 | A refused and filed event is in the inbox after the pull, open or dismissed, seen now. |
| Inbox.RefusedConflictExactly | apps/api/src/channel-sync/ical-import.service.ts:298-356 | The whole row of such a conflict: the feed's nights, first detection kept, reopened from resolved, dismissed left dismissed. |
| Inbox.OtherConflictsExactly | apps/api/src/channel-sync/ical-import.service.ts:372-395 | Every other conflict: resolved now if it was this connection's, open, and not failed; otherwise unchanged. |
| Inbox.EmptyFeedChangesNothing | apps/api/src/channel-sync/ical-import.service.ts:379-408 | A healthy but empty feed changes no booking and no conflict, like an unhealthy one. |
| Inbox.BlockersAreCausesIff | apps/api/src/channel-sync/sync-conflicts.repository.ts:149-185 | The listed blockers include every cause of the refusal, and are exactly the causes unless the UID's own older row overlaps. |
| Inbox.BlockersExactly | apps/api/src/channel-sync/sync-conflicts.repository.ts:149-185 | The listed blockers are the pending and confirmed bookings of the conflict's unit and tenant that share a night with it. |
| Inbox.ConflictInbox.Dismiss | apps/api/src/channel-sync/sync-conflicts.repository.ts:195-228 | Dismissing changes at most the row of that id: closed now when it was open and of the tenant, reading back a closed one, not finding another tenant's; every other row stays as it was. |
| Inbox.DismissExactly | apps/api/src/channel-sync/sync-conflicts.repository.ts:195-228 | A dismissal moves no other row, and its own only from open, for its tenant, stamped with its time. |
| Inbox.DismissedByItsOwner | apps/api/src/channel-sync/sync-conflicts.repository.ts:195-228 | Over every run a row becomes dismissed only by a dismissal of that very row by its own tenant while it was open. |
| Calendar.RoundTripAcceptsRealDates | apps/api/src/channel-sync/ical-parse.ts:174-185 | Building a date and reading its fields back returns them exactly for the dates that exist. |
| Calendar.DaysAreConsecutive | apps/api/src/channel-sync/ical-parse.ts:174-185 | Day numbers count the Gregorian dates one by one, through months and years, from 1 January of year 0. |
| Calendar.TextOrderIsDayOrder | packages/shared/src/availability.ts:61-63 | On dates that exist, string order is day-number order and equal text is the same day. |
| Calendar.NightsAddUp | packages/shared/src/availability.ts:37-41 | Nights are additive over adjoining windows and positive exactly when the window is in order. |
| Calendar.AddOneDayIff | apps/api/src/channel-sync/ical-parse.ts:218-224 | `addOneDay` is the next day exactly for the years from 0100 on. |
| Calendar.DayStepsAreInverse | packages/shared/src/availability.ts:111-115 | `lastNightOf` and `addOneDay` undo each other. |
| IcalExport.FoldLine | apps/api/src/channel-sync/ical.ts:108-131 | The octet-counting loop yields the folded line: 75 octets, then 74 after each leading space. |
| IcalExport.BuildCalendar | apps/api/src/channel-sync/ical.ts:47-73 | The printer yields the folded, terminated content lines, or refuses exactly when some date is not of the expected shape. |
| IcalWire.FeedSpelledOut | apps/api/src/channel-sync/ical.ts:47-73 | Unfolded, the feed is five envelope lines, eight lines for each span in order - of the span only its UID and two dates - and the closing line. |
| IcalWire.UnescapeReadsBack | apps/api/src/channel-sync/ical.ts:94-100 | A printed TEXT value, read by section 3.3.11 of RFC 5545, is the text it was made from with every line break a newline. |
| IcalWire.FoldsLate | apps/api/src/channel-sync/ical.ts:108-131 | A line is folded exactly when longer than 75 octets; then no physical line is longer, and none but the last could have taken one more character. |
| IcalWire.StampReadsBack | apps/api/src/channel-sync/ical.ts:84-89 | The generation instant reads back as the same UTC instant, dated by the property's calendar. |
| IcalParse.ParseCalendar | apps/api/src/channel-sync/ical-parse.ts:257-319 | The scan over mutable state computes the parse the theorems below are about: zone, envelope, events, foreign zones. |
| IcalUnfold.UnfoldBody | apps/api/src/channel-sync/ical-parse.ts:62-69 | Unfolding a printed body gives back exactly the content lines that were printed. |
| IcalWire.TwoPassesAreOneIff | apps/api/src/channel-sync/ical-parse.ts:62-69 | Unfolding in two passes is one pass over every kind of break exactly when no empty line is continued, after a CRLF, by a line that starts with two blanks. |
| IcalWire.UnfoldsAnyBreak | apps/api/src/channel-sync/ical-parse.ts:62-69 | Two physical lines after CRLF, CR or LF are two lines, or one where the second starts with a blank or tab, which goes. |
| IcalRoundTrip.ExportedLinesFit | apps/api/src/channel-sync/ical.ts:108-131 | No physical line of an exported feed is longer than 75 octets. |
| IcalRoundTrip.EscapeIsIdentityIff | apps/api/src/channel-sync/ical.ts:94-100 | Escaping leaves a text alone exactly when it has no backslash, semicolon, comma, CR or LF. |
| IcalRoundTrip.DateReadsBack | apps/api/src/channel-sync/ical.ts:77-82 | A printed date reads back as the same date in every zone. |
| IcalRoundTrip.AlarmMovesTheEvent | apps/api/src/channel-sync/ical-parse.ts:296-316 | An alarm nested in an event, with a date of its own before the event's, becomes the event's start: the first occurrence wins, whichever component it is in. |
| IcalTheorems.ExportReadsBack | apps/api/src/channel-sync/ical-parse.ts:257-319 | For every list of events with real dates in order, the parse of the export: each UID escaped and trimmed, those left empty dropped, no foreign zone. |
| IcalTheorems.RoundTripIff | apps/api/src/channel-sync/ical-parse.ts:257-319 | The export parses back to the same events in order exactly when every UID is non-empty, trimmed and free of special characters. |
| IcalTheorems.TruncationSafe | apps/api/src/channel-sync/ical-parse.ts:269-318 | Every prefix of an export is refused or yields the complete event list, never a proper part; the cut-off point is exact. |
| IcalOctets.OctetTruncationSafe | apps/api/src/channel-sync/ical-parse.ts:269-318 | The same for a download cut after any number of octets, a character cut in the middle arriving as U+FFFD. |
| IcalSoundness.ParsedIsTrustworthy | apps/api/src/channel-sync/ical-parse.ts:226-250 | Whatever the body, accepted events have a non-empty trimmed UID, two dates of the right shape and start before end. |
| IcalLines.VeventYields | apps/api/src/channel-sync/ical-parse.ts:226-307 | A VEVENT adds the event its own lines make up - first UID with something visible, first start, first end or the next day, start before end - or nothing when they make up none. |
| IcalLines.OtherLinesYieldNothing | apps/api/src/channel-sync/ical-parse.ts:286-316 | No line but the closing of an open VEVENT adds or removes an event. |
| IcalLines.ForeignExactly | apps/api/src/channel-sync/ical-parse.ts:308-318 | The zones reported are exactly those a collected property inside a VEVENT names other than the property's own, each once, in order of discovery. |
| IcalLines.SplitLineExactly | apps/api/src/channel-sync/ical-parse.ts:76-93 | A line taken apart at its first colon and first semicolon: name, value, and the first TZID parameter trimmed inside its quotes and out. |
| IcalLines.ZoneReadsBack | apps/api/src/channel-sync/ical-parse.ts:84-93 | A zone named plainly and the same zone between quotes are the same zone. |
| IcalLines.AcceptedIff | apps/api/src/channel-sync/ical-parse.ts:269-284 | A body is accepted exactly when the zone is usable and both marker lines are there. |
| IcalSoundness.OutsideContributesNothing | apps/api/src/channel-sync/ical-parse.ts:286-316 | Lines outside every VEVENT contribute nothing to the events. |
| IcalSoundness.NestingIsInvisible | apps/api/src/channel-sync/ical-parse.ts:286-316 | Only VEVENT delimiters and lines of the three fields matter: every other line, a nested component's delimiters included, can be dropped anywhere. |
| IcalSoundness.NestedLeavesFieldsIff | apps/api/src/channel-sync/ical-parse.ts:296-316 | Lines nested in an event leave what it has collected alone exactly when, for each field it lacks, they carry none or the value the rest of the event carries first. |
| IcalSoundness.NestedLeavesEventIff | apps/api/src/channel-sync/ical-parse.ts:286-316 | So a nested component leaves the parsed events alone then; and, for an event accepted without it, exactly when UID, start and end are read the same with it. |
| IcalSoundness.DateAcceptedIff | apps/api/src/channel-sync/ical-parse.ts:170-202 | A value without a UTC time is accepted exactly when its first eight digits are a date that exists, and becomes that date. |
| IcalSoundness.UtcAcceptedIff | apps/api/src/channel-sync/ical-parse.ts:195-214 | A UTC value is accepted exactly when its date and time exist and its local year prints in four digits, and becomes its local date, printed without an era. |
| IcalSoundness.AcceptedDateRealIff | apps/api/src/channel-sync/ical-parse.ts:170-214 | Whatever the value and the zone, an accepted date exists unless the value is 29 February, locally, of a year before 0001 that prints as a common year. |
| IcalSoundness.FakeLeapDayExists | apps/api/src/channel-sync/ical-parse.ts:195-214 | Such a value: 00000229T000000Z in UTC becomes 0001-02-29. |
| IcalSoundness.UtcFallsOnLocalDayIff | apps/api/src/channel-sync/ical-parse.ts:195-214 | An accepted UTC value is dated by the local day that contains its instant exactly when that day is in the years 0001 to 9999. |
| IcalSoundness.AcceptedEventRealIff | apps/api/src/channel-sync/ical-parse.ts:226-319 | Every accepted event of any body was read from that body's own lines, and both its dates exist exactly when none of those values is such a leap day. |
| IcalSoundness.AcceptedEventsAreReal | apps/api/src/channel-sync/ical-parse.ts:226-319 | A body without such a line yields only events whose dates exist and are in order. |
| FeedToCalendar.CutFeedIsAllOrNothing | apps/api/src/channel-sync/ical-import.service.ts:97-190 | A feed cut anywhere on its way reconciles as nothing at all or as the whole feed. |
| FeedToCalendar.CutFeedCancelsNothingOffered | apps/api/src/channel-sync/ical-import.service.ts:408-429 | No cut of a feed cancels a booking the whole feed offers. |
| FeedToCalendar.AnyBodyKeepsReady | apps/api/src/channel-sync/ical-import.service.ts:97-190 | Pulling any body at all, whatever fails, leaves no night sold twice. |
| FeedToCalendar.AnyBodyKeepsToItsRows | apps/api/src/channel-sync/ical-import.service.ts:408-429 | Pulling any body touches no direct booking, block or other connection's row. |
| FeedToCalendar.AnyBodyEvent | apps/api/src/channel-sync/ical-import.service.ts:245-269 | Each event of any accepted body with distinct UIDs is confirmed on the dates the feed wrote if it landed, and keeps its row if it did not; it lands only on dates the database stores. |
| FeedToCalendar.AcceptedIsStorableIff | apps/api/src/channel-sync/ical-parse.ts:226-250 | Apart from those leap days, the only accepted dates the database cannot store are in year 0000. |
| FeedToCalendar.UnstorableIff | apps/api/src/channel-sync/ical-import.service.ts:147-176 | An event faults for its dates exactly when one does not exist, they are out of order, or one lies in year 0000. |
| LedgerInvariant.DoKeeps | apps/api/src/payments/payments.service.ts:62-143 | Every action of guests, owners, sweeps, pays, provider events, imports and the inbox keeps the ledger's invariant, in every interleaving. |
| LedgerInvariant.RunKeeps | apps/api/src/payments/payments.service.ts:62-143 | So every run from the empty ledger does. |
| LedgerInvariant.DeliveredKeeps | apps/api/src/payments/payment-webhook.service.ts:266-329 | A delivery keeps the tables in order: at most one active payment per booking, paid beside no pending booking. |
| LedgerInvariant.MintKeeps | apps/api/src/payments/payments.service.ts:95-131 | Minting under the row lock never adds a second active payment. |
| LedgerInvariant.InsertKeeps | apps/api/src/bookings/bookings.service.ts:100-137 | An insert after sweep and re-check commits only a table without shared nights, and disturbs no other transaction. |
| LedgerTheorems.NoNightEverSoldTwice | apps/api/src/bookings/bookings.service.ts:97-137 | No run of checkouts, owner writes, cancels, sweeps, settlements and imports ever sells a night twice. |
| LedgerTheorems.RecheckSawFree | apps/api/src/bookings/bookings.service.ts:267-282 | A write that got past its re-check saw a free window at that moment, its own earlier sweep included. |
| LedgerTheorems.OthersOnlyFree | apps/api/src/bookings/bookings.repository.ts:104-122 | Every step that is not an insert or an import only takes rows off the calendar. |
| LedgerTheorems.RefusedOnlyIfTaken | apps/api/src/bookings/bookings.service.ts:97-137 | Such a write is refused at insert only if an insert or an import committed an overlapping row after the re-check. |
| LedgerTheorems.NeverResurrected | apps/api/src/payments/payment-webhook.service.ts:281-300 | No later settlement, sweep or import brings an expired or cancelled direct booking back. |
| LedgerTheorems.PaymentsInOrder | apps/api/src/payments/payments.repository.ts:70-113 | In every run at most one payment per booking is pending or paid; a paid one's booking is not pending and is confirmed, in the inbox, or handled. |
| LedgerTheorems.PaidSumAtMostOne | apps/api/src/payments/payments.repository.ts:241-246 | The SQL sum of settled payments is exactly the one paid payment's amount, or zero without one. |
| LedgerTheorems.PaidPlusBalanceIsTotal | apps/api/src/payments/confirmation.service.ts:125-132 | Paid plus balance is the price in every run, and what is paid is the paid payment's amount: the clamp never hides money. |
| LedgerTheorems.DepositIsFloor | apps/api/src/payments/deposit.ts:14-16 | The deposit is the share rounded down to a rupiah, and the whole price at 100 percent. |
| LedgerTheorems.SweepIsExact | apps/api/src/bookings/bookings.repository.ts:104-122 | The sweep changes the status of exactly the unit's lapsed holds, and a second sweep finds nothing. |
| LedgerTheorems.LiveHoldKept | apps/api/src/bookings/hold-sweeper.service.ts:33-48 | No step but a cancel or a delivery ever changes a pending hold whose expiry is not yet over. |
| LedgerTheorems.Fates | apps/api/src/payments/payment-webhook.service.ts:223-258 | A delivery that crashed before its commit leaves nothing, one that crashed after it all but the notice; one for a pending booking whose row is locked waits. |
| LedgerTheorems.WaitsExactly | apps/api/src/bookings/bookings.service.ts:97-137 | A sweep waits exactly while another transaction has locked one of the holds it would expire, and a pay's lock exactly while one has the booking's row. |
| LedgerTheorems.InsertWaitsExactly | apps/api/src/bookings/bookings.service.ts:97-137 | An insert waits exactly while another transaction is expiring, uncommitted, a row that overlaps it. |
| LedgerTheorems.OwnTransactionsWaitExactly | apps/api/src/bookings/bookings.repository.ts:104-122 | A cancel and a cron sweep wait exactly for the rows they would write, and then write them. |
| LedgerTheorems.PullWaitsExactly | apps/api/src/channel-sync/ical-import.service.ts:147-190 | A pull waits exactly while a row of its connection is locked or a row that refuses one of its events is being expired; otherwise it is the reconciliation. |
| LedgerTheorems.RecordedNeverReplays | apps/api/src/payments/payment-webhook.service.ts:95-130 | However often a recorded event comes again, by push or pull, it never changes anything. |
| LedgerTheorems.ChangingIsRecording | apps/api/src/payments/payment-webhook.service.ts:223-258 | A delivery that changes anything records its event, which was not recorded before. |
| LedgerTheorems.EventActsAtMostOnce | apps/api/src/payments/payment-webhook.service.ts:95-174 | Over a whole run an event takes effect at most once. |
| LedgerTheorems.CrashesLeaveNoTrace | apps/api/src/payments/payment-webhook.service.ts:253-258 | A run with deliveries that crashed before their commit ends as the run without them. |
| LedgerTheorems.NoticeOnlyOnFlip | apps/api/src/payments/payment-webhook.service.ts:336-364 | The notice goes out only on a flip from pending payment to confirmed. |
| LedgerTheorems.NoticeAtMostOnce | apps/api/src/payments/payment-webhook.service.ts:336-364 | No booking is announced twice in any run. |
| LedgerEvents.RunKeepsSourced | apps/api/src/payments/payment-webhook.service.ts:223-329 | In every run each payment's status is explained by the amount-matching events recorded for it, and each confirmed guest booking by a settlement. |
| LedgerEvents.StatusIsFirstSaid | apps/api/src/payments/payment-webhook.service.ts:223-329 | In every run a payment's status is what the log of recorded events first said about it at its amount: paid, failed or pending. |
| LedgerEvents.FirstSaysIff | apps/api/src/payments/payment-webhook.service.ts:281-320 | The first word is a failure exactly when some matching failure stands before every matching settlement in the log. |
| LedgerEvents.ConfirmedUnpaidIff | apps/api/src/payments/payment-webhook.service.ts:266-329 | A confirmed guest booking has a recorded settlement; it has no paid payment exactly when, for each settled payment, a matching failure was recorded before every matching settlement. |
| LedgerEvents.SettlementAfterFailure | apps/api/src/payments/payment-webhook.service.ts:288-307 | A failure and then a settlement leave the booking confirmed and the payment failed. |
| LedgerEvents.DeliveriesDecide | apps/api/src/payments/payment-webhook.service.ts:223-329 | Any fresh events in any order: confirmed exactly when some settlement matches, each payment as its first matching verdict says. |
| LedgerEvents.BatchUnpaidIff | apps/api/src/payments/payment-webhook.service.ts:223-329 | After a batch the booking is confirmed and a payment unpaid exactly when some settlement matched and the first word about that payment is not a settlement. |
| LedgerEvents.OrderDoesNotMatter | apps/api/src/payments/payment-webhook.service.ts:223-329 | Two delivery orders of the same events leave the same bookings and notices. |
| LedgerEvents.AnyBatchDecides | apps/api/src/payments/payment-webhook.service.ts:95-130 | Of any batch, ids shared or already recorded, exactly the first event of each id counts. |
| LedgerEvents.SettlementLostIff | apps/api/src/payments/payment-webhook.service.ts:243-255 | A pending booking stays unconfirmed although a matching settlement was delivered exactly when each such settlement came under an id already used. |
| LedgerEvents.SharedIdLosesSettlement | apps/api/src/payments/midtrans.gateway.ts:49-70 | A challenged capture and its acceptance, under one id: told first of the challenge, the acceptance is lost; the other way round the booking is confirmed. |
| LedgerEvents.BatchIsRun | apps/api/src/payments/payment-webhook.service.ts:95-130 | With no transaction in the way such a batch is a run of the ledger. |
| LedgerService.Store.SweepExpiredHolds | apps/api/src/bookings/hold-sweeper.service.ts:33-48 | The cron sweep: each row is as it was, expired exactly when it was a pending payment whose hold ended before now; it reports how many those were. |
| LedgerService.Store.ExpireLapsedHolds | apps/api/src/bookings/bookings.repository.ts:104-122 | The in-transaction sweep: each row is as it was, expired exactly when it was a pending payment of that unit and tenant whose hold ended before now. |
| LedgerService.Store.CreateBooking | apps/api/src/bookings/bookings.service.ts:97-137 | Sweep, re-check and insert: created exactly when the window is free, with what in the row; a refusal undoes the sweep too. |
| LedgerService.WindowIsFree | apps/api/src/bookings/bookings.service.ts:97-137 | The insert is taken exactly when no paid stay and no hold of the unit that is still running shares a night with it. |
| BookingService.QuotedFreeIsAccepted | apps/api/src/bookings/bookings.service.ts:267-282 | After the sweep, the quote finds a taken night exactly when the exclusion constraint would refuse the insert. |
| BookingService.NightTakenIff | apps/api/src/bookings/bookings.service.ts:267-282 | A window is taken exactly when a paid stay, or a hold of the unit that has not run out, shares a night with it. |
| BookingService.CreatePublicBooking | apps/api/src/bookings/bookings.service.ts:70-137 | The guest checkout: unknown unit, payments not configured, or every refusal in order with its exact condition (overlap, minimum stay, party size, archived), or the row of a 15-minute hold at the nightly price with the unit's lapsed holds expired and every other row untouched. |
| BookingService.CreateOwnerBooking | apps/api/src/bookings/bookings.service.ts:168-236 | The owner's create obeys overlap and archived only; a walk-in is priced as agreed or as quoted, a block not at all; the new row is spelled out and no other but a lapsed hold of the unit changes. |
| LedgerService.Store.CancelById | apps/api/src/bookings/bookings.repository.ts:230-254 | Cancel flips exactly an occupying booking of the tenant, names a terminal state, and reports a refund when money was taken. |
| LedgerService.Store.Pay | apps/api/src/payments/payments.service.ts:48-143 | Pay is the run begin, lock, check, mint; a session is for a live hold; the one open session is returned unchanged, amount and provider session with it; anything else changes nothing. |
| LedgerService.Store.ApplyEvent | apps/api/src/payments/payment-webhook.service.ts:266-329 | The guarded updates of one event and the outcome they report. |
| LedgerService.Store.Handle | apps/api/src/payments/payment-webhook.service.ts:108-130 | One verified delivery is one ledger step and reports unknown order, duplicate, mismatch, settlement, failure or nothing. |
| LedgerService.Store.Receive | apps/api/src/payments/payment-webhook.service.ts:95-130 | A body counts only when the order it names resolves to a tenant with a credential and the signature holds; otherwise nothing changes. |
| LedgerService.Store.ReconcileOnRead | apps/api/src/payments/confirmation.service.ts:73-107 | Reading a pending booking applies the pulled status and sweeps: afterwards it is not a lapsed hold; other bookings are only read. |
| LedgerService.Store.MarkHandled | apps/api/src/payments/payment-inbox.repository.ts:128-181 | Handling succeeds exactly on a lapsed paid payment of the tenant, sets the time once and returns the first time after that. |
| TenantIsolation.DoKeeps | apps/api/src/db/tenant-db.service.ts:235-313 | Every step of opening, joining, deferring, issuing, settling, closing, executing and recycling keeps the isolation invariant. |
| TenantIsolation.EveryStatementIsolated | apps/api/src/db/tenant-db.service.ts:124-160 | Over all schedules every executed data statement ran under the tenant of the principal whose `run` built it, limited to the assigned properties exactly when that principal is staff. |
| TenantErasure.IsolatedUnlessEnded | apps/api/src/db/tenant-db.service.ts:124-160 | The same, tenant and scope by role, with only the proviso that no query ends the transaction: text the guard takes for commit and the server refuses changes nothing. |
| TenantErasure.ErasedRuns | apps/api/src/db/tenant-db.service.ts:155-160 | Every run behaves as the run with such refused queries left out. |
| TenantIsolation.LateQueryBouncesIff | apps/api/src/db/tenant-db.service.ts:124-160 | After its transaction settled a query is thrown out exactly when its text is not commit or rollback. |
| TenantTx.ControlIff | apps/api/src/db/tenant-db.service.ts:124-142 | The guard takes a text for transaction control exactly when it is commit or rollback in any letter case between any white space. |
| TenantIsolation.LateQueryNeverRuns | apps/api/src/db/tenant-db.service.ts:124-142 | However long it waits, such a query never reaches a connection. |
| TenantIsolation.Remembered | apps/api/src/common/tenant-context.service.ts:79-89 | Over every run a minted principal never changes, nor a built query, and a dead session stays dead. |
| TenantIsolation.OnlyControlAfterSettle | apps/api/src/db/tenant-db.service.ts:144-160 | After the callback returned a step adds to the connection at most the driver's closing statement. |
| TenantIsolation.PooledIsClean | apps/api/src/db/tenant-db.service.ts:300-312 | A connection in the pool has nothing queued and no settings on it. |
| TenantSteps.OpenExactly | apps/api/src/db/tenant-db.service.ts:235-313 | `run` outside a transaction opens one on an idle connection exactly when its request has a principal, with that principal's tenant and, exactly for staff, its assigned properties; nothing else changes. |
| TenantSteps.JoinExactly | apps/api/src/db/tenant-db.service.ts:235-285 | `run` inside a transaction joins it exactly while it is live and has the caller's own tenant and scope; what it builds is the caller's. |
| TenantSteps.DataExactly | apps/api/src/db/tenant-db.service.ts:124-160 | A data statement leaves its queue and, if it ran, is logged with the connection's settings of that moment. |
| TenantSteps.DriverExactly | apps/api/src/db/tenant-db.service.ts:282-313 | The settings go on together in one statement; a failure leaves the callback unstarted; the closing statement takes them off. |
| TenantIsolation.RawCommitEscapes | apps/api/src/db/tenant-db.service.ts:144-160 | The proviso that callbacks issue no transaction-ending text is needed: the next statement would run without settings. |
| TenantEscapes.EndingRunEscapes | apps/api/src/db/tenant-db.service.ts:144-160 | For every text the server ends the transaction on: a whole run from the empty state that ends so. |
| TenantEscapes.LateRunEscapes | apps/api/src/db/tenant-db.service.ts:155-160 | For every commit or rollback text: a whole run in which it is built in one tenant's callback, passes the guard late on the recycled connection, ends another tenant's transaction, and that tenant's statement runs without settings. |
| TenantEscapes.SafeQueriesIff | apps/api/src/db/tenant-db.service.ts:124-160 | An application that builds only given queries leaks in no schedule exactly when none of them ends the transaction, whatever else the guard lets through. |
| TenantContext.RequestContext.Set | apps/api/src/common/tenant-context.service.ts:79-89 | A principal is minted once; the second call is refused and changes nothing. |
| TenantContext.GuardedSession.PrepareQuery | apps/api/src/db/tenant-db.service.ts:124-142 | A statement is issued exactly when the flag is up or it is transaction control. |
| TenantContext.GuardedSession.PrepareAll | apps/api/src/db/tenant-db.service.ts:124-160 | Of any sequence issued after settling, only transaction control gets through. |
| TenantContext.Enter | apps/api/src/db/tenant-db.service.ts:235-285 | `run` joins exactly a live transaction of the same tenant and scope, opens exactly outside one, and refuses without a principal; what it opens or joins has the principal's tenant, limited to the assigned properties exactly for staff. |
| InviteSafety.DoKeeps | apps/api/src/staff/invite-accept.repository.ts:178-267 | Every step of accepts, invitations, revocations, team and property changes keeps the invariant, in every interleaving. |
| InviteSafety.HeldAccountGainsNoSeat | apps/api/src/staff/invite-accept.repository.ts:204-213 | While an accept holds an account row, the account gains no seat. |
| InviteSafety.RemoveKeeps | apps/api/src/staff/staff.repository.ts:349-364 | Removing a staff seat cascades to its assignments and deletes no invite. |
| InviteTheorems.NoReasonIffLive | apps/api/src/staff/invite-liveness.ts:48-56 | No refusal reason is given exactly when the guarded UPDATE would match. |
| InviteTheorems.ReasonExactly | apps/api/src/staff/invite-liveness.ts:48-56 | Which reason a dead invite is refused with, from its own columns and the clock. |
| InviteTheorems.SpendWaitsExactly | apps/api/src/staff/invite-accept.repository.ts:184-202 | Spending waits exactly while another accept has spent the same invite and not yet committed. |
| InviteTheorems.LockWaitsExactly | apps/api/src/staff/invite-accept.repository.ts:204-213 | The account row is waited for exactly while another accept for the same address holds it. |
| InviteTheorems.OwnerWaitsExactly | apps/api/src/staff/staff.repository.ts:123-139 | Revoking, superseding and removing take effect at once unless an accept has spent, uncommitted, an invite they would write or delete. |
| InviteTheorems.SupersededReadsExpired | apps/api/src/staff/staff.repository.ts:123-139 | An invite closed because it ran out of time reads as expired at every later time. |
| InviteTheorems.SupersedeAlignsIndex | apps/api/src/staff/staff.repository.ts:95-139 | After superseding, the unique index and the duplicate check mean the same. |
| InviteTheorems.SpentOnlyWhileLive | apps/api/src/staff/invite-accept.repository.ts:184-202 | An invite is spent only by an accept that found it open and unexpired. |
| InviteTheorems.ClosedStaysClosed | apps/api/src/staff/staff.repository.ts:211-240 | Invites never vanish and a closed one never changes again, except to lose a deleted property. |
| InviteTheorems.SpentAtMostOnce | apps/api/src/staff/invite-accept.repository.ts:178-202 | Over every run an invite is spent at most once. |
| InviteTheorems.SeatedPasswordsKept | apps/api/src/staff/invite-accept.repository.ts:215-232 | No step changes the password of an account that holds a seat. |
| InviteTheorems.RolesKept | apps/api/src/staff/invite-accept.repository.ts:234-246 | No step changes the role of an existing seat; new seats come from registration or an accept. |
| InviteTheorems.AssignmentsAreOfMembers | packages/db/src/schema.ts:288-304 | In every run each assignment has a membership of the same user and tenant, and a property of that tenant. |
| InviteTheorems.FinishSeats | apps/api/src/staff/invite-accept.repository.ts:234-267 | A completed accept leaves the account, the seat with its old role, every granted property, and the spent invite. |
| InviteTheorems.RaisingUnspends | apps/api/src/staff/invite-accept.repository.ts:221-232 | An accept that raises leaves every table as it was and its invite open. |
| InviteTheorems.RaisedCanRetry | apps/api/src/staff/invite-accept.repository.ts:184-232 | After an accept that raised, its unexpired invite can be accepted again at once: nobody holds it any more. |
| InviteTheorems.ModeIsWhatAcceptAsks | apps/api/src/staff/invite-liveness.ts:79-83 | The preview asks to sign in exactly when an unproved accept would be refused, and to create exactly when it goes through. |
| InviteService.Team.AcceptInvite | apps/api/src/staff/invite-accept.repository.ts:178-267 | An uncontended accept is the run of its five steps; refused exactly when not live; anything but joining changes nothing. |
| InviteService.Team.Invite | apps/api/src/staff/invites.service.ts:63-153 | Inviting has exactly one outcome from the state it is made in - not an owner, foreign property, member, pending, created - and leaves one live invite; a failed mail revokes it again. |
| InviteService.Team.RevokeInvite | apps/api/src/staff/staff.repository.ts:211-240 | Revoking closes an open invite, is idempotent, and does not find another tenant's. |
| InviteService.Team.ReplaceAssignments | apps/api/src/staff/staff.repository.ts:306-328 | Afterwards the member's assignments in the tenant are exactly the requested set and everyone else's are as they were; refused, changing nothing, for non-members, foreign properties and a property assigned to the member by another tenant's row. |
| InviteService.Team.RemoveStaff | apps/api/src/staff/staff.repository.ts:349-364 | Exactly a staff seat can be ended; its assignments and the invites its holder made go with it; every other seat, assignment and invite and every account stay. |
| Pricing.QuoteTotal | packages/shared/src/availability.ts:72-88 | The accumulating loop is the night-by-night sum of override-else-base for disjoint overrides. |
| Pricing.TotalCorrectsEachNight | packages/shared/src/availability.ts:72-88 | With no assumption on the overrides, the identity corrects each night once per override that covers it. |
| Pricing.TotalIsNightlySum | packages/shared/src/availability.ts:44-88 | On disjoint overrides in any order the identity is the nightly sum. |
| Pricing.NightPriceIs | packages/shared/src/availability.ts:54-58 | A night costs the override covering it, wherever it stands in the list, else the base price. |
| Pricing.DisjointIff | packages/db/drizzle/0017_unit_price_override.sql:35-39 | The override constraint on ranges holds exactly when no night has two overrides. |
| Pricing.ClippedExactly | apps/api/src/bookings/availability.repository.ts:111-134 | The override query answers exactly the part inside the window of every override that has a night there. |
| Pricing.TotalIgnoresOrder | packages/shared/src/availability.ts:72-88 | Listing the overrides in another order prices every stay the same. |
| Pricing.ClippingKeepsTotal | apps/api/src/bookings/availability.repository.ts:111-134 | Raw or clipped to the window, the overrides price it the same. |
| Pricing.OverlappingOverridesMisprice | packages/db/drizzle/0017_unit_price_override.sql:35-39 | Without the constraint the identity is not the nightly sum. |
| Pricing.TotalIsRupiah | packages/shared/src/money.ts:52-59 | At the rate cap and the window cap the total is in [0, 366e9], inside the safe-integer range. |
| Ranges.CoalesceRanges | packages/shared/src/availability.ts:143-161 | The merging loop computes the canonical form below. |
| Ranges.CoalesceCanonical | packages/shared/src/availability.ts:143-161 | The result is in order with a gap between neighbours and covers exactly the input's nights. |
| Ranges.CoalesceIgnoresOrder | packages/shared/src/availability.ts:139-142 | It is the same for every order of the input. |
| Ranges.CanonicalUnique | packages/shared/src/availability.ts:131-136 | Two such lists covering the same nights are the same list. |
| Ranges.CanonicalSmallest | packages/shared/src/availability.ts:131-136 | No list of ranges covering those nights is shorter. |
| Availability.FindBlockedRanges | apps/api/src/bookings/availability.repository.ts:79-102 | The query's ranges are non-empty and cover exactly the window's taken nights. |
| Availability.TakenIff | apps/api/src/bookings/availability.repository.ts:79-102 | A night is taken by a pending or confirmed booking of the unit, from its check-in to the night before it ends. |
| Availability.OverridesHoldIff | packages/db/drizzle/0017_unit_price_override.sql:35-39 | The two override constraints as ranges and a cap: what the quote leans on. |
| Availability.Quote | apps/api/src/bookings/availability.service.ts:76-111 | Not found, archived, or: the reasons in order with their exact conditions, available exactly without one, the blocked nights in canonical form, the nightly price, min-stay; never out of range at the caps. |
| Availability.FreeIffAccepted | apps/api/src/bookings/availability.repository.ts:79-102 | A window reads free exactly when the exclusion constraint would take the stay. |
| Csv.FieldReadsBack | apps/api/src/bookings/bookings-csv.ts:75-82 | A printed cell reads back as the neutral cell, whatever it holds and whatever follows it. |
| Csv.CsvRoundTrip | apps/api/src/bookings/bookings-csv.ts:90-96 | After its byte-order mark the export reads back as the eleven headers and, for each reservation, its eleven fields in that order, each with an apostrophe in front exactly when it starts with one of = + - @ tab CR; no cell read starts with one. |
| Csv.VerbatimIff | apps/api/src/bookings/bookings-csv.ts:62-82 | A cell is written verbatim exactly when it starts with no formula trigger and holds no quote, comma, CR or LF; otherwise it is longer and between quotes. |
| Csv.NeutralMergesIff | apps/api/src/bookings/bookings-csv.ts:56-82 | Two cells read back the same exactly when they are equal or one is a formula and the other that formula with the apostrophe already in front. |

## Left out

- IcalParse.ParseCalendar: `Intl` zone data is not part of this model; a zone is any function from a UTC second to an offset, and an unusable zone is an absent one.
- IcalExport.BuildCalendar: lone surrogates are not representable, since characters are Unicode scalar values; the loop otherwise walks code points as the source does.
- Reconcile.ChannelSync.SyncConnection: fetching, decryption and the order in which connections are synced are not part of this model; the parsed feed is a parameter.
- Inbox.RunKeeps: the conflict and connection rows are not deleted; deleting a connection cascades in the database.
- LedgerInvariant.DoKeeps: a delivery, a cancel, a sweep and an import are one step each, since they write under row locks until their commit; deadlocks appear as aborts.
- LedgerService.Store.Pay: unit, property and guest columns and the display fields of the response; what the provider returns is one text; of several open sessions the newest is taken, and there is at most one.
- LedgerService.Store.Receive: how a signature is checked, a credential decrypted, and a provider's status words mapped to outcomes; the first two are yes-or-no parameters, the third is part of the event.
- LedgerService.Store.CreateBooking: the refusals other than the calendar's are one parameter here; `BookingService.CreatePublicBooking` states each.
- BookingService.CreatePublicBooking: guest columns; whether the tenant can take payments is a parameter.
- TenantIsolation.EveryStatementIsolated: here also for callbacks that build no text the guard takes for commit or rollback; `TenantErasure.IsolatedUnlessEnded` needs only that they never end the transaction, and `TenantEscapes.SafeQueriesIff` shows that this is the exact condition.
- TenantIsolation.DoKeeps: the same proviso, one step at a time; drizzle's explicit `.prepare()` path is outside the guard and not modelled, nor are row-level-security policies.
- Convergence.PullExactly: for a feed with distinct UIDs; of a UID the feed repeats the last occurrence that lands decides.
- TenantContext.GuardedSession.PrepareQuery: the query is its text; its parameters and its result are not modelled.
- InviteTheorems.SpentAtMostOnce: token hashing, bcrypt and email delivery are not part of this model; the verified account is a parameter.
- Availability.Quote: the order of rows from the database is unspecified, which `Ranges.CoalesceIgnoresOrder` makes irrelevant.
- Csv.CsvRoundTrip: how rows become strings (bigint to text, nights) is the caller's; TEXTDATA is read as every character but comma, quote, CR and LF, as UTF-8 files need.
- HTTP controllers, guards, request schemas, throttling, sessions, settings, property editing, galleries, slugs and the web application: plumbing or single-branch facts.
