/**
 * The promises of the feed format: round trip, truncation safety, and what any accepted feed yields.
 */
module IcalTheorems {
  import opened Options
  import opened Text
  import opened IcalExport
  import opened IcalParse
  import opened IcalUnfold
  import opened IcalRoundTrip

  // ---- The whole export read back -------------------------------------------------------------------

  function ReadBackAll(events: seq<Event>): seq<Event> {
    if events == [] then [] else ReadBackAll(events[..|events| - 1]) + ReadBack(events[|events| - 1])
  }

  ghost predicate AllValid(events: seq<Event>) {
    forall i | 0 <= i < |events| :: ValidDates(events[i])
  }

  lemma {:induction false} EventsReadBack(st: Scan, events: seq<Event>, stamp: string, zone: Zone)
    requires AllValid(events) && st.current == None
    ensures ScanLines(st, AllEventLines(events, stamp), zone) == Scan(None, st.events + ReadBackAll(events), st.foreign)
  {
    hide EventLines, ReadBack, ValidDates, Printable, Step;
    ValidIsPrintable(events);
    if events == [] {
      assert AllEventLines(events, stamp) == [];
      assert st.events + [] == st.events;
    } else {
      hide ScanLines, AllPrintable;
      var init, last := events[..|events| - 1], events[|events| - 1];
      EventsReadBack(st, init, stamp, zone);
      ScanConcat(st, AllEventLines(init, stamp), EventLines(last, stamp), zone);
      EventReadsBack(Scan(None, st.events + ReadBackAll(init), st.foreign), last, stamp, zone);
      assert st.events + ReadBackAll(init) + ReadBack(last) == st.events + (ReadBackAll(init) + ReadBack(last));
    }
  }

  lemma ValidIsPrintable(events: seq<Event>)
    requires AllValid(events)
    ensures AllPrintable(events)
  {
    forall i | 0 <= i < |events|
      ensures Printable(events[i])
    {
      assert ValidDates(events[i]);
    }
  }

  /** Outside a VEVENT only the line that opens one matters. */
  lemma NothingOutside(st: Scan, line: string, zone: Zone)
    requires st.current == None
    requires SplitLine(line).Some? ==> !Opens(SplitLine(line).value)
    ensures Step(st, line, zone) == st
  {
    hide SplitLine, Opens;
  }

  lemma EnvelopeLine(st: Scan, name: string, value: string, zone: Zone)
    requires st.current == None && Letters(name) && (name != "BEGIN" || value == "VCALENDAR")
    ensures Step(st, name + ":" + value, zone) == st
  {
    hide SplitLine, Upper, Trim, Step;
    SplitPlainLine(name, value);
    UpperOfPlain("VCALENDAR");
    NothingOutside(st, name + ":" + value, zone);
  }

  lemma HeaderSkipped(st: Scan, prodId: string, zone: Zone)
    requires st.current == None
    ensures ScanLines(st, Header(prodId), zone) == st
  {
    hide Step, EscapeText;
    var ls := Header(prodId);
    assert ls[0] == "BEGIN" + ":" + "VCALENDAR";
    assert ls[1] == "VERSION" + ":" + "2.0";
    assert ls[2] == "PRODID" + ":" + EscapeText(prodId);
    assert ls[3] == "CALSCALE" + ":" + "GREGORIAN";
    assert ls[4] == "METHOD" + ":" + "PUBLISH";
    EnvelopeLine(st, "BEGIN", "VCALENDAR", zone);
    EnvelopeLine(st, "VERSION", "2.0", zone);
    EnvelopeLine(st, "PRODID", EscapeText(prodId), zone);
    EnvelopeLine(st, "CALSCALE", "GREGORIAN", zone);
    EnvelopeLine(st, "METHOD", "PUBLISH", zone);
    SkipAll(st, ls, zone);
  }

  lemma {:induction false} SkipAll(st: Scan, lines: seq<string>, zone: Zone)
    requires forall i | 0 <= i < |lines| :: Step(st, lines[i], zone) == st
    ensures ScanLines(st, lines, zone) == st
  {
    hide Step;
    if lines != [] {
      SkipAll(st, lines[..|lines| - 1], zone);
    }
  }

  lemma ClosingSkipped(st: Scan, tail: seq<string>, zone: Zone)
    requires st.current == None && (tail == [] || tail == [""])
    ensures ScanLines(st, ["END:VCALENDAR"] + tail, zone) == st
  {
    hide Step;
    assert "END:VCALENDAR" == "END" + ":" + "VCALENDAR";
    EnvelopeLine(st, "END", "VCALENDAR", zone);
    NothingOutside(st, "", zone);
    SkipAll(st, ["END:VCALENDAR"] + tail, zone);
  }

  lemma CalendarReadsBack(prodId: string, stamp: string, events: seq<Event>, tail: seq<string>, zone: Zone)
    requires AllValid(events) && (tail == [] || tail == [""])
    ensures AllPrintable(events)
    ensures ScanLines(START, CalendarLines(prodId, stamp, events) + tail, zone) == Scan(None, ReadBackAll(events), [])
  {
    hide Step, ScanLines, Header, AllEventLines, ReadBackAll, ValidDates, Printable;
    ValidIsPrintable(events);
    var mid := AllEventLines(events, stamp);
    var closing := ["END:VCALENDAR"] + tail;
    assert CalendarLines(prodId, stamp, events) + tail == Header(prodId) + mid + closing;
    ScanConcat(START, Header(prodId) + mid, closing, zone);
    ScanConcat(START, Header(prodId), mid, zone);
    HeaderSkipped(START, prodId, zone);
    EventsReadBack(START, events, stamp, zone);
    assert START.events + ReadBackAll(events) == ReadBackAll(events);
    ClosingSkipped(Scan(None, ReadBackAll(events), []), tail, zone);
  }

  lemma SawAt(lines: seq<string>, i: nat, marker: string)
    requires i < |lines| && lines[i] == marker && PlainUpper(marker)
    ensures Saw(lines, marker)
  {
    UpperOfPlain(marker);
  }

  lemma EnvelopeSeen(prodId: string, stamp: string, events: seq<Event>, tail: seq<string>)
    requires AllPrintable(events)
    ensures var lines := CalendarLines(prodId, stamp, events) + tail;
            Saw(lines, BEGIN_CALENDAR) && Saw(lines, END_CALENDAR)
  {
    hide Saw, AllEventLines, EscapeText;
    var lines := CalendarLines(prodId, stamp, events) + tail;
    var n := |CalendarLines(prodId, stamp, events)|;
    SawAt(lines, 0, BEGIN_CALENDAR);
    SawAt(lines, n - 1, END_CALENDAR);
  }

  /**
   * What the parser makes of an exported feed, for every list of events with real dates in order: no
   * foreign zone, and each event with its UID escaped and trimmed, the ones left without a UID dropped.
   */
  lemma ExportReadsBack(prodId: string, stamp: string, events: seq<Event>, zone: Zone)
    requires AllValid(events) && NoBreaks(stamp)
    ensures AllPrintable(events)
    ensures Parse(Body(CalendarLines(prodId, stamp, events)), Some(zone)) == Parsed(ReadBackAll(events), [])
  {
    hide Unfold, Saw, ScanLines, CalendarLines, Body, ValidDates, Printable, ReadBackAll;
    ValidIsPrintable(events);
    CalendarLinesClean(prodId, stamp, events);
    UnfoldBody(CalendarLines(prodId, stamp, events));
    EnvelopeSeen(prodId, stamp, events, [""]);
    CalendarReadsBack(prodId, stamp, events, [""], zone);
  }

  // ---- Exactly which UIDs survive -------------------------------------------------------------------

  /** Something visible at both ends, nothing that escaping would touch. */
  predicate CleanUid(uid: string) {
    uid != "" && Trimmed(uid) && Plainly(uid)
  }

  /** t starts and ends visibly whenever s does. */
  predicate KeepsEnds(s: string, t: string) {
    && (s == "" <==> t == "")
    && (s != "" && !IsSpace(s[0]) ==> !IsSpace(t[0]))
    && (s != "" && !IsSpace(s[|s| - 1]) ==> !IsSpace(t[|t| - 1]))
  }

  lemma {:induction false} ReplaceKeepsEnds(s: string, c: char)
    requires !IsSpace(c)
    ensures KeepsEnds(s, ReplaceAll(s, c, ['\\', c]))
  {
    if s != "" {
      ReplaceKeepsEnds(s[1..], c);
    }
  }

  lemma KeepsEndsJoin(a: string, b: string, s: string, t: string)
    requires a != "" && b != "" && KeepsEnds(a, b) && KeepsEnds(s, t)
    ensures KeepsEnds(a + s, b + t)
  {
    hide IsSpace;
  }

  lemma VisibleEnds(s: string)
    requires s != ""
    ensures KeepsEnds(s, "\\n") && KeepsEnds(s, s)
  {
    assert !IsSpace('\\') && !IsSpace('n');
  }

  lemma {:induction false} EscapeBreaksKeepsEnds(s: string)
    ensures KeepsEnds(s, EscapeBreaks(s))
    decreases |s|
  {
    hide IsSpace;
    if |s| >= 2 && s[0] == '\r' && s[1] == '\n' {
      EscapeBreaksKeepsEnds(s[2..]);
      VisibleEnds(s[..2]);
      KeepsEndsJoin(s[..2], "\\n", s[2..], EscapeBreaks(s[2..]));
      assert s == s[..2] + s[2..];
    } else if s != "" {
      EscapeBreaksKeepsEnds(s[1..]);
      VisibleEnds([s[0]]);
      var b := if IsBreak(s[0]) then "\\n" else [s[0]];
      KeepsEndsJoin([s[0]], b, s[1..], EscapeBreaks(s[1..]));
      assert s == [s[0]] + s[1..];
    }
  }

  lemma EscapeKeepsTrimmed(s: string)
    requires s != "" && Trimmed(s)
    ensures Trim(EscapeText(s)) == EscapeText(s)
  {
    hide ReplaceAll, EscapeBreaks, Trim;
    var a := ReplaceAll(s, '\\', "\\\\");
    var b := ReplaceAll(a, ';', "\\;");
    var c := ReplaceAll(b, ',', "\\,");
    ReplaceKeepsEnds(s, '\\');
    ReplaceKeepsEnds(a, ';');
    ReplaceKeepsEnds(b, ',');
    EscapeBreaksKeepsEnds(c);
    TrimIsTrimmed(EscapeText(s));
  }

  lemma ReadsBackItselfIff(e: Event)
    ensures ReadBack(e) == [e] <==> CleanUid(e.uid)
  {
    hide EscapeText, Trim, Plainly;
    var uid := e.uid;
    EscapeIsIdentityIff(uid);
    TrimIsTrimmed(EscapeText(uid));
    if uid != "" && Trimmed(uid) {
      EscapeKeepsTrimmed(uid);
    }
    if ReadBack(e) == [e] {
      assert ReadBack(e)[0].uid == uid;
    }
  }

  lemma {:induction false} ReadBackShrinks(events: seq<Event>)
    ensures |ReadBackAll(events)| <= |events|
  {
    hide EscapeText, Trim;
    if events != [] {
      ReadBackShrinks(events[..|events| - 1]);
    }
  }

  lemma {:induction false} AllReadBackIff(events: seq<Event>)
    ensures ReadBackAll(events) == events <==> forall i | 0 <= i < |events| :: CleanUid(events[i].uid)
  {
    hide EscapeText, Trim, CleanUid;
    if events != [] {
      var n := |events| - 1;
      var init, last := events[..n], events[n];
      AllReadBackIff(init);
      ReadBackShrinks(init);
      ReadsBackItselfIff(last);
      assert events == init + [last];
      if ReadBackAll(events) == events {
        assert |ReadBack(last)| == 1;
        assert ReadBackAll(events)[n] == last;
        assert ReadBackAll(events)[..n] == ReadBackAll(init);
      }
      assert (forall i | 0 <= i < |events| :: CleanUid(events[i].uid)) <==>
             (forall i | 0 <= i < |init| :: CleanUid(init[i].uid)) && CleanUid(last.uid);
    }
  }

  /**
   * Round trip. For events with real dates in order, parsing the export returns the same events in the
   * same order exactly when every UID is non-empty, trimmed and free of backslash, semicolon, comma, CR
   * and LF. The parser does not unescape TEXT, so any other UID comes back changed or not at all.
   */
  lemma RoundTripIff(prodId: string, stamp: string, events: seq<Event>, zone: Zone)
    requires AllValid(events) && NoBreaks(stamp)
    ensures AllPrintable(events)
    ensures Parse(Body(CalendarLines(prodId, stamp, events)), Some(zone)) == Parsed(events, [])
            <==> forall i | 0 <= i < |events| :: CleanUid(events[i].uid)
  {
    hide *;
    ExportReadsBack(prodId, stamp, events, zone);
    AllReadBackIff(events);
  }

  // ---- Truncation -----------------------------------------------------------------------------------

  /** No prefix of the line can be taken for the end of the calendar. */
  ghost predicate NeverEnds(l: string) {
    forall q: string | q <= l :: Upper(Trim(q)) != END_CALENDAR
  }

  lemma VisibleHeadNeverEnds(l: string)
    requires l != "" && !IsSpace(l[0]) && UpperChar(l[0])[0] != 'E'
    ensures NeverEnds(l)
  {
    forall q: string | q <= l
      ensures Upper(Trim(q)) != END_CALENDAR
    {
      if q == "" {
        assert Trim(q) == "";
      } else {
        TrimKeepsHead(q);
        UpperHead(Trim(q));
      }
    }
  }

  lemma ShortPlainNeverEnds(l: string)
    requires PlainUpper(l) && (|l| < |END_CALENDAR| || l == END_CALENDAR)
    ensures forall q: string | q <= l && q != END_CALENDAR :: Upper(Trim(q)) != END_CALENDAR
  {
    forall q: string | q <= l && q != END_CALENDAR
      ensures Upper(Trim(q)) != END_CALENDAR
    {
      UpperOfPlain(q);
    }
  }

  lemma EventLinesNeverEnd(e: Event, stamp: string)
    requires Printable(e)
    ensures forall i | 0 <= i < 8 :: NeverEnds(EventLines(e, stamp)[i])
  {
    hide NeverEnds, EscapeText, FormatDate;
    var ls := EventLines(e, stamp);
    ShortPlainNeverEnds(ls[7]);
    EndEventNeverEnds();
    forall i | 0 <= i < 7
      ensures NeverEnds(ls[i])
    {
      VisibleHeadNeverEnds(ls[i]);
    }
  }

  lemma EndEventNeverEnds()
    ensures NeverEnds("END:VEVENT")
  {
    ShortPlainNeverEnds("END:VEVENT");
    assert forall q: string | q <= "END:VEVENT" :: |q| <= 10;
  }

  lemma {:induction false} AllEventLinesNeverEnd(events: seq<Event>, stamp: string)
    requires AllPrintable(events)
    ensures forall i | 0 <= i < |AllEventLines(events, stamp)| :: NeverEnds(AllEventLines(events, stamp)[i])
  {
    hide NeverEnds, EventLines;
    if events != [] {
      AllEventLinesNeverEnd(events[..|events| - 1], stamp);
      EventLinesNeverEnd(events[|events| - 1], stamp);
      assert |EventLines(events[|events| - 1], stamp)| == 8 by {
        EightLines(events[|events| - 1], stamp);
      }
    }
  }

  lemma EightLines(e: Event, stamp: string)
    requires Printable(e)
    ensures |EventLines(e, stamp)| == 8
  {
  }

  lemma HeaderNeverEnds(prodId: string)
    ensures forall i | 0 <= i < |Header(prodId)| :: NeverEnds(Header(prodId)[i])
  {
    hide NeverEnds, EscapeText;
    var ls := Header(prodId);
    forall i | 0 <= i < |ls|
      ensures NeverEnds(ls[i])
    {
      VisibleHeadNeverEnds(ls[i]);
    }
  }

  /** Every line but the last. */
  function InnerLines(prodId: string, stamp: string, events: seq<Event>): seq<string>
    requires AllPrintable(events)
  {
    Header(prodId) + AllEventLines(events, stamp)
  }

  lemma InnerLinesNeverEnd(prodId: string, stamp: string, events: seq<Event>)
    requires AllPrintable(events)
    ensures forall l | l in InnerLines(prodId, stamp, events) :: NeverEnds(l)
  {
    hide NeverEnds, Header, AllEventLines;
    HeaderNeverEnds(prodId);
    AllEventLinesNeverEnd(events, stamp);
  }

  lemma NotSeen(lines: seq<string>, q: string, stub: seq<string>)
    requires (forall l | l in lines :: NeverEnds(l)) && Upper(Trim(q)) != END_CALENDAR && (stub == [] || stub == [""])
    ensures !Saw(lines + [q] + stub, END_CALENDAR)
  {
    var all := lines + [q] + stub;
    forall i | 0 <= i < |all|
      ensures Upper(Trim(all[i])) != END_CALENDAR
    {
      if i < |lines| {
        assert all[i] in lines && all[i] <= all[i];
      } else if i > |lines| {
        assert Trim("") == "";
      }
    }
  }

  /** A cut that does not reach the last line leaves no end of calendar. */
  lemma CutInside(lines: seq<string>, k: nat)
    requires CleanLines(lines) && (forall l | l in lines :: NeverEnds(l)) && k < |Body(lines)|
    ensures !Saw(Unfold(Body(lines)[..k]), END_CALENDAR)
  {
    hide Body, Unfold, Saw, Upper, Trim;
    var j, q, stub := UnfoldCut(lines, k);
    assert lines[j] in lines;
    assert NeverEnds(lines[j]);
    assert forall l | l in lines[..j] :: l in lines;
    NotSeen(lines[..j], q, stub);
  }

  /** How the last line and its break unfold when only their first m characters arrived. */
  lemma CutClosing(m: nat) returns (q: string, stub: seq<string>)
    requires m <= 15
    ensures var rest := ("END:VCALENDAR" + CRLF)[..m];
            && FreshStart(rest) && FreshStart(DropFolds(rest))
            && SplitBreaks(DropLooseFolds(DropFolds(rest))) == [q] + stub
            && (stub == [] || stub == [""])
            && q == "END:VCALENDAR"[..if m <= 13 then m else 13]
  {
    hide SplitBreaks, DropLooseFolds;
    var whole := "END:VCALENDAR";
    var rest := (whole + CRLF)[..m];
    q := whole[..if m <= 13 then m else 13];
    var tail := rest[|q|..];
    assert NoBreaks(whole);
    assert rest == q + tail;
    assert tail == CRLF[..m - |q|];
    assert CRLF[..0] == "" && CRLF[..1] == "\r" && CRLF[..2] == "\r\n";
    DropFoldsSkips(q, tail);
    StubHasNoFold(tail);
    stub := SplitCut(q, tail);
  }

  /** What a prefix that reaches into the last line unfolds to. */
  lemma UnfoldToClosing(inner: seq<string>, m: nat) returns (q: string, stub: seq<string>)
    requires CleanLines(inner) && m <= 15
    ensures Unfold(Body(inner) + ("END:VCALENDAR" + CRLF)[..m]) == inner + [q] + stub
    ensures (stub == [] || stub == [""]) && q == "END:VCALENDAR"[..if m <= 13 then m else 13]
  {
    hide Body, DropFolds, DropLooseFolds, SplitBreaks, Unfold;
    q, stub := CutClosing(m);
    UnfoldThen(inner, ("END:VCALENDAR" + CRLF)[..m]);
    assert inner + ([q] + stub) == inner + [q] + stub;
  }

  lemma BodySplits(prodId: string, stamp: string, events: seq<Event>)
    requires AllPrintable(events)
    ensures Body(CalendarLines(prodId, stamp, events))
         == Body(InnerLines(prodId, stamp, events)) + ("END:VCALENDAR" + CRLF)
  {
    hide Header, AllEventLines, Fold;
    BodyConcat(InnerLines(prodId, stamp, events), ["END:VCALENDAR"]);
    assert Body(["END:VCALENDAR"]) == "END:VCALENDAR" + CRLF by {
      ClosingIsShort();
      assert ["END:VCALENDAR"][1..] == [];
    }
  }

  lemma ClosingIsShort()
    ensures Fold("END:VCALENDAR") == "END:VCALENDAR"
  {
    hide Octets, Pieces;
    OctetsAtMost("END:VCALENDAR");
  }

  lemma {:induction false} OctetsAtMost(s: string)
    ensures Octets(s) <= 4 * |s|
  {
    if s != "" {
      OctetsAtMost(s[..|s| - 1]);
    }
  }

  /**
   * Truncation safety. Cut an exported feed after any k characters: short of the whole last line it is
   * refused, and from there on it parses exactly as the complete feed does. No cut yields a part of the
   * events. Holds for every prodId, every UID and every date the printer accepts.
   */
  lemma TruncationSafe(prodId: string, stamp: string, events: seq<Event>, k: nat, zone: Zone)
    requires AllPrintable(events) && NoBreaks(stamp)
    requires k <= |Body(CalendarLines(prodId, stamp, events))|
    ensures var body := Body(CalendarLines(prodId, stamp, events));
            Parse(body[..k], Some(zone)) ==
            if k + 2 < |body| then NotTerminated else Parse(body, Some(zone))
  {
    hide Body, Unfold, Saw, ScanLines, Header, AllEventLines, Printable, Upper, Trim;
    var body := Body(CalendarLines(prodId, stamp, events));
    var inner := InnerLines(prodId, stamp, events);
    CalendarLinesClean(prodId, stamp, events);
    assert CleanLines(inner) by {
      assert forall i | 0 <= i < |inner| :: inner[i] == CalendarLines(prodId, stamp, events)[i];
    }
    InnerLinesNeverEnd(prodId, stamp, events);
    BodySplits(prodId, stamp, events);
    if k < |Body(inner)| {
      CutInside(inner, k);
      assert body[..k] == Body(inner)[..k];
    } else {
      var m := k - |Body(inner)|;
      assert body[..k] == Body(inner) + ("END:VCALENDAR" + CRLF)[..m];
      var q, stub := UnfoldToClosing(inner, m);
      if m < 13 {
        ShortPlainNeverEnds("END:VCALENDAR");
        NotSeen(inner, q, stub);
      } else {
        assert "END:VCALENDAR"[..13] == "END:VCALENDAR";
        ParsesAsWhole(prodId, stamp, events, body[..k], stub, zone);
        var q', stub' := UnfoldToClosing(inner, 15);
        assert body == Body(inner) + ("END:VCALENDAR" + CRLF)[..15];
        ParsesAsWhole(prodId, stamp, events, body, stub', zone);
      }
    }
  }

  lemma ParsesAsWhole(prodId: string, stamp: string, events: seq<Event>, text: string, stub: seq<string>, zone: Zone)
    requires AllPrintable(events) && (stub == [] || stub == [""])
    requires Unfold(text) == InnerLines(prodId, stamp, events) + ["END:VCALENDAR"] + stub
    ensures var st := ScanLines(START, CalendarLines(prodId, stamp, events), zone);
            Parse(text, Some(zone)) == Parsed(st.events, st.foreign)
  {
    hide Unfold, Saw, ScanLines, Header, AllEventLines, Printable, Step;
    var lines := CalendarLines(prodId, stamp, events);
    assert Unfold(text) == lines + stub;
    EnvelopeSeen(prodId, stamp, events, stub);
    ScanConcat(START, lines, stub, zone);
    EmptyLineSkipped(ScanLines(START, lines, zone), stub, zone);
  }

  lemma EmptyLineSkipped(st: Scan, stub: seq<string>, zone: Zone)
    requires stub == [] || stub == [""]
    ensures ScanLines(st, stub, zone) == st
  {
    if stub == [""] {
      assert SplitLine("") == None;
      ScanOne(st, "", zone);
    }
  }
}
