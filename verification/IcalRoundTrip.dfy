/**
 * What the parser makes of what the printer wrote, whole or cut short, and of anything at all.
 */
module IcalRoundTrip {
  import opened Options
  import opened Calendar
  import opened Text
  import opened IcalExport
  import opened IcalParse
  import opened IcalUnfold

  // ---- Escaping -------------------------------------------------------------------------------------

  predicate Special(c: char) {
    c == '\\' || c == ';' || c == ',' || IsBreak(c)
  }

  predicate Plainly(s: string) {
    forall i | 0 <= i < |s| :: !Special(s[i])
  }

  lemma {:induction false} ReplaceNothing(s: string, c: char, r: string)
    requires forall i | 0 <= i < |s| :: s[i] != c
    ensures ReplaceAll(s, c, r) == s
  {
    if s != "" {
      ReplaceNothing(s[1..], c, r);
    }
  }

  lemma {:induction false} NoBreaksToEscape(s: string)
    requires NoBreaks(s)
    ensures EscapeBreaks(s) == s
  {
    if s != "" {
      NoBreaksToEscape(s[1..]);
    }
  }

  /** Text without special characters is printed as it is. */
  lemma PlainTextUnescaped(s: string)
    requires Plainly(s)
    ensures EscapeText(s) == s
  {
    hide ReplaceAll, EscapeBreaks;
    assert forall i | 0 <= i < |s| :: !Special(s[i]);
    ReplaceNothing(s, '\\', "\\\\");
    ReplaceNothing(s, ';', "\\;");
    ReplaceNothing(s, ',', "\\,");
    NoBreaksToEscape(s);
  }

  lemma {:induction false} EscapeBreaksLeavesNone(s: string)
    ensures NoBreaks(EscapeBreaks(s))
    decreases |s|
  {
    if s != "" {
      EscapeBreaksLeavesNone(s[1..]);
      if |s| >= 2 {
        EscapeBreaksLeavesNone(s[2..]);
      }
    }
  }

  /** Escaped text never breaks its line. */
  lemma EscapedHasNoBreaks(s: string)
    ensures NoBreaks(EscapeText(s))
  {
    hide ReplaceAll, EscapeBreaks;
    EscapeBreaksLeavesNone(ReplaceAll(ReplaceAll(ReplaceAll(s, '\\', "\\\\"), ';', "\\;"), ',', "\\,"));
  }

  lemma {:induction false} ReplaceGrows(s: string, c: char, r: string)
    requires |r| == 2
    ensures |ReplaceAll(s, c, r)| >= |s|
    ensures (exists i | 0 <= i < |s| :: s[i] == c) ==> |ReplaceAll(s, c, r)| > |s|
    ensures s == "" <==> ReplaceAll(s, c, r) == ""
  {
    if s != "" {
      ReplaceGrows(s[1..], c, r);
      if exists i | 0 <= i < |s| :: s[i] == c {
        var i :| 0 <= i < |s| && s[i] == c;
        if i > 0 {
          assert s[1..][i - 1] == c;
        }
      }
    }
  }

  lemma {:induction false} EscapeBreaksGrows(s: string)
    ensures |EscapeBreaks(s)| >= |s|
    decreases |s|
  {
    if s != "" {
      EscapeBreaksGrows(s[1..]);
      if |s| >= 2 {
        EscapeBreaksGrows(s[2..]);
      }
    }
  }

  /** Escaping changes exactly the texts that carry a special character. */
  lemma EscapeIsIdentityIff(s: string)
    ensures EscapeText(s) == s <==> Plainly(s)
    ensures |EscapeText(s)| >= |s|
  {
    hide ReplaceAll, EscapeBreaks;
    var a := ReplaceAll(s, '\\', "\\\\");
    var b := ReplaceAll(a, ';', "\\;");
    var c := ReplaceAll(b, ',', "\\,");
    ReplaceGrows(s, '\\', "\\\\");
    ReplaceGrows(a, ';', "\\;");
    ReplaceGrows(b, ',', "\\,");
    EscapeBreaksGrows(c);
    EscapedHasNoBreaks(s);
    if Plainly(s) {
      PlainTextUnescaped(s);
    }
    if EscapeText(s) == s {
      assert forall i | 0 <= i < |s| :: s[i] != '\\';
      ReplaceNothing(s, '\\', "\\\\");
      assert forall i | 0 <= i < |s| :: s[i] != ';';
      ReplaceNothing(s, ';', "\\;");
      assert forall i | 0 <= i < |s| :: s[i] != ',';
      assert Plainly(s);
    }
  }

  // ---- The printed lines are clean ------------------------------------------------------------------

  lemma FormattedDateHasNoBreaks(iso: string)
    requires IsoShape(iso)
    ensures var d := FormatDate(iso).value;
            |d| == 8 && NoBreaks(d) && IsCompact(d) && CompactToIso(d) == iso
  {
    var d := FormatDate(iso).value;
    assert d[..4] == iso[..4] && d[4..6] == iso[5..7] && d[6..8] == iso[8..];
    assert iso == iso[..4] + "-" + iso[5..7] + "-" + iso[8..];
    assert d == d[..4] + d[4..6] + d[6..8];
  }

  lemma EventLinesClean(e: Event, stamp: string)
    requires Printable(e) && NoBreaks(stamp)
    ensures CleanLines(EventLines(e, stamp))
  {
    hide EscapeText, FormatDate;
    EscapedHasNoBreaks(e.uid);
    EscapedHasNoBreaks(EVENT_SUMMARY);
    FormattedDateHasNoBreaks(e.start);
    FormattedDateHasNoBreaks(e.end);
  }

  lemma {:induction false} AllEventLinesClean(events: seq<Event>, stamp: string)
    requires AllPrintable(events) && NoBreaks(stamp)
    ensures CleanLines(AllEventLines(events, stamp))
  {
    hide EventLines;
    if events != [] {
      AllEventLinesClean(events[..|events| - 1], stamp);
      EventLinesClean(events[|events| - 1], stamp);
    }
  }

  lemma HeaderClean(prodId: string)
    ensures CleanLines(Header(prodId))
  {
    hide EscapeText;
    EscapedHasNoBreaks(prodId);
  }

  lemma CalendarLinesClean(prodId: string, stamp: string, events: seq<Event>)
    requires AllPrintable(events) && NoBreaks(stamp)
    ensures CleanLines(CalendarLines(prodId, stamp, events))
  {
    hide Header, AllEventLines;
    HeaderClean(prodId);
    AllEventLinesClean(events, stamp);
    assert CleanLine("END:VCALENDAR");
  }

  /** No physical line of an exported feed is longer than 75 octets (section 3.1 of RFC 5545). */
  lemma ExportedLinesFit(prodId: string, stamp: string, events: seq<Event>)
    requires AllPrintable(events) && NoBreaks(stamp)
    ensures forall p | p in SplitBreaks(Body(CalendarLines(prodId, stamp, events))) :: Octets(p) <= 75
  {
    hide *;
    CalendarLinesClean(prodId, stamp, events);
    LinesFit(CalendarLines(prodId, stamp, events));
  }

  // ---- Reading the printed lines back ---------------------------------------------------------------

  lemma {:induction false} FindAfter(a: string, c: char, b: string)
    requires forall i | 0 <= i < |a| :: a[i] != c
    ensures Find(a + [c] + b, c) == |a|
    ensures Find(a, c) == |a|
  {
    if a == "" {
      assert (a + [c] + b)[0] == c;
    } else {
      FindAfter(a[1..], c, b);
      assert (a + [c] + b)[1..] == a[1..] + [c] + b;
    }
  }

  predicate Letters(s: string) {
    forall i | 0 <= i < |s| :: 'A' <= s[i] <= 'Z'
  }

  /** A line whose part before the colon has the given name and names no zone. */
  lemma SplitNamedLine(left: string, name: string, value: string)
    requires Letters(name) && Find(left, ':') == |left|
    requires Find(left, ';') == |name| && left[..|name|] == name
    requires |name| == |left| || FindTzid(left) == None
    ensures SplitLine(left + ":" + value) == Some(Content(name, None, value))
  {
    hide Upper, Trim, FindTzid, Find;
    var line := left + ":" + value;
    FindAfter(left, ':', value);
    assert line[..|left|] == left && line[|left| + 1..] == value;
    UpperOfPlain(name);
  }

  /** `NAME:value` */
  lemma SplitPlainLine(name: string, value: string)
    requires Letters(name)
    ensures SplitLine(name + ":" + value) == Some(Content(name, None, value))
  {
    hide Find, SplitLine, FindTzid;
    FindAfter(name, ':', "");
    FindAfter(name, ';', "");
    assert name[..|name|] == name;
    SplitNamedLine(name, name, value);
  }

  lemma {:induction false} NoTzid(s: string)
    requires forall i | 0 <= i < |s| - 1 && s[i] == ';' :: !EqualFold(s[i + 1], 'T')
    ensures FindTzid(s) == None
  {
    if s != "" {
      NoTzid(s[1..]);
    }
  }

  lemma DateParameter(name: string)
    requires Letters(name)
    ensures var left := name + ";VALUE=DATE";
            Find(left, ':') == |left| && Find(left, ';') == |name| && left[..|name|] == name && FindTzid(left) == None
  {
    hide Find, FindTzid;
    var left := name + ";VALUE=DATE";
    FindAfter(left, ':', "");
    assert left == name + ";" + "VALUE=DATE";
    FindAfter(name, ';', "VALUE=DATE");
    NoTzid(left);
  }

  /** `NAME;VALUE=DATE:value` */
  lemma SplitDateLine(name: string, value: string)
    requires Letters(name)
    ensures SplitLine(name + ";VALUE=DATE:" + value) == Some(Content(name, None, value))
  {
    hide Find, SplitLine, FindTzid;
    var left := name + ";VALUE=DATE";
    DateParameter(name);
    SplitNamedLine(left, name, value);
    assert name + ";VALUE=DATE:" + value == left + ":" + value;
  }

  /** A line the scan looks at and passes over. */
  lemma SkipLine(st: Scan, name: string, value: string, zone: Zone)
    requires Letters(name) && name != "BEGIN" && name != "END" && !Tracked(name)
    ensures Step(st, name + ":" + value, zone) == st
  {
    hide SplitLine;
    SplitPlainLine(name, value);
  }

  lemma OpenLine(st: Scan, zone: Zone)
    ensures Step(st, "BEGIN:VEVENT", zone) == st.(current := Some(map[]))
  {
    hide SplitLine, Upper, Trim;
    assert "BEGIN:VEVENT" == "BEGIN" + ":" + "VEVENT";
    SplitPlainLine("BEGIN", "VEVENT");
    UpperOfPlain("VEVENT");
  }

  lemma CloseLine(st: Scan, zone: Zone)
    requires st.current.Some?
    ensures var e := ToEvent(st.current.value, zone);
            Step(st, "END:VEVENT", zone) == Scan(None, if e.Some? then st.events + [e.value] else st.events, st.foreign)
  {
    hide SplitLine, Upper, Trim, ToEvent;
    assert "END:VEVENT" == "END" + ":" + "VEVENT";
    SplitPlainLine("END", "VEVENT");
    UpperOfPlain("VEVENT");
  }

  lemma UidLine(st: Scan, value: string, zone: Zone)
    requires st.current == Some(map[])
    ensures Step(st, "UID:" + value, zone) == st.(current := Some(map["UID" := value]))
  {
    hide SplitLine;
    assert "UID:" + value == "UID" + ":" + value;
    SplitPlainLine("UID", value);
  }

  lemma StampLine(st: Scan, value: string, zone: Zone)
    ensures Step(st, "DTSTAMP:" + value, zone) == st
  {
    hide Step;
    assert "DTSTAMP:" + value == "DTSTAMP" + ":" + value;
    SkipLine(st, "DTSTAMP", value, zone);
  }

  lemma StartLine(st: Scan, uid: string, value: string, zone: Zone)
    requires st.current == Some(map["UID" := uid])
    ensures Step(st, "DTSTART;VALUE=DATE:" + value, zone) == st.(current := Some(map["UID" := uid, "DTSTART" := value]))
  {
    hide SplitLine;
    assert "DTSTART;VALUE=DATE:" + value == "DTSTART" + ";VALUE=DATE:" + value;
    SplitDateLine("DTSTART", value);
  }

  lemma EndLine(st: Scan, uid: string, start: string, value: string, zone: Zone)
    requires st.current == Some(map["UID" := uid, "DTSTART" := start])
    ensures Step(st, "DTEND;VALUE=DATE:" + value, zone)
         == st.(current := Some(map["UID" := uid, "DTSTART" := start, "DTEND" := value]))
  {
    hide SplitLine;
    assert "DTEND;VALUE=DATE:" + value == "DTEND" + ";VALUE=DATE:" + value;
    SplitDateLine("DTEND", value);
  }

  lemma SummaryAndTransp(st: Scan, summary: string, zone: Zone)
    ensures Step(st, "SUMMARY:" + summary, zone) == st && Step(st, "TRANSP:OPAQUE", zone) == st
  {
    hide Step;
    assert "SUMMARY:" + summary == "SUMMARY" + ":" + summary;
    SkipLine(st, "SUMMARY", summary, zone);
    assert "TRANSP:OPAQUE" == "TRANSP" + ":" + "OPAQUE";
    SkipLine(st, "TRANSP", "OPAQUE", zone);
  }

  lemma ScanOne(st: Scan, line: string, zone: Zone)
    ensures ScanLines(st, [line], zone) == Step(st, line, zone)
  {
    hide Step;
    assert [line][..0] == [];
  }

  lemma {:induction false} ScanConcat(st: Scan, a: seq<string>, b: seq<string>, zone: Zone)
    ensures ScanLines(st, a + b, zone) == ScanLines(ScanLines(st, a, zone), b, zone)
  {
    hide Step;
    if b == [] {
      assert a + b == a;
    } else {
      ScanConcat(st, a, b[..|b| - 1], zone);
      assert (a + b)[..|a + b| - 1] == a + b[..|b| - 1];
    }
  }

  /** A DATE value of a date that exists reads back as that date, in every zone. */
  lemma DateReadsBack(iso: string, zone: Zone)
    requires RealIso(iso)
    ensures ToIsoDate(FormatDate(iso).value, zone) == Some(iso)
  {
    hide CivilOf, MakeDay, FormatDate, CompactToIso;
    var d := FormatDate(iso).value;
    FormattedDateHasNoBreaks(iso);
    CompactStartsVisible(d);
    var c := CompactCivil(d);
    assert c == ReadIso(iso);
    RoundTripAcceptsRealDates(c.year, c.month, c.day);
  }

  lemma CompactStartsVisible(d: string)
    requires IsCompact(d)
    ensures TrimStart(d) == d
  {
    assert d[..4][0] == d[0];
  }

  /** The event the parser finds where e was printed: none when nothing visible is left of its UID. */
  function ReadBack(e: Event): seq<Event> {
    var uid := Trim(EscapeText(e.uid));
    if uid == "" then [] else [e.(uid := uid)]
  }

  /** Real dates in order: what every stored booking has. */
  predicate ValidDates(e: Event) {
    RealIso(e.start) && RealIso(e.end) && Less(e.start, e.end)
  }

  lemma FieldsReadBack(e: Event, zone: Zone)
    requires ValidDates(e)
    ensures var found := ToEvent(map["UID" := EscapeText(e.uid), "DTSTART" := FormatDate(e.start).value,
                                     "DTEND" := FormatDate(e.end).value], zone);
            ReadBack(e) == if found.Some? then [found.value] else []
  {
    hide EscapeText, FormatDate, ToIsoDate, Trim, Less;
    DateReadsBack(e.start, zone);
    DateReadsBack(e.end, zone);
  }

  lemma EventReadsBack(st: Scan, e: Event, stamp: string, zone: Zone)
    requires ValidDates(e) && st.current == None
    ensures ScanLines(st, EventLines(e, stamp), zone) == Scan(None, st.events + ReadBack(e), st.foreign)
  {
    hide Step, ScanLines, EscapeText, FormatDate, ReadBack, Less, ToEvent, IsoShape;
    var uid, start, end := EscapeText(e.uid), FormatDate(e.start).value, FormatDate(e.end).value;
    var s1 := st.(current := Some(map[]));
    var s2 := s1.(current := Some(map["UID" := uid]));
    var s3 := s2.(current := Some(map["UID" := uid, "DTSTART" := start]));
    var s4 := s3.(current := Some(map["UID" := uid, "DTSTART" := start, "DTEND" := end]));
    OpenLine(st, zone);
    UidLine(s1, uid, zone);
    StampLine(s2, stamp, zone);
    StartLine(s2, uid, start, zone);
    EndLine(s3, uid, start, end, zone);
    SummaryAndTransp(s4, EscapeText(EVENT_SUMMARY), zone);
    CloseLine(s4, zone);
    FieldsReadBack(e, zone);
    ScanEight(st, EventLines(e, stamp), zone);
  }

  lemma ScanEight(st: Scan, ls: seq<string>, zone: Zone)
    requires |ls| == 8
    ensures ScanLines(st, ls, zone) ==
            Step(Step(Step(Step(Step(Step(Step(Step(st, ls[0], zone), ls[1], zone), ls[2], zone), ls[3], zone),
                                ls[4], zone), ls[5], zone), ls[6], zone), ls[7], zone)
  {
    hide Step;
    forall n | 0 <= n < 8
      ensures ScanLines(st, ls[..n + 1], zone) == Step(ScanLines(st, ls[..n], zone), ls[n], zone)
    {
      assert ls[..n + 1][..n] == ls[..n];
    }
    assert ls[..8] == ls;
  }

  // ---- A component nested in an event ---------------------------------------------------------------

  lemma AlarmLines(st: Scan, zone: Zone)
    requires st.current.Some?
    ensures Step(st, "BEGIN:VALARM", zone) == st && Step(st, "END:VALARM", zone) == st
  {
    hide SplitLine, Upper, Trim;
    assert "BEGIN:VALARM" == "BEGIN" + ":" + "VALARM" && "END:VALARM" == "END" + ":" + "VALARM";
    SplitPlainLine("BEGIN", "VALARM");
    SplitPlainLine("END", "VALARM");
    UpperOfPlain("VALARM");
  }

  /** A second start is read over: the first occurrence wins. */
  lemma LaterStartLine(st: Scan, uid: string, first: string, value: string, zone: Zone)
    requires st.current == Some(map["UID" := uid, "DTSTART" := first])
    ensures Step(st, "DTSTART;VALUE=DATE:" + value, zone) == st
  {
    hide SplitLine;
    assert "DTSTART;VALUE=DATE:" + value == "DTSTART" + ";VALUE=DATE:" + value;
    SplitDateLine("DTSTART", value);
  }

  /** An event with an alarm in it, the alarm carrying a date of its own before the event's. */
  function WithAlarm(e: Event, alarm: string): seq<string>
    requires ValidDates(e) && RealIso(alarm)
  {
    ["BEGIN:VEVENT", "UID:" + e.uid,
     "BEGIN:VALARM", "DTSTART;VALUE=DATE:" + FormatDate(alarm).value, "END:VALARM",
     "DTSTART;VALUE=DATE:" + FormatDate(e.start).value, "DTEND;VALUE=DATE:" + FormatDate(e.end).value,
     "END:VEVENT"]
  }

  /** The alarm's date is taken for the event's start, for every alarm before the event's end. */
  lemma AlarmMovesTheEvent(e: Event, alarm: string, zone: Zone)
    requires ValidDates(e) && RealIso(alarm) && Less(alarm, e.end) && Trim(e.uid) != ""
    ensures ScanLines(START, WithAlarm(e, alarm), zone) == Scan(None, [Event(Trim(e.uid), alarm, e.end)], [])
  {
    hide Step, ScanLines, FormatDate, Less, ToIsoDate, IsoShape, Trim;
    var first, start, end := FormatDate(alarm).value, FormatDate(e.start).value, FormatDate(e.end).value;
    var s1 := START.(current := Some(map[]));
    var s2 := s1.(current := Some(map["UID" := e.uid]));
    var s3 := s2.(current := Some(map["UID" := e.uid, "DTSTART" := first]));
    var s4 := s3.(current := Some(map["UID" := e.uid, "DTSTART" := first, "DTEND" := end]));
    OpenLine(START, zone);
    UidLine(s1, e.uid, zone);
    AlarmLines(s2, zone);
    StartLine(s2, e.uid, first, zone);
    AlarmLines(s3, zone);
    LaterStartLine(s3, e.uid, first, start, zone);
    EndLine(s3, e.uid, first, end, zone);
    CloseLine(s4, zone);
    DateReadsBack(alarm, zone);
    DateReadsBack(e.end, zone);
    ScanEight(START, WithAlarm(e, alarm), zone);
  }
}
