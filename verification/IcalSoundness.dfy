/**
 * What any body at all can and cannot make the parser say.
 */
module IcalSoundness {
  import opened Options
  import opened Calendar
  import opened Text
  import opened IcalExport
  import opened IcalParse

  /** An event the importer may trust. */
  predicate Trustworthy(e: Event) {
    e.uid != "" && Trimmed(e.uid) && IsoShape(e.start) && IsoShape(e.end) && Less(e.start, e.end)
  }

  /** The day after a date either is a date or sorts before it. */
  lemma NextDayIsReal(iso: string)
    requires IsoShape(iso)
    ensures Less(iso, AddOneDay(iso)) ==> RealIso(AddOneDay(iso))
  {
    hide CivilOf, MakeDay, Pad;
    var c := ReadIso(iso);
    var y := if c.year <= 99 then 1900 + c.year else c.year;
    var n := CivilOf(MakeDay(y, c.month, c.day + 1));
    assert iso[..4][0] == iso[0];
    if 0 <= n.year <= 9999 {
      IsoOfCivil(n);
    }
  }

  lemma ToEventTrustworthy(fields: Fields, zone: Zone)
    ensures ToEvent(fields, zone).Some? ==> Trustworthy(ToEvent(fields, zone).value)
  {
    hide ToIsoDate, Trim, AddOneDay, IsoShape, Less;
    if ToEvent(fields, zone).Some? {
      TrimIsTrimmed(fields["UID"]);
      var start := ToIsoDate(fields["DTSTART"], zone).value;
      if "DTEND" !in fields {
        NextDayIsReal(start);
      }
    }
  }

  lemma {:induction false} ScanTrustworthy(lines: seq<string>, zone: Zone)
    ensures forall e | e in ScanLines(START, lines, zone).events :: Trustworthy(e)
  {
    hide SplitLine, ToEvent, Trustworthy, Opens, Closes;
    if lines != [] {
      var st := ScanLines(START, lines[..|lines| - 1], zone);
      ScanTrustworthy(lines[..|lines| - 1], zone);
      if st.current.Some? {
        ToEventTrustworthy(st.current.value, zone);
      }
    }
  }

  /**
   * Parser soundness: whatever the body, an accepted feed contains only events with a non-empty trimmed
   * UID, two `YYYY-MM-DD` dates, and the start before the end.
   */
  lemma ParsedIsTrustworthy(body: string, zone: Zone)
    ensures Parse(body, Some(zone)).Parsed? ==> forall e | e in Parse(body, Some(zone)).events :: Trustworthy(e)
  {
    hide Unfold, Saw, ScanLines, Trustworthy;
    ScanTrustworthy(Unfold(body), zone);
  }

  // ---- Lines outside every VEVENT -------------------------------------------------------------------

  predicate OpensLine(line: string) {
    SplitLine(line).Some? && Opens(SplitLine(line).value)
  }

  predicate ClosesLine(line: string) {
    SplitLine(line).Some? && Closes(SplitLine(line).value)
  }

  /** After these lines a VEVENT is open. */
  predicate InsideAfter(lines: seq<string>) {
    lines != [] &&
    var last := lines[|lines| - 1];
    OpensLine(last) || (!ClosesLine(last) && InsideAfter(lines[..|lines| - 1]))
  }

  /** Only the lines from each opening to its closing, both included. */
  function VeventLines(lines: seq<string>): seq<string> {
    if lines == [] then []
    else
      var init, last := lines[..|lines| - 1], lines[|lines| - 1];
      if InsideAfter(init) || OpensLine(last) then VeventLines(init) + [last] else VeventLines(init)
  }

  lemma {:induction false} InsideIsCurrent(lines: seq<string>, zone: Zone)
    ensures InsideAfter(lines) <==> ScanLines(START, lines, zone).current.Some?
  {
    hide SplitLine, ToEvent;
    if lines != [] {
      InsideIsCurrent(lines[..|lines| - 1], zone);
    }
  }

  /** Lines outside every VEVENT contribute nothing: dropping them all leaves the scan as it was. */
  lemma {:induction false} OutsideContributesNothing(lines: seq<string>, zone: Zone)
    ensures ScanLines(START, VeventLines(lines), zone) == ScanLines(START, lines, zone)
  {
    hide SplitLine, ToEvent;
    if lines != [] {
      var init, last := lines[..|lines| - 1], lines[|lines| - 1];
      OutsideContributesNothing(init, zone);
      InsideIsCurrent(init, zone);
      if InsideAfter(init) || OpensLine(last) {
        assert (VeventLines(init) + [last])[..|VeventLines(init)|] == VeventLines(init);
      }
    }
  }

  // ---- Lines that matter ------------------------------------------------------------------------------

  /** A VEVENT delimiter or one of the three collected fields. */
  predicate Matters(line: string) {
    SplitLine(line).Some?
    && (Opens(SplitLine(line).value) || Closes(SplitLine(line).value) || Tracked(SplitLine(line).value.name))
  }

  function Mattering(lines: seq<string>): seq<string> {
    if lines == [] then []
    else
      var init, last := lines[..|lines| - 1], lines[|lines| - 1];
      Mattering(init) + if Matters(last) then [last] else []
  }

  /**
   * Any other line can be dropped anywhere, the delimiters of a component nested in a VEVENT among them: the
   * fields of a nested component are collected as if they were the event's own.
   */
  lemma {:induction false} NestingIsInvisible(st: Scan, lines: seq<string>, zone: Zone)
    ensures ScanLines(st, Mattering(lines), zone) == ScanLines(st, lines, zone)
  {
    hide SplitLine, ToEvent, Opens, Closes, Collect;
    if lines != [] {
      var init, last := lines[..|lines| - 1], lines[|lines| - 1];
      NestingIsInvisible(st, init, zone);
      if Matters(last) {
        assert (Mattering(init) + [last])[..|Mattering(init)|] == Mattering(init);
      } else {
        assert Mattering(lines) == Mattering(init);
      }
    }
  }

  // ---- A component nested in an event -----------------------------------------------------------------

  /** No line opens or closes a VEVENT. */
  ghost predicate Inner(lines: seq<string>) {
    forall l | l in lines :: !OpensLine(l) && !ClosesLine(l)
  }

  /** The value of the first content line of that name. */
  function First(lines: seq<string>, name: string): Option<string> {
    if lines == [] then None
    else
      var before := First(lines[..|lines| - 1], name);
      var last := SplitLine(lines[|lines| - 1]);
      if before.Some? then before
      else if last.Some? && last.value.name == name then Some(last.value.value)
      else None
  }

  /** What an event that has collected `fields` so far holds for a name after the lines. */
  function Collected(fields: Fields, lines: seq<string>, name: string): Option<string> {
    if name in fields then Some(fields[name]) else First(lines, name)
  }

  function Lookup(fields: Fields, name: string): Option<string> {
    if name in fields then Some(fields[name]) else None
  }

  ghost predicate OnlyTracked(fields: Fields) {
    forall name | name in fields :: Tracked(name)
  }

  /** Inside a VEVENT each tracked name keeps the first value it is given. */
  lemma {:induction false} InnerCollects(st: Scan, lines: seq<string>, zone: Zone)
    requires st.current.Some? && Inner(lines) && OnlyTracked(st.current.value)
    ensures var after := ScanLines(st, lines, zone);
            && after.current.Some? && after.events == st.events && OnlyTracked(after.current.value)
            && forall name | Tracked(name) ::
                 Lookup(after.current.value, name) == Collected(st.current.value, lines, name)
  {
    hide SplitLine, Opens, Closes, Tracked;
    if lines != [] {
      var init, last := lines[..|lines| - 1], lines[|lines| - 1];
      assert Inner(init) by {
        assert forall l | l in init :: l in lines;
      }
      InnerCollects(st, init, zone);
      assert last in lines;
    }
  }

  lemma {:induction false} FirstJoins(a: seq<string>, b: seq<string>, name: string)
    ensures First(a + b, name) == if First(a, name).Some? then First(a, name) else First(b, name)
  {
    hide SplitLine;
    if b == [] {
      assert a + b == a;
    } else {
      var n := |b| - 1;
      FirstJoins(a, b[..n], name);
      assert (a + b)[..|a + b| - 1] == a + b[..n];
    }
  }

  /** A nested component gives the event nothing it has not got, and would not get anyway. */
  ghost predicate GivesNothing(fields: Fields, nested: seq<string>, rest: seq<string>) {
    forall name | Tracked(name) && name !in fields ::
      First(nested, name) == None || First(nested, name) == First(rest, name)
  }

  lemma SameFields(a: Fields, b: Fields)
    requires OnlyTracked(a) && OnlyTracked(b)
    ensures a == b <==> forall name | Tracked(name) :: Lookup(a, name) == Lookup(b, name)
  {
    if forall name | Tracked(name) :: Lookup(a, name) == Lookup(b, name) {
      forall name | name in a || name in b
        ensures name in a && name in b && a[name] == b[name]
      {
        assert Lookup(a, name) == Lookup(b, name);
      }
    }
  }

  /**
   * Lines nested in a VEVENT before the rest of it leave what is collected alone exactly when, for each field not
   * collected yet, they carry none or carry the value the rest carries first.
   */
  lemma NestedLeavesFieldsIff(st: Scan, nested: seq<string>, rest: seq<string>, zone: Zone)
    requires st.current.Some? && Inner(nested) && Inner(rest) && OnlyTracked(st.current.value)
    ensures ScanLines(st, nested + rest, zone).current == ScanLines(st, rest, zone).current
            <==> GivesNothing(st.current.value, nested, rest)
  {
    hide ScanLines, SplitLine, First, Tracked, Inner;
    InnerJoins(nested, rest);
    InnerCollects(st, nested + rest, zone);
    InnerCollects(st, rest, zone);
    var fields := st.current.value;
    var a, b := ScanLines(st, nested + rest, zone).current.value, ScanLines(st, rest, zone).current.value;
    SameFields(a, b);
    forall name | Tracked(name)
      ensures Lookup(a, name) == Lookup(b, name) <==>
                name in fields || First(nested, name) == None || First(nested, name) == First(rest, name)
    {
      FirstJoins(nested, rest, name);
    }
  }

  lemma InnerJoins(a: seq<string>, b: seq<string>)
    requires Inner(a) && Inner(b)
    ensures Inner(a + b)
  {
    hide OpensLine, ClosesLine;
  }

  /** The fields collected by the lines between an opening and its closing. */
  function FieldsOf(lines: seq<string>): Fields {
    map name | name in {"UID", "DTSTART", "DTEND"} && First(lines, name).Some? :: First(lines, name).value
  }

  lemma InnerFields(st: Scan, lines: seq<string>, zone: Zone)
    requires Inner(lines) && st.current == Some(map[])
    ensures ScanLines(st, lines, zone).current == Some(FieldsOf(lines))
  {
    hide ScanLines, SplitLine, First, Inner;
    InnerCollects(st, lines, zone);
    var a := ScanLines(st, lines, zone).current.value;
    forall name | Tracked(name)
      ensures Lookup(a, name) == Lookup(FieldsOf(lines), name)
    {
    }
    SameFields(a, FieldsOf(lines));
  }

  /** A VEVENT: its opening line, the lines in it, its closing line. */
  function Vevent(begin: string, lines: seq<string>, end: string): seq<string> {
    [begin] + lines + [end]
  }

  /** A VEVENT adds the one event its fields amount to, or none. */
  lemma VeventScans(st: Scan, begin: string, lines: seq<string>, end: string, zone: Zone)
    requires OpensLine(begin) && ClosesLine(end) && Inner(lines)
    ensures var e := ToEvent(FieldsOf(lines), zone);
            ScanLines(st, Vevent(begin, lines, end), zone).events == st.events + if e.Some? then [e.value] else []
  {
    hide SplitLine, First, ToEvent, FieldsOf, Inner;
    var begun := st.(current := Some(map[]));
    var body := [begin] + lines;
    assert Vevent(begin, lines, end)[..|body|] == body;
    OpeningThen(st, begin, lines, zone);
    InnerCollects(begun, lines, zone);
    InnerFields(begun, lines, zone);
    assert st.events + [] == st.events;
  }

  lemma {:induction false} OpeningThen(st: Scan, begin: string, lines: seq<string>, zone: Zone)
    requires OpensLine(begin)
    ensures ScanLines(st, [begin] + lines, zone) == ScanLines(st.(current := Some(map[])), lines, zone)
  {
    hide SplitLine, ToEvent;
    if lines == [] {
      assert [begin] + lines == [begin] && [begin][..0] == [];
    } else {
      OpeningThen(st, begin, lines[..|lines| - 1], zone);
      assert ([begin] + lines)[..|lines|] == [begin] + lines[..|lines| - 1];
    }
  }

  /** Field by field, what lines nested in the middle of an event change. */
  lemma NestedChangesFieldsIff(before: seq<string>, nested: seq<string>, rest: seq<string>)
    ensures FieldsOf(before + (nested + rest)) == FieldsOf(before + rest) <==>
              GivesNothing(FieldsOf(before), nested, rest)
  {
    hide SplitLine, First;
    forall name
      ensures First(before + (nested + rest), name) == if First(before, name).Some? then First(before, name)
              else if First(nested, name).Some? then First(nested, name) else First(rest, name)
      ensures First(before + rest, name) == if First(before, name).Some? then First(before, name) else First(rest, name)
    {
      FirstJoins(before, nested + rest, name);
      FirstJoins(nested, rest, name);
      FirstJoins(before, rest, name);
    }
    FieldsIff(before + (nested + rest), before + rest);
  }

  /** The UID, start and end as the importer reads them. */
  function UidRead(fields: Fields): string {
    if "UID" in fields then Trim(fields["UID"]) else ""
  }

  function StartRead(fields: Fields, zone: Zone): Option<string> {
    if "DTSTART" in fields then ToIsoDate(fields["DTSTART"], zone) else None
  }

  function EndRead(fields: Fields, zone: Zone): Option<string> {
    if "DTEND" in fields then ToIsoDate(fields["DTEND"], zone)
    else if StartRead(fields, zone).Some? then Some(AddOneDay(StartRead(fields, zone).value))
    else None
  }

  ghost predicate ReadAlike(a: Fields, b: Fields, zone: Zone) {
    UidRead(a) == UidRead(b) && StartRead(a, zone) == StartRead(b, zone) && EndRead(a, zone) == EndRead(b, zone)
  }

  lemma AlikeIff(a: Fields, b: Fields, zone: Zone)
    requires ToEvent(b, zone).Some?
    ensures ToEvent(a, zone) == ToEvent(b, zone) <==> ReadAlike(a, b, zone)
  {
    hide ToIsoDate, AddOneDay, Trim, Less;
  }

  /**
   * A component nested anywhere in an event leaves the events alone whenever it gives none of the three fields first,
   * or only repeats them; and, for an event that would be accepted without it, exactly when the UID, the start and the
   * end are read the same with it.
   */
  lemma NestedLeavesEventIff(st: Scan, begin: string, before: seq<string>, nested: seq<string>, rest: seq<string>,
                             end: string, zone: Zone)
    requires OpensLine(begin) && ClosesLine(end) && Inner(before) && Inner(nested) && Inner(rest)
    ensures var with := ScanLines(st, Vevent(begin, before + (nested + rest), end), zone).events;
            var without := ScanLines(st, Vevent(begin, before + rest, end), zone).events;
            && (GivesNothing(FieldsOf(before), nested, rest) ==> with == without)
            && (ToEvent(FieldsOf(before + rest), zone).Some? ==>
                  (with == without <==>
                     ReadAlike(FieldsOf(before + (nested + rest)), FieldsOf(before + rest), zone)))
  {
    hide ScanLines, SplitLine, First, ToEvent, FieldsOf, Inner, ReadAlike, Vevent, OpensLine, ClosesLine;
    InnerJoins(nested, rest);
    InnerJoins(before, nested + rest);
    InnerJoins(before, rest);
    VeventScans(st, begin, before + (nested + rest), end, zone);
    VeventScans(st, begin, before + rest, end, zone);
    NestedChangesFieldsIff(before, nested, rest);
    var a, b := FieldsOf(before + (nested + rest)), FieldsOf(before + rest);
    if ToEvent(b, zone).Some? {
      AlikeIff(a, b, zone);
      var e := ToEvent(b, zone).value;
      assert (st.events + [e])[|st.events|] == e;
      if ToEvent(a, zone).Some? {
        assert (st.events + [ToEvent(a, zone).value])[|st.events|] == ToEvent(a, zone).value;
      } else {
        assert |st.events + []| != |st.events + [e]|;
      }
    }
  }

  lemma FieldsIff(a: seq<string>, b: seq<string>)
    ensures FieldsOf(a) == FieldsOf(b) <==> forall name | Tracked(name) :: First(a, name) == First(b, name)
  {
    hide SplitLine, First;
    forall name | Tracked(name)
      ensures Lookup(FieldsOf(a), name) == First(a, name) && Lookup(FieldsOf(b), name) == First(b, name)
    {
    }
    SameFields(FieldsOf(a), FieldsOf(b));
  }

  // ---- Which dates are accepted, and which are real ---------------------------------------------------

  /** A UTC value at a time that exists, in seconds from day 0. */
  function InstantOf(value: string): Option<int> {
    var v := TrimStart(value);
    if IsUtc(v) && UtcSecond(v).Some? && Real(CompactCivil(v))
    then Some(DayNumber(CompactCivil(v)) * 86400 + UtcSecond(v).value)
    else None
  }

  /** A value without a UTC time is accepted exactly when its first eight digits are a date that exists: that date. */
  lemma DateAcceptedIff(value: string, zone: Zone)
    requires !IsUtc(TrimStart(value))
    ensures var v := TrimStart(value);
            var r := ToIsoDate(value, zone);
            && (r.Some? <==> IsCompact(v) && Real(CompactCivil(v)))
            && (r.Some? ==> RealIso(r.value) && ReadIso(r.value) == CompactCivil(v))
  {
    hide CivilOf, MakeDay, IsoShape, UtcSecond, LocalDate;
    var v := TrimStart(value);
    if IsCompact(v) {
      var c := CompactCivil(v);
      RoundTripAcceptsRealDates(c.year, c.month, c.day);
    }
  }

  /** A year as the zone's calendar prints it: the year before 0001 is 0001 again, and so on back. */
  function PrintedYear(c: Civil): int {
    if c.year >= 1 then c.year else 1 - c.year
  }

  /** What a UTC value becomes: the fields of its local date, whenever the printed year has four digits. */
  lemma UtcAcceptedIff(value: string, zone: Zone)
    requires IsUtc(TrimStart(value))
    ensures var instant := InstantOf(value);
            var r := ToIsoDate(value, zone);
            && (r.Some? <==> instant.Some? && PrintedYear(LocalCivil(zone, instant.value)) <= 9999)
            && (r.Some? ==>
                  var c := LocalCivil(zone, instant.value);
                  IsoShape(r.value) && ReadIso(r.value) == Civil(PrintedYear(c), c.month, c.day))
  {
    hide CivilOf, MakeDay, DayNumber, UtcSecond, IsoShape, LocalDate, LocalCivil;
    var v := TrimStart(value);
    var c := CompactCivil(v);
    RoundTripAcceptsRealDates(c.year, c.month, c.day);
    if Real(c) {
      MakeDayInYear(c.year, c.month, c.day);
    }
    if InstantOf(value).Some? {
      PrintedDate(zone, InstantOf(value).value);
    }
  }

  lemma PrintedDate(zone: Zone, instant: int)
    ensures var c := LocalCivil(zone, instant);
            var r := LocalDate(zone, instant);
            && (r.Some? <==> PrintedYear(c) <= 9999)
            && (r.Some? ==> IsoShape(r.value) && ReadIso(r.value) == Civil(PrintedYear(c), c.month, c.day))
  {
    hide CivilOf, Pad, Dashed;
    var c := LocalCivil(zone, instant);
    assert Real(c);
    var y := PrintedYear(c);
    if y <= 9999 {
      PadNum(y, 4);
      PadNum(c.month, 2);
      PadNum(c.day, 2);
    }
  }

  /**
   * The one family of values dated by a day that does not exist: a UTC value whose local date is 29 February of a
   * year before 0001, printed as a year that has none.
   */
  predicate FakeLeapDay(value: string, zone: Zone) {
    && InstantOf(value).Some?
    && var c := LocalCivil(zone, InstantOf(value).value);
       c.year <= 0 && c.month == 2 && c.day == 29 && !Leap(1 - c.year)
  }

  /** Whatever the value and the zone, an accepted date exists unless the value is such a leap day. */
  lemma AcceptedDateRealIff(value: string, zone: Zone)
    ensures ToIsoDate(value, zone).Some? ==> (RealIso(ToIsoDate(value, zone).value) <==> !FakeLeapDay(value, zone))
  {
    hide ToIsoDate, LocalCivil, UtcSecond, IsoShape, DayNumber;
    if IsUtc(TrimStart(value)) {
      UtcAcceptedIff(value, zone);
      if InstantOf(value).Some? {
        LocalIsReal(zone, InstantOf(value).value);
      }
    } else {
      DateAcceptedIff(value, zone);
    }
  }

  lemma LocalIsReal(zone: Zone, instant: int)
    ensures Real(LocalCivil(zone, instant))
  {
  }

  /** Year 0 as it is printed. */
  lemma FourDigits()
    ensures Num("0000") == 0 && Num("02") == 2 && Num("29") == 29 && Num("00") == 0 && Num("0001") == 1
  {
    assert "0"[..0] == "" && "02"[..1] == "0" && "29"[..1] == "2" && "2"[..0] == "" && "00"[..1] == "0";
    assert "0000"[..3] == "000" && "000"[..2] == "00" && "0001"[..3] == "000";
    assert Num("0") == 0 && Num("2") == 2 && Num("00") == 0 && Num("000") == 0;
  }

  lemma SameDateSameText(a: string, b: string)
    requires IsoShape(a) && IsoShape(b) && ReadIso(a) == ReadIso(b)
    ensures a == b
  {
    hide Pad, Num;
    NumPad(a[..4]);
    NumPad(a[5..7]);
    NumPad(a[8..]);
    NumPad(b[..4]);
    NumPad(b[5..7]);
    NumPad(b[8..]);
    assert a == a[..4] + "-" + a[5..7] + "-" + a[8..];
    assert b == b[..4] + "-" + b[5..7] + "-" + b[8..];
  }

  const LEAP_DAY := "00000229T000000Z"

  /** Midnight UTC on 29 February of year 0. */
  lemma LeapDayInstant()
    ensures IsUtc(TrimStart(LEAP_DAY)) && InstantOf(LEAP_DAY) == Some(DayNumber(Civil(0, 2, 29)) * 86400)
  {
    hide DayNumber, Num;
    FourDigits();
    var v := LEAP_DAY;
    assert TrimStart(v) == v;
    assert v[..4] == "0000" && v[4..6] == "02" && v[6..8] == "29";
    assert v[9..11] == "00" && v[11..13] == "00" && v[13..15] == "00";
    assert IsCompact(v) && CompactCivil(v) == Civil(0, 2, 29);
    assert UtcSecond(v) == Some(0);
    assert Real(Civil(0, 2, 29));
  }

  /** The family is not empty: that instant is printed, on the UTC calendar, as 29 February 0001. */
  lemma FakeLeapDayExists()
    ensures var utc := Zone("UTC", _ => 0);
            && FakeLeapDay(LEAP_DAY, utc) && ToIsoDate(LEAP_DAY, utc) == Some("0001-02-29")
            && !RealIso("0001-02-29")
  {
    hide CivilOf, DayNumber, Num, InstantOf, ToIsoDate, IsUtc, TrimStart;
    var utc := Zone("UTC", _ => 0);
    LeapDayInstant();
    assert Real(Civil(0, 2, 29));
    CivilOfDay(Civil(0, 2, 29));
    assert LocalCivil(utc, DayNumber(Civil(0, 2, 29)) * 86400) == Civil(0, 2, 29);
    UtcAcceptedIff(LEAP_DAY, utc);
    var text := "0001-02-29";
    assert text[..4] == "0001" && text[5..7] == "02" && text[8..] == "29";
    FourDigits();
    assert IsoShape(text) && ReadIso(text) == Civil(1, 2, 29);
    SameDateSameText(ToIsoDate(LEAP_DAY, utc).value, text);
  }

  /**
   * A UTC value that is accepted is dated by the local day that contains its instant, exactly when that day is in
   * the years 0001 to 9999.
   */
  lemma UtcFallsOnLocalDayIff(value: string, zone: Zone)
    ensures IsUtc(TrimStart(value)) && ToIsoDate(value, zone).Some? ==>
              && InstantOf(value).Some?
              && var local := InstantOf(value).value + zone.offset(InstantOf(value).value);
                 var text := ToIsoDate(value, zone).value;
                 (RealIso(text) && DayOf(text) * 86400 <= local < (DayOf(text) + 1) * 86400
                  <==> YearStart(1) * 86400 <= local < YearStart(10000) * 86400)
  {
    hide ToIsoDate, CivilOf, YearStart, MonthStart, UtcSecond, IsoShape, DayNumber;
    if !IsUtc(TrimStart(value)) || ToIsoDate(value, zone).None? {
      return;
    }
    UtcAcceptedIff(value, zone);
    var instant := InstantOf(value).value;
    var local := instant + zone.offset(instant);
    var n := local / 86400;
    var c := CivilOf(n);
    var printed := Civil(PrintedYear(c), c.month, c.day);
    LocalYear(n);
    assert Real(c) && DayNumber(c) == n;
    if c.year <= 0 && Real(printed) {
      DayInYear(printed);
      if printed.year > 1 {
        YearStartMonotone(1, printed.year);
      }
      assert n < YearStart(1) <= DayNumber(printed);
      assert DayOf(ToIsoDate(value, zone).value) == DayNumber(printed);
    }
  }

  // ---- Every accepted event of any body ---------------------------------------------------------------

  /** A content line of this name and value is among the lines. */
  ghost predicate Carries(lines: seq<string>, name: string, value: string) {
    exists l | l in lines :: SplitLine(l).Some? && SplitLine(l).value.name == name && SplitLine(l).value.value == value
  }

  /** The fields are values of content lines of their names. */
  ghost predicate FromLines(fields: Fields, lines: seq<string>) {
    forall name | name in fields :: Tracked(name) && Carries(lines, name, fields[name])
  }

  ghost predicate Offered(lines: seq<string>, zone: Zone, e: Event) {
    exists fields: Fields :: FromLines(fields, lines) && ToEvent(fields, zone) == Some(e)
  }

  lemma CarriesMore(lines: seq<string>, line: string, name: string, value: string)
    requires Carries(lines, name, value)
    ensures Carries(lines + [line], name, value)
  {
    var l :| l in lines && SplitLine(l).Some? && SplitLine(l).value.name == name && SplitLine(l).value.value == value;
    assert l in lines + [line];
  }

  lemma FromMore(fields: Fields, lines: seq<string>, line: string)
    requires FromLines(fields, lines)
    ensures FromLines(fields, lines + [line])
  {
    hide Carries;
    forall name | name in fields
      ensures Carries(lines + [line], name, fields[name])
    {
      CarriesMore(lines, line, name, fields[name]);
    }
  }

  lemma OfferedMore(lines: seq<string>, line: string, zone: Zone, e: Event)
    requires Offered(lines, zone, e)
    ensures Offered(lines + [line], zone, e)
  {
    hide FromLines, ToEvent;
    var fields: Fields :| FromLines(fields, lines) && ToEvent(fields, zone) == Some(e);
    FromMore(fields, lines, line);
  }

  lemma CollectFrom(st: Scan, lines: seq<string>, line: string, zone: Zone)
    requires st.current.Some? && FromLines(st.current.value, lines)
    requires SplitLine(line).Some? && Tracked(SplitLine(line).value.name)
    ensures Collect(st, SplitLine(line).value, zone).current.Some?
    ensures FromLines(Collect(st, SplitLine(line).value, zone).current.value, lines + [line])
  {
    hide SplitLine;
    var c := SplitLine(line).value;
    FromMore(st.current.value, lines, line);
    assert line in lines + [line];
    assert Carries(lines + [line], c.name, c.value);
  }

  /** The scan makes events of nothing but what the lines say. */
  lemma {:induction false} ScanOffers(lines: seq<string>, zone: Zone)
    ensures forall e | e in ScanLines(START, lines, zone).events :: Offered(lines, zone, e)
    ensures var current := ScanLines(START, lines, zone).current; current.Some? ==> FromLines(current.value, lines)
  {
    hide SplitLine, ToEvent, FromLines, Offered, Opens, Closes, Collect;
    if lines != [] {
      var init, last := lines[..|lines| - 1], lines[|lines| - 1];
      assert lines == init + [last];
      var st := ScanLines(START, init, zone);
      ScanOffers(init, zone);
      forall e | e in st.events
        ensures Offered(lines, zone, e)
      {
        OfferedMore(init, last, zone, e);
      }
      EmptyFrom(lines);
      if st.current.Some? {
        FromMore(st.current.value, init, last);
        OfferedBy(st.current.value, lines, zone);
        if SplitLine(last).Some? && Tracked(SplitLine(last).value.name) {
          CollectFrom(st, init, last, zone);
          CollectEvents(st, SplitLine(last).value, zone);
        }
      }
    }
  }

  lemma EmptyFrom(lines: seq<string>)
    ensures FromLines(map[], lines)
  {
  }

  lemma OfferedBy(fields: Fields, lines: seq<string>, zone: Zone)
    requires FromLines(fields, lines)
    ensures ToEvent(fields, zone).Some? ==> Offered(lines, zone, ToEvent(fields, zone).value)
  {
    hide FromLines, ToEvent;
  }

  lemma CollectEvents(st: Scan, c: Content, zone: Zone)
    requires st.current.Some?
    ensures Collect(st, c, zone).events == st.events
  {
  }

  /** The values an event's dates were read from name no day that does not exist. */
  predicate DatesExist(fields: Fields, zone: Zone)
    requires "DTSTART" in fields
  {
    !FakeLeapDay(fields["DTSTART"], zone) && ("DTEND" in fields ==> !FakeLeapDay(fields["DTEND"], zone))
  }

  /** An accepted event has two dates that exist exactly when the values it came from are not fake leap days. */
  lemma EventRealIff(fields: Fields, zone: Zone)
    ensures ToEvent(fields, zone).Some? ==>
              && "DTSTART" in fields
              && var e := ToEvent(fields, zone).value;
                 (RealIso(e.start) && RealIso(e.end) <==> DatesExist(fields, zone))
  {
    hide ToIsoDate, AddOneDay, Trim, FakeLeapDay, RealIso, Less;
    if ToEvent(fields, zone).None? {
      return;
    }
    AcceptedDateRealIff(fields["DTSTART"], zone);
    if "DTEND" in fields {
      AcceptedDateRealIff(fields["DTEND"], zone);
    } else {
      NextDayIsReal(ToIsoDate(fields["DTSTART"], zone).value);
    }
  }

  /**
   * Whatever the body, each accepted event was read from values of its own lines, and both its dates exist exactly
   * when none of those values is a fake leap day.
   */
  lemma AcceptedEventRealIff(body: string, zone: Zone, e: Event)
    requires Parse(body, Some(zone)).Parsed? && e in Parse(body, Some(zone)).events
    ensures exists fields: Fields ::
              && FromLines(fields, Unfold(body)) && ToEvent(fields, zone) == Some(e) && "DTSTART" in fields
              && (RealIso(e.start) && RealIso(e.end) <==> DatesExist(fields, zone))
  {
    hide Unfold, Saw, ScanLines, FromLines, ToEvent, RealIso, DatesExist;
    ScanOffers(Unfold(body), zone);
    assert Offered(Unfold(body), zone, e);
    var fields: Fields :| FromLines(fields, Unfold(body)) && ToEvent(fields, zone) == Some(e);
    EventRealIff(fields, zone);
  }

  /** No date line of the body carries a fake leap day. */
  ghost predicate NoFakeLeapDays(body: string, zone: Zone) {
    forall l | l in Unfold(body) && SplitLine(l).Some? && Tracked(SplitLine(l).value.name) ::
      !FakeLeapDay(SplitLine(l).value.value, zone)
  }

  /** So a body without such a line yields only events whose dates exist and are in order. */
  lemma AcceptedEventsAreReal(body: string, zone: Zone, e: Event)
    requires Parse(body, Some(zone)).Parsed? && e in Parse(body, Some(zone)).events && NoFakeLeapDays(body, zone)
    ensures RealIso(e.start) && RealIso(e.end) && Less(e.start, e.end)
  {
    hide Unfold, Saw, ScanLines, ToEvent, FakeLeapDay, Less, IsoShape, SplitLine;
    ParsedIsTrustworthy(body, zone);
    AcceptedEventRealIff(body, zone, e);
    var fields: Fields :| FromLines(fields, Unfold(body)) && ToEvent(fields, zone) == Some(e) && "DTSTART" in fields
                          && (RealIso(e.start) && RealIso(e.end) <==> DatesExist(fields, zone));
    assert Carries(Unfold(body), "DTSTART", fields["DTSTART"]);
    assert "DTEND" in fields ==> Carries(Unfold(body), "DTEND", fields["DTEND"]);
  }

  /** The year of a day is at least 0001, or at most 9999, exactly when the day is. */
  lemma LocalYear(n: int)
    ensures CivilOf(n).year >= 1 <==> n >= YearStart(1)
    ensures CivilOf(n).year <= 9999 <==> n < YearStart(10000)
  {
    hide CivilOf, MonthStart;
    var c := CivilOf(n);
    DayInYear(c);
    if c.year < 1 {
      YearStartMonotone(c.year, 1);
    } else if 1 < c.year {
      YearStartMonotone(1, c.year);
    }
    if c.year > 10000 {
      YearStartMonotone(10000, c.year);
    } else if c.year < 10000 {
      YearStartMonotone(c.year, 10000);
    }
  }
}
