/**
 * The iCalendar parser of the import pipeline: which lines a body unfolds to, which of them make up
 * events, and when the whole body is refused.
 */
module IcalParse {
  import opened Options
  import opened Calendar
  import opened Text
  import opened IcalExport

  // ---- Unfolding (section 3.1 of RFC 5545) ----------------------------------------------------------

  predicate IsBlank(c: char) {
    c == ' ' || c == '\t'
  }

  /** `.replace(/\r\n[ \t]/g, '')` */
  function DropFolds(s: string): string {
    if s == "" then ""
    else if |s| >= 3 && s[0] == '\r' && s[1] == '\n' && IsBlank(s[2]) then DropFolds(s[3..])
    else [s[0]] + DropFolds(s[1..])
  }

  /** `.replace(/[\r\n][ \t]/g, '')` */
  function DropLooseFolds(s: string): string {
    if s == "" then ""
    else if |s| >= 2 && IsBreak(s[0]) && IsBlank(s[1]) then DropLooseFolds(s[2..])
    else [s[0]] + DropLooseFolds(s[1..])
  }

  /** `.split(/\r\n|\r|\n/)` */
  function SplitBreaks(s: string): (r: seq<string>)
    ensures r != []
  {
    if s == "" then [""]
    else if |s| >= 2 && s[0] == '\r' && s[1] == '\n' then [""] + SplitBreaks(s[2..])
    else if IsBreak(s[0]) then [""] + SplitBreaks(s[1..])
    else
      var rest := SplitBreaks(s[1..]);
      [[s[0]] + rest[0]] + rest[1..]
  }

  function Unfold(body: string): (r: seq<string>)
    ensures r != []
  {
    SplitBreaks(DropLooseFolds(DropFolds(body)))
  }

  // ---- Content lines --------------------------------------------------------------------------------

  datatype Content = Content(name: string, tzid: Option<string>, value: string)

  predicate EqualFold(c: char, upper: char)
    requires 'A' <= upper <= 'Z'
  {
    c == upper || c as int == upper as int + 32
  }

  /** `;TZID=` at the head of s, in any case, with at least one character of value after it. */
  predicate TzidHere(s: string) {
    && |s| >= 7 && s[0] == ';' && EqualFold(s[1], 'T') && EqualFold(s[2], 'Z') && EqualFold(s[3], 'I')
    && EqualFold(s[4], 'D') && s[5] == '=' && s[6] != ';' && s[6] != ':'
  }

  /** `/;TZID=([^;:]+)/i` on the part of the line before its first colon. */
  function FindTzid(left: string): Option<string> {
    if left == "" then None
    else if TzidHere(left) then
      var value := left[6..];
      var semi, colon := Find(value, ';'), Find(value, ':');
      Some(value[..if semi < colon then semi else colon])
    else FindTzid(left[1..])
  }

  predicate IsLineTerminator(c: char) {
    IsBreak(c) || c == '\U{2028}' || c == '\U{2029}'
  }

  /** `.replace(/^"(.*)"$/, '$1')` */
  function Unquote(s: string): string {
    if |s| >= 2 && s[0] == '"' && s[|s| - 1] == '"'
       && (forall i | 1 <= i < |s| - 1 :: !IsLineTerminator(s[i]))
    then s[1..|s| - 1] else s
  }

  function SplitLine(line: string): Option<Content> {
    var colon := Find(line, ':');
    if colon == |line| then None
    else
      var left := line[..colon];
      var semi := Find(left, ';');
      var name := Upper(Trim(left[..semi]));
      var raw := if semi == |left| then None else FindTzid(left);
      var tzid := if raw.None? then "" else Trim(Unquote(Trim(raw.value)));
      Some(Content(name, if tzid == "" then None else Some(tzid), line[colon + 1..]))
  }

  // ---- Dates ----------------------------------------------------------------------------------------

  /** A property's clock: the zone's name and, at each UTC second, its offset from UTC in seconds. */
  datatype Zone = Zone(name: string, offset: int -> int)

  /** The civil date on the zone's calendar at a UTC second. */
  function LocalCivil(zone: Zone, instant: int): Civil {
    CivilOf((instant + zone.offset(instant)) / 86400)
  }

  /** `${y}-${mo}-${d}` */
  function Dashed(y: string, m: string, d: string): (text: string)
    requires |y| == 4 && |m| == 2 && |d| == 2 && AllDigits(y) && AllDigits(m) && AllDigits(d)
    ensures IsoShape(text) && text[..4] == y && text[5..7] == m && text[8..] == d
  {
    y + "-" + m + "-" + d
  }

  /**
   * The calendar date at a UTC second in the zone, its year printed without an era; None where the text would
   * not be `YYYY-MM-DD`.
   */
  function LocalDate(zone: Zone, instant: int): (r: Option<string>)
    ensures r.Some? ==> IsoShape(r.value)
  {
    var c := LocalCivil(zone, instant);
    var year := if c.year >= 1 then c.year else 1 - c.year;
    if year > 9999 then None
    else
      Some(Dashed(Pad(year, 4), Pad(c.month, 2), Pad(c.day, 2)))
  }

  /** A date value with a UTC time: `YYYYMMDDTHHMMSSZ`, trailing white space allowed. */
  predicate IsUtc(v: string) {
    && |v| >= 16 && IsCompact(v) && EqualFold(v[8], 'T') && EqualFold(v[15], 'Z')
    && AllDigits(v[9..11]) && AllDigits(v[11..13]) && AllDigits(v[13..15])
    && forall i | 16 <= i < |v| :: IsSpace(v[i])
  }

  /** The time of day of such a value, in seconds; None for an impossible one. */
  function UtcSecond(v: string): Option<int>
    requires IsUtc(v)
  {
    var hh, mi, ss := Num(v[9..11]), Num(v[11..13]), Num(v[13..15]);
    if hh > 23 || mi > 59 || ss > 60 then None else Some(hh * 3600 + mi * 60 + ss)
  }

  /** `YYYYMMDD` at the head of a value. */
  predicate IsCompact(v: string) {
    |v| >= 8 && AllDigits(v[..4]) && AllDigits(v[4..6]) && AllDigits(v[6..8])
  }

  function CompactCivil(v: string): Civil
    requires IsCompact(v)
  {
    Civil(Num(v[..4]), Num(v[4..6]), Num(v[6..8]))
  }

  function CompactToIso(v: string): (text: string)
    requires IsCompact(v)
    ensures IsoShape(text) && ReadIso(text) == CompactCivil(v)
  {
    Dashed(v[..4], v[4..6], v[6..8])
  }

  /** The property-local date of a DATE or DATE-TIME value; None for anything that is not a date that exists. */
  function ToIsoDate(value: string, zone: Zone): (r: Option<string>)
    ensures r.Some? ==> IsoShape(r.value)
  {
    var v := TrimStart(value);
    if !IsCompact(v) then None
    else
      var civil := CompactCivil(v);
      var midnight := MakeDay(civil.year, civil.month, civil.day);
      if CivilOf(midnight) != civil then None
      else if !IsUtc(v) then Some(CompactToIso(v))
      else
        var second := UtcSecond(v);
        if second.None? then None else LocalDate(zone, midnight * 86400 + second.value)
  }

  // ---- Events ---------------------------------------------------------------------------------------

  type Fields = map<string, string>

  /** The trusted event a VEVENT's fields amount to, if any. */
  function ToEvent(fields: Fields, zone: Zone): Option<Event> {
    var uid := if "UID" in fields then Trim(fields["UID"]) else "";
    if uid == "" || "DTSTART" !in fields then None
    else
      var start := ToIsoDate(fields["DTSTART"], zone);
      if start.None? then None
      else
        var end := if "DTEND" in fields then ToIsoDate(fields["DTEND"], zone) else Some(AddOneDay(start.value));
        if end.None? || !Less(start.value, end.value) then None
        else Some(Event(uid, start.value, end.value))
  }

  /** The scan's variables: the VEVENT being collected, the events so far, the foreign zones in order of discovery. */
  datatype Scan = Scan(current: Option<Fields>, events: seq<Event>, foreign: seq<string>)

  const START := Scan(None, [], [])

  predicate Tracked(name: string) {
    name == "UID" || name == "DTSTART" || name == "DTEND"
  }

  predicate Opens(c: Content) {
    c.name == "BEGIN" && Upper(Trim(c.value)) == "VEVENT"
  }

  predicate Closes(c: Content) {
    c.name == "END" && Upper(Trim(c.value)) == "VEVENT"
  }

  function Collect(st: Scan, c: Content, zone: Zone): Scan
    requires st.current.Some?
  {
    var fields := st.current.value;
    Scan(Some(if c.name in fields then fields else fields[c.name := c.value]),
         st.events,
         if c.tzid.Some? && c.tzid.value != zone.name && c.tzid.value !in st.foreign then st.foreign + [c.tzid.value]
         else st.foreign)
  }

  function Step(st: Scan, line: string, zone: Zone): Scan {
    var parsed := SplitLine(line);
    if parsed.None? then st
    else
      var c := parsed.value;
      if Opens(c) then st.(current := Some(map[]))
      else if Closes(c) then
        var e := if st.current.Some? then ToEvent(st.current.value, zone) else None;
        Scan(None, if e.Some? then st.events + [e.value] else st.events, st.foreign)
      else if st.current.Some? && Tracked(c.name) then Collect(st, c, zone)
      else st
  }

  function ScanLines(st: Scan, lines: seq<string>, zone: Zone): Scan {
    if lines == [] then st else Step(ScanLines(st, lines[..|lines| - 1], zone), lines[|lines| - 1], zone)
  }

  // ---- The whole body -------------------------------------------------------------------------------

  datatype ParseResult = Parsed(events: seq<Event>, foreign: seq<string>) | BadZone | NotTerminated

  const BEGIN_CALENDAR := "BEGIN:VCALENDAR"
  const END_CALENDAR := "END:VCALENDAR"

  /** Some line is this envelope marker, spaces and case aside. */
  predicate Saw(lines: seq<string>, marker: string) {
    exists i | 0 <= i < |lines| :: Upper(Trim(lines[i])) == marker
  }

  /** What the parser answers; an unusable property zone is None. */
  function Parse(body: string, zone: Option<Zone>): ParseResult {
    if zone.None? then BadZone
    else
      var lines := Unfold(body);
      if !Saw(lines, BEGIN_CALENDAR) || !Saw(lines, END_CALENDAR) then NotTerminated
      else
        var st := ScanLines(START, lines, zone.value);
        Parsed(st.events, st.foreign)
  }

  method ParseCalendar(body: string, zone: Option<Zone>) returns (r: ParseResult)
    ensures r == Parse(body, zone)
  {
    hide Step, Unfold;
    if zone.None? {
      return BadZone;
    }
    var lines := Unfold(body);
    var sawBegin, sawEnd := false, false;
    for i := 0 to |lines|
      invariant sawBegin == Saw(lines[..i], BEGIN_CALENDAR)
      invariant sawEnd == Saw(lines[..i], END_CALENDAR)
    {
      var t := Upper(Trim(lines[i]));
      SawStep(lines, i, BEGIN_CALENDAR);
      SawStep(lines, i, END_CALENDAR);
      if t == BEGIN_CALENDAR {
        sawBegin := true;
      } else if t == END_CALENDAR {
        sawEnd := true;
      }
    }
    assert lines[..|lines|] == lines;
    if !sawBegin || !sawEnd {
      return NotTerminated;
    }
    var events, foreign, current := ScanBody(lines, zone.value);
    r := Parsed(events, foreign);
  }

  lemma SawStep(lines: seq<string>, i: nat, marker: string)
    requires i < |lines|
    ensures Saw(lines[..i + 1], marker) <==> Saw(lines[..i], marker) || Upper(Trim(lines[i])) == marker
  {
    hide Upper, Trim;
    if Upper(Trim(lines[i])) == marker {
      assert lines[..i + 1][i] == lines[i];
    } else if Saw(lines[..i], marker) {
      var j :| 0 <= j < i && Upper(Trim(lines[..i][j])) == marker;
      assert lines[..i + 1][j] == lines[..i][j];
    }
  }

  /** The second loop: `current`, `events` and `foreign` updated line by line. */
  method ScanBody(lines: seq<string>, zone: Zone)
    returns (events: seq<Event>, foreign: seq<string>, current: Option<Fields>)
    ensures Scan(current, events, foreign) == ScanLines(START, lines, zone)
  {
    hide SplitLine, ToEvent, Opens, Closes;
    events, foreign, current := [], [], None;
    for i := 0 to |lines|
      invariant Scan(current, events, foreign) == ScanLines(START, lines[..i], zone)
    {
      assert lines[..i + 1][..i] == lines[..i] && lines[..i + 1][i] == lines[i];
      var parsed := SplitLine(lines[i]);
      if parsed.None? {
        continue;
      }
      var c := parsed.value;
      if Opens(c) {
        current := Some(map[]);
        continue;
      }
      if Closes(c) {
        if current.Some? {
          var event := ToEvent(current.value, zone);
          if event.Some? {
            events := events + [event.value];
          }
        }
        current := None;
        continue;
      }
      if current.Some? && Tracked(c.name) {
        if c.tzid.Some? && c.tzid.value != zone.name && c.tzid.value !in foreign {
          foreign := foreign + [c.tzid.value];
        }
        if c.name !in current.value {
          current := Some(current.value[c.name := c.value]);
        }
      }
    }
    assert lines[..|lines|] == lines;
  }
}
