/**
 * The iCalendar serializer of the export feed (sections 3.1, 3.3.4, 3.3.5 and 3.3.11 of RFC 5545).
 */
module IcalExport {
  import opened Options
  import opened Calendar
  import opened Text

  /** One busy span: an opaque UID and two `YYYY-MM-DD` dates, the end exclusive. */
  datatype Event = Event(uid: string, start: string, end: string)

  const FOLD := "\r\n "

  // ---- TEXT escaping --------------------------------------------------------------------------------

  /** `s.replace(/c/g, r)` for a single character c. */
  function ReplaceAll(s: string, c: char, r: string): string {
    if s == "" then "" else (if s[0] == c then r else [s[0]]) + ReplaceAll(s[1..], c, r)
  }

  /** `s.replace(/\r\n|\r|\n/g, '\\n')` */
  function EscapeBreaks(s: string): string {
    if s == "" then ""
    else if |s| >= 2 && s[0] == '\r' && s[1] == '\n' then "\\n" + EscapeBreaks(s[2..])
    else if IsBreak(s[0]) then "\\n" + EscapeBreaks(s[1..])
    else [s[0]] + EscapeBreaks(s[1..])
  }

  function EscapeText(value: string): string {
    EscapeBreaks(ReplaceAll(ReplaceAll(ReplaceAll(value, '\\', "\\\\"), ';', "\\;"), ',', "\\,"))
  }

  // ---- Dates ----------------------------------------------------------------------------------------

  /** `YYYY-MM-DD` to `YYYYMMDD`; anything else is an error. */
  function FormatDate(iso: string): (r: Option<string>)
    ensures r.Some? <==> IsoShape(iso)
    ensures r.Some? ==> |r.value| == 8
  {
    if IsoShape(iso) then Some(iso[..4] + iso[5..7] + iso[8..]) else None
  }

  /** The feed's generation instant: a day and the second within it. */
  datatype Stamp = Stamp(day: int, second: nat)

  function FormatStamp(t: Stamp): (s: string)
    ensures NoBreaks(s)
  {
    var c := CivilOf(t.day);
    var year := if 0 <= c.year <= 9999 then Pad(c.year, 4)
                else if c.year > 9999 then "+" + Pad(c.year, 6)
                else Pad(-c.year, 6);
    var s := t.second % 86400;
    year + Pad(c.month, 2) + Pad(c.day, 2) + "T" + Pad(s / 3600, 2) + Pad(s / 60 % 60, 2) + Pad(s % 60, 2) + "Z"
  }

  // ---- Folding --------------------------------------------------------------------------------------

  /** How the remaining characters are cut, given the piece being filled: 75 octets first, then 74. */
  function Pieces(rest: string, current: string, bytes: nat, first: bool): seq<string>
    decreases |rest|
  {
    if rest == "" then [current]
    else
      var n := Octets1(rest[0]);
      if bytes + n > (if first then 75 else 74) then [current] + Pieces(rest[1..], [rest[0]], n, false)
      else Pieces(rest[1..], current + [rest[0]], bytes + n, first)
  }

  /** The physical form of a content line. */
  function Fold(line: string): string {
    if Octets(line) <= 75 then line else Join(Pieces(line, "", 0, true), FOLD)
  }

  method FoldLine(line: string) returns (r: string)
    ensures r == Fold(line)
  {
    if Octets(line) <= 75 {
      return line;
    }
    var out, current, bytes, first := "", "", 0, true;
    for i := 0 to |line|
      invariant Join(Pieces(line, "", 0, true), FOLD)
             == out + (if first then "" else " ") + Join(Pieces(line[i..], current, bytes, first), FOLD)
    {
      var ch := line[i];
      var n := Octets1(ch);
      var limit := if first then 75 else 74;
      assert line[i..][0] == ch && line[i..][1..] == line[i + 1..];
      if bytes + n > limit {
        JoinPieces(line[i + 1..], [ch], n, false, current);
        out := out + (if first then "" else " ") + current + CRLF;
        first := false;
        current := [ch];
        bytes := n;
      } else {
        current := current + [ch];
        bytes := bytes + n;
      }
    }
    r := out + (if first then "" else " ") + current;
  }

  lemma JoinPieces(rest: string, current: string, bytes: nat, first: bool, before: string)
    ensures Join([before] + Pieces(rest, current, bytes, first), FOLD)
         == before + CRLF + (" " + Join(Pieces(rest, current, bytes, first), FOLD))
  {
    PiecesNonEmpty(rest, current, bytes, first);
    var ps := [before] + Pieces(rest, current, bytes, first);
    assert ps[1..] == Pieces(rest, current, bytes, first);
    assert FOLD == CRLF + " ";
  }

  lemma PiecesNonEmpty(rest: string, current: string, bytes: nat, first: bool)
    ensures Pieces(rest, current, bytes, first) != []
    decreases |rest|
  {
  }

  /** The pieces are the line, cut but otherwise untouched, and each fits its budget. */
  lemma {:induction false} PiecesFit(rest: string, current: string, bytes: nat, first: bool)
    requires bytes == Octets(current) && bytes <= (if first then 75 else 74)
    ensures var ps := Pieces(rest, current, bytes, first);
            && ps != []
            && Concat(ps) == current + rest
            && Octets(ps[0]) <= (if first then 75 else 74)
            && forall i | 1 <= i < |ps| :: Octets(ps[i]) <= 74
    decreases |rest|
  {
    if rest != "" {
      var n := Octets1(rest[0]);
      OctetsConcat(current, [rest[0]]);
      assert Octets([rest[0]]) == n;
      assert [rest[0]] + rest[1..] == rest;
      if bytes + n > (if first then 75 else 74) {
        PiecesFit(rest[1..], [rest[0]], n, false);
      } else {
        PiecesFit(rest[1..], current + [rest[0]], bytes + n, first);
        assert (current + [rest[0]]) + rest[1..] == current + rest;
      }
    }
  }

  // ---- The calendar ---------------------------------------------------------------------------------

  const EVENT_SUMMARY := "Unavailable (Sambung)"

  function Header(prodId: string): seq<string> {
    ["BEGIN:VCALENDAR", "VERSION:2.0", "PRODID:" + EscapeText(prodId), "CALSCALE:GREGORIAN", "METHOD:PUBLISH"]
  }

  /** Both dates have the shape the printer insists on. */
  predicate Printable(e: Event) {
    IsoShape(e.start) && IsoShape(e.end)
  }

  function EventLines(e: Event, stamp: string): seq<string>
    requires Printable(e)
  {
    ["BEGIN:VEVENT",
     "UID:" + EscapeText(e.uid),
     "DTSTAMP:" + stamp,
     "DTSTART;VALUE=DATE:" + FormatDate(e.start).value,
     "DTEND;VALUE=DATE:" + FormatDate(e.end).value,
     "SUMMARY:" + EscapeText(EVENT_SUMMARY),
     "TRANSP:OPAQUE",
     "END:VEVENT"]
  }

  ghost predicate AllPrintable(events: seq<Event>) {
    forall i | 0 <= i < |events| :: Printable(events[i])
  }

  function AllEventLines(events: seq<Event>, stamp: string): seq<string>
    requires AllPrintable(events)
  {
    if events == [] then []
    else AllEventLines(events[..|events| - 1], stamp) + EventLines(events[|events| - 1], stamp)
  }

  /** The logical lines of the calendar. */
  function CalendarLines(prodId: string, stamp: string, events: seq<Event>): seq<string>
    requires AllPrintable(events)
  {
    Header(prodId) + AllEventLines(events, stamp) + ["END:VCALENDAR"]
  }

  /** Every line folded and terminated. */
  function Body(lines: seq<string>): string {
    if lines == [] then "" else Fold(lines[0]) + CRLF + Body(lines[1..])
  }

  lemma {:induction false} BodyConcat(a: seq<string>, b: seq<string>)
    ensures Body(a + b) == Body(a) + Body(b)
  {
    hide Fold;
    if a == [] {
      assert a + b == b;
    } else {
      BodyConcat(a[1..], b);
      assert (a + b)[1..] == a[1..] + b;
    }
  }

  /** None stands for the exception on a date that is not `YYYY-MM-DD`. */
  method BuildCalendar(prodId: string, events: seq<Event>, dtstamp: Stamp) returns (r: Option<string>)
    ensures r.Some? <==> AllPrintable(events)
    ensures r.Some? ==> r.value == Body(CalendarLines(prodId, FormatStamp(dtstamp), events))
  {
    hide Printable, Header, EventLines, Body, FormatStamp, CivilOf, Pad;
    var stamp := FormatStamp(dtstamp);
    var lines := Header(prodId);
    for i := 0 to |events|
      invariant AllPrintable(events[..i])
      invariant lines == Header(prodId) + AllEventLines(events[..i], stamp)
    {
      if !Printable(events[i]) {
        return None;
      }
      assert events[..i + 1][..i] == events[..i] && events[..i + 1][i] == events[i];
      lines := lines + EventLines(events[i], stamp);
    }
    assert events[..|events|] == events;
    var body := FoldAll(lines + ["END:VCALENDAR"]);
    return Some(body);
  }

  /** `lines.map(foldLine).join(CRLF) + CRLF` */
  method FoldAll(lines: seq<string>) returns (body: string)
    ensures body == Body(lines)
  {
    hide Fold;
    body := "";
    for i := 0 to |lines|
      invariant body == Body(lines[..i])
    {
      var folded := FoldLine(lines[i]);
      BodyConcat(lines[..i], [lines[i]]);
      assert lines[..i + 1] == lines[..i] + [lines[i]];
      assert Body([lines[i]]) == folded + CRLF;
      body := body + (folded + CRLF);
    }
    assert lines[..|lines|] == lines;
  }
}
