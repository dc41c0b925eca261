/**
 * The reservations export, printed as comma-separated values and read back with the grammar of section 2 of
 * RFC 4180 (TEXTDATA widened to every character but comma, quote, CR and LF, as UTF-8 files need).
 */
module Csv {
  import opened Options
  import Text

  /** One reservation, every cell already a string. */
  datatype Row = Row(
    bookingId: string,
    property: string,
    unit: string,
    guest: string,
    checkIn: string,
    checkOut: string,
    nights: string,
    source: string,
    status: string,
    guests: string,
    totalIdr: string)

  const HEADERS: seq<string> := [
    "Booking ID", "Property", "Unit", "Guest", "Check-in", "Check-out", "Nights", "Source", "Status", "Guests",
    "Total (IDR)"]

  function Cells(r: Row): seq<string> {
    [r.bookingId, r.property, r.unit, r.guest, r.checkIn, r.checkOut, r.nights, r.source, r.status, r.guests,
     r.totalIdr]
  }

  // ---- Printing ---------------------------------------------------------------------------------------

  const BOM: string := "\U{FEFF}"

  /** A spreadsheet reads a cell that starts with one of these as a formula. */
  predicate Trigger(value: string) {
    value != "" && value[0] in {'=', '+', '-', '@', '\t', '\r'}
  }

  predicate Special(c: char) {
    c == '"' || c == ',' || c == '\r' || c == '\n'
  }

  predicate NeedsQuoting(v: string) {
    exists i | 0 <= i < |v| :: Special(v[i])
  }

  /** `v.replace(/"/g, '""')` */
  function DoubleQuotes(v: string): string {
    if v == "" then "" else (if v[0] == '"' then "\"\"" else [v[0]]) + DoubleQuotes(v[1..])
  }

  /** The cell as a reader should get it: forced to text when it looked like a formula. */
  function Neutral(value: string): string {
    if Trigger(value) then "'" + value else value
  }

  function EscapeCsvField(value: string): string {
    var v := Neutral(value);
    if Trigger(value) || NeedsQuoting(v) then "\"" + DoubleQuotes(v) + "\"" else v
  }

  function Map<A, B>(f: A -> B, s: seq<A>): (r: seq<B>)
    ensures |r| == |s| && forall i | 0 <= i < |s| :: r[i] == f(s[i])
  {
    seq(|s|, i requires 0 <= i < |s| => f(s[i]))
  }

  function Record(cells: seq<string>): string {
    Text.Join(Map(EscapeCsvField, cells), ",")
  }

  function Table(rows: seq<Row>): seq<seq<string>> {
    [HEADERS] + Map(Cells, rows)
  }

  function BookingsToCsv(rows: seq<Row>): string {
    BOM + Text.Join(Map(Record, Table(rows)), Text.CRLF) + Text.CRLF
  }

  // ---- The grammar, as a reader ------------------------------------------------------------------------

  /** What a rule read, and the text after it. */
  datatype Read<T> = Read(value: T, rest: string)

  /** escaped, after its opening quote: up to the first quote that is not doubled. */
  function ReadQuoted(s: string): (r: Option<Read<string>>)
    ensures r.Some? ==> |r.value.rest| < |s|
  {
    if s == "" then None
    else if s[0] != '"' then
      match ReadQuoted(s[1..])
      case None => None
      case Some(r) => Some(Read([s[0]] + r.value, r.rest))
    else if |s| > 1 && s[1] == '"' then
      match ReadQuoted(s[2..])
      case None => None
      case Some(r) => Some(Read("\"" + r.value, r.rest))
    else Some(Read("", s[1..]))
  }

  /** non-escaped: *TEXTDATA */
  function ReadPlain(s: string): (r: Read<string>)
    ensures |r.rest| <= |s|
  {
    if s == "" || Special(s[0]) then Read("", s)
    else
      var r := ReadPlain(s[1..]);
      Read([s[0]] + r.value, r.rest)
  }

  /** field = escaped / non-escaped */
  function ReadField(s: string): (r: Option<Read<string>>)
    ensures r.Some? ==> |r.value.rest| <= |s|
  {
    if s != "" && s[0] == '"' then ReadQuoted(s[1..]) else Some(ReadPlain(s))
  }

  /** record = field *(COMMA field) */
  function ReadRecord(s: string): (r: Option<Read<seq<string>>>)
    ensures r.Some? ==> |r.value.rest| <= |s|
    decreases |s|
  {
    match ReadField(s)
    case None => None
    case Some(f) =>
      if f.rest != "" && f.rest[0] == ',' then
        match ReadRecord(f.rest[1..])
        case None => None
        case Some(more) => Some(Read([f.value] + more.value, more.rest))
      else Some(Read([f.value], f.rest))
  }

  /** file = record *(CRLF record) [CRLF]; a CRLF at the very end is the optional one. */
  function ReadFile(s: string): Option<seq<seq<string>>>
    decreases |s|
  {
    match ReadRecord(s)
    case None => None
    case Some(r) =>
      if r.rest == "" || r.rest == Text.CRLF then Some([r.value])
      else if |r.rest| > 2 && r.rest[..2] == Text.CRLF then
        match ReadFile(r.rest[2..])
        case None => None
        case Some(more) => Some([r.value] + more)
      else None
  }

  // ---- Fields -----------------------------------------------------------------------------------------

  lemma {:induction false} QuotedReadsBack(v: string, rest: string)
    requires rest == "" || rest[0] != '"'
    ensures ReadQuoted(DoubleQuotes(v) + "\"" + rest) == Some(Read(v, rest))
  {
    var s := DoubleQuotes(v) + "\"" + rest;
    if v == "" {
      assert s == "\"" + rest && s[1..] == rest;
    } else {
      QuotedReadsBack(v[1..], rest);
      var tail := DoubleQuotes(v[1..]) + "\"" + rest;
      if v[0] == '"' {
        assert s == "\"\"" + tail;
        assert s[0] == '"' && s[1] == '"' && s[2..] == tail;
        assert v == "\"" + v[1..];
      } else {
        assert s == [v[0]] + tail;
        assert s[0] == v[0] && s[1..] == tail;
        assert v == [v[0]] + v[1..];
      }
    }
  }

  lemma {:induction false} PlainReadsBack(v: string, rest: string)
    requires !NeedsQuoting(v) && (rest == "" || Special(rest[0]))
    ensures ReadPlain(v + rest) == Read(v, rest)
  {
    if v == "" {
      assert v + rest == rest;
    } else {
      assert !NeedsQuoting(v[1..]) by {
        assert forall i | 0 <= i < |v[1..]| :: v[1..][i] == v[i + 1];
      }
      PlainReadsBack(v[1..], rest);
      assert (v + rest)[0] == v[0] && (v + rest)[1..] == v[1..] + rest;
      assert !Special(v[0]);
      assert v == [v[0]] + v[1..];
    }
  }

  lemma QuotedField(v: string, rest: string)
    requires rest == "" || rest[0] != '"'
    ensures ReadField("\"" + DoubleQuotes(v) + "\"" + rest) == Some(Read(v, rest))
  {
    QuotedReadsBack(v, rest);
    var inner := DoubleQuotes(v) + "\"" + rest;
    var s := "\"" + DoubleQuotes(v) + "\"" + rest;
    hide ReadQuoted, DoubleQuotes;
    assert s == "\"" + inner;
    assert s[0] == '"' && s[1..] == inner;
  }

  /** A printed cell reads back as the neutral cell, whatever it holds and whatever follows it. */
  lemma FieldReadsBack(value: string, rest: string)
    requires rest == "" || rest[0] == ',' || rest[0] == '\r'
    ensures ReadField(EscapeCsvField(value) + rest) == Some(Read(Neutral(value), rest))
  {
    hide DoubleQuotes, ReadQuoted, ReadPlain, Neutral;
    var v := Neutral(value);
    if Trigger(value) || NeedsQuoting(v) {
      QuotedField(v, rest);
    } else {
      PlainReadsBack(v, rest);
      assert v + rest != "" ==> (v + rest)[0] != '"';
    }
  }

  // ---- Records and files ------------------------------------------------------------------------------

  lemma {:induction false} RecordReadsBack(cells: seq<string>, rest: string)
    requires cells != [] && (rest == "" || rest[0] == '\r')
    ensures ReadRecord(Record(cells) + rest) == Some(Read(Map(Neutral, cells), rest))
  {
    hide ReadField, EscapeCsvField, Neutral;
    var tail := cells[1..];
    var first := EscapeCsvField(cells[0]);
    assert Map(Neutral, cells) == [Neutral(cells[0])] + Map(Neutral, tail);
    assert Map(EscapeCsvField, cells)[1..] == Map(EscapeCsvField, tail);
    if tail == [] {
      assert Map(Neutral, cells) == [Neutral(cells[0])];
      assert Record(cells) == first;
      FieldReadsBack(cells[0], rest);
    } else {
      RecordReadsBack(tail, rest);
      var more := "," + Record(tail) + rest;
      assert Record(cells) + rest == first + more;
      FieldReadsBack(cells[0], more);
      assert more[0] == ',' && more[1..] == Record(tail) + rest;
    }
  }

  lemma {:induction false} FileReadsBack(table: seq<seq<string>>)
    requires table != [] && forall i | 0 <= i < |table| :: table[i] != []
    ensures ReadFile(Text.Join(Map(Record, table), Text.CRLF) + Text.CRLF)
         == Some(Map(cells => Map(Neutral, cells), table))
  {
    hide ReadRecord, Record, Neutral;
    var neutral := cells => Map(Neutral, cells);
    var tail := table[1..];
    assert Map(neutral, table) == [Map(Neutral, table[0])] + Map(neutral, tail);
    assert Map(Record, table)[1..] == Map(Record, tail);
    if tail == [] {
      assert Map(neutral, table) == [Map(Neutral, table[0])];
      RecordReadsBack(table[0], Text.CRLF);
    } else {
      FileReadsBack(tail);
      var rest := Text.Join(Map(Record, tail), Text.CRLF) + Text.CRLF;
      var more := Text.CRLF + rest;
      assert Text.Join(Map(Record, table), Text.CRLF) + Text.CRLF == Record(table[0]) + more;
      RecordReadsBack(table[0], more);
      assert more[0] == '\r' && more[..2] == Text.CRLF && more[2..] == rest;
      assert |rest| >= 2;
    }
  }

  /**
   * Reading the export after its byte-order mark gives the header and one 11-cell record per reservation, each
   * cell as it was or with one apostrophe in front, exactly when it looked like a formula; no cell still does.
   */
  lemma CsvRoundTrip(rows: seq<Row>)
    ensures var doc := BookingsToCsv(rows);
            && doc != "" && doc[0] == '\U{FEFF}'
            && ReadFile(doc[1..]).Some?
            && var file := ReadFile(doc[1..]).value;
               && |file| == 1 + |rows|
               && file[0] == ["Booking ID", "Property", "Unit", "Guest", "Check-in", "Check-out", "Nights",
                              "Source", "Status", "Guests", "Total (IDR)"]
               && forall i | 0 <= i < |rows| ::
                    && |file[i + 1]| == 11
                    && var r := rows[i];
                       var fields := [r.bookingId, r.property, r.unit, r.guest, r.checkIn, r.checkOut, r.nights,
                                      r.source, r.status, r.guests, r.totalIdr];
                       forall j | 0 <= j < 11 ::
                         var v, cell := fields[j], file[i + 1][j];
                         && cell == (if v != "" && v[0] in "=+-@\t\r" then "'" + v else v)
                         && (cell == "" || cell[0] !in "=+-@\t\r")
  {
    hide Record, ReadFile;
    var doc := BookingsToCsv(rows);
    var table := Table(rows);
    var body := Text.Join(Map(Record, table), Text.CRLF) + Text.CRLF;
    assert doc == BOM + body;
    assert doc[1..] == body;
    forall i | 0 <= i < |table|
      ensures table[i] != []
    {
      assert |table[i]| == 11;
    }
    FileReadsBack(table);
    HeadersAreNeutral();
    var file := ReadFile(body).value;
    assert file == Map(cells => Map(Neutral, cells), table);
    forall i | 0 <= i < |rows|
      ensures file[i + 1] == Map(Neutral, Cells(rows[i]))
    {
      assert table[i + 1] == Cells(rows[i]);
    }
  }

  /**
   * A cell is written verbatim exactly when it neither looks like a formula nor holds a delimiter, so a count or
   * an amount is never touched; every other cell is written between quotes, a quote in it written twice.
   */
  lemma VerbatimIff(value: string)
    ensures EscapeCsvField(value) == value
       <==> (value == "" || value[0] !in "=+-@\t\r") && forall c | c in "\",\r\n" :: c !in value
    ensures EscapeCsvField(value) != value ==>
              var out := EscapeCsvField(value);
              |out| >= |value| + 2 && out[0] == '"' && out[|out| - 1] == '"'
  {
    var v := Neutral(value);
    DoublingGrows(v);
    QuotingIff(value);
  }

  lemma QuotingIff(value: string)
    ensures NeedsQuoting(value) <==> exists c :: c in value && c in "\",\r\n"
    ensures NeedsQuoting("'" + value) <==> NeedsQuoting(value)
  {
    if c :| c in value && c in "\",\r\n" {
      var i :| 0 <= i < |value| && value[i] == c;
      assert Special(value[i]);
    }
    if NeedsQuoting(value) {
      var i :| 0 <= i < |value| && Special(value[i]);
      assert value[i] in value && value[i] in "\",\r\n";
      assert ("'" + value)[i + 1] == value[i];
    }
  }

  lemma {:induction false} DoublingGrows(v: string)
    ensures |DoubleQuotes(v)| >= |v|
  {
    if v != "" {
      DoublingGrows(v[1..]);
    }
  }

  /** A non-negative decimal number is written as it is. */
  lemma DigitsAreVerbatim(value: string)
    requires forall c | c in value :: '0' <= c <= '9'
    ensures EscapeCsvField(value) == value
  {
    VerbatimIff(value);
    assert value != "" ==> value[0] in value;
  }

  lemma HeadersAreNeutral()
    ensures Map(Neutral, HEADERS) == HEADERS
  {
    assert forall i | 0 <= i < |HEADERS| :: !Trigger(HEADERS[i]);
  }

  /**
   * The apostrophe is not undone: two cells read back the same exactly when they are the same, or one is a formula
   * and the other that formula with the apostrophe already in front.
   */
  lemma NeutralMergesIff(a: string, b: string)
    ensures Neutral(a) == Neutral(b) <==> a == b || (Trigger(a) && b == "'" + a) || (Trigger(b) && a == "'" + b)
  {
    if Trigger(a) && Trigger(b) && Neutral(a) == Neutral(b) {
      assert a == ("'" + a)[1..] && b == ("'" + b)[1..];
    }
    assert Trigger(a) ==> !Trigger("'" + a);
    assert Trigger(b) ==> !Trigger("'" + b);
  }
}
