/**
 * What the parser makes of single characters, lines and dates, said of the text itself.
 */
module IcalLines {
  import opened Options
  import opened Calendar
  import opened Text
  import opened IcalExport
  import opened IcalParse
  import opened IcalSoundness
  import IcalRoundTrip

  // ---- Inside an event --------------------------------------------------------------------------------

  /** Line i lies between the opening of a VEVENT and its closing. */
  ghost predicate InsideVevent(lines: seq<string>, i: nat) {
    exists j :: 0 <= j < i <= |lines| && OpensLine(lines[j]) && forall k | j < k < i :: !ClosesLine(lines[k])
  }

  lemma NotBoth(line: string)
    ensures !(OpensLine(line) && ClosesLine(line))
  {
  }

  lemma InsideStep(lines: seq<string>)
    requires lines != []
    ensures var n := |lines| - 1;
            InsideVevent(lines, n + 1)
            <==> OpensLine(lines[n]) || (!ClosesLine(lines[n]) && InsideVevent(lines[..n], n))
  {
    hide OpensLine, ClosesLine;
    var n := |lines| - 1;
    var init := lines[..n];
    NotBoth(lines[n]);
    if j :| 0 <= j < n && OpensLine(lines[j]) && forall k | j < k <= n :: !ClosesLine(lines[k]) {
      assert OpensLine(init[j]) && forall k | j < k < n :: !ClosesLine(init[k]);
    }
    if InsideVevent(init, n) && !ClosesLine(lines[n]) {
      var j :| 0 <= j < n && OpensLine(init[j]) && forall k | j < k < n :: !ClosesLine(init[k]);
      assert OpensLine(lines[j]);
      forall k | j < k <= n
        ensures !ClosesLine(lines[k])
      {
        assert k < n ==> init[k] == lines[k];
      }
    }
  }

  lemma InsidePrefix(lines: seq<string>, n: nat, i: nat)
    requires i <= n <= |lines|
    ensures InsideVevent(lines[..n], i) <==> InsideVevent(lines, i)
  {
    hide OpensLine, ClosesLine;
    var init := lines[..n];
    if j :| 0 <= j < i && OpensLine(lines[j]) && forall k | j < k < i :: !ClosesLine(lines[k]) {
      assert OpensLine(init[j]) && forall k | j < k < i :: !ClosesLine(init[k]);
    }
    if j :| 0 <= j < i && OpensLine(init[j]) && forall k | j < k < i :: !ClosesLine(init[k]) {
      assert OpensLine(lines[j]);
      forall k | j < k < i
        ensures !ClosesLine(lines[k])
      {
        assert !ClosesLine(init[k]);
      }
    }
  }

  lemma {:induction false} InsideIsOpen(lines: seq<string>, zone: Zone)
    ensures ScanLines(START, lines, zone).current.Some? <==> InsideVevent(lines, |lines|)
  {
    hide SplitLine, ToEvent, Opens, Closes, InsideVevent;
    if lines == [] {
      NothingYet(lines);
    } else {
      InsideIsOpen(lines[..|lines| - 1], zone);
      InsideStep(lines);
      NotBoth(lines[|lines| - 1]);
    }
  }

  lemma NothingYet(lines: seq<string>)
    ensures !InsideVevent(lines, 0)
  {
  }

  // ---- Foreign zones ----------------------------------------------------------------------------------

  /** Line i is a collected property inside a VEVENT and carries a zone that is not the property's. */
  ghost predicate Foreign(lines: seq<string>, i: nat, z: string, zone: Zone) {
    && i < |lines| && SplitLine(lines[i]).Some?
    && SplitLine(lines[i]).value.name in {"UID", "DTSTART", "DTEND"}
    && SplitLine(lines[i]).value.tzid == Some(z)
    && z != zone.name
    && InsideVevent(lines, i)
  }

  lemma {:induction false} ScanForeign(lines: seq<string>, zone: Zone)
    ensures var found := ScanLines(START, lines, zone).foreign;
            && (forall z :: z in found <==> exists i: nat :: Foreign(lines, i, z, zone))
            && (forall a, b | 0 <= a < b < |found| :: found[a] != found[b])
            && forall n: nat | n <= |lines| :: ScanLines(START, lines[..n], zone).foreign <= found
  {
    hide ToEvent, SplitLine, InsideVevent, Upper, Trim;
    var found := ScanLines(START, lines, zone).foreign;
    if lines == [] {
      assert forall z, i: nat :: !Foreign(lines, i, z, zone);
      assert lines[..0] == lines;
    } else {
      var n := |lines| - 1;
      var init := lines[..n];
      ScanForeign(init, zone);
      InsideIsOpen(init, zone);
      InsidePrefix(lines, n, n);
      var was := ScanLines(START, init, zone).foreign;
      var parsed := SplitLine(lines[n]);
      forall i: nat, z | i < n
        ensures Foreign(init, i, z, zone) <==> Foreign(lines, i, z, zone)
      {
        InsidePrefix(lines, n, i);
      }
      forall z
        ensures z in found <==> z in was || Foreign(lines, n, z, zone)
      {
      }
      forall m: nat | m <= n + 1
        ensures ScanLines(START, lines[..m], zone).foreign <= found
      {
        if m == n + 1 {
          assert lines[..m] == lines;
        } else {
          assert lines[..m] == init[..m];
        }
      }
    }
  }

  /**
   * The zones an accepted body is reported to name: exactly the ones a collected property inside a VEVENT carries
   * other than the property's own, each once; and a body's earlier lines decide the head of that list.
   */
  lemma ForeignExactly(body: string, zone: Zone)
    ensures var r := Parse(body, Some(zone));
            r.Parsed? ==>
              && (forall z :: z in r.foreign <==> exists i: nat :: Foreign(Unfold(body), i, z, zone))
              && (forall a, b | 0 <= a < b < |r.foreign| :: r.foreign[a] != r.foreign[b])
              && forall n: nat | n <= |Unfold(body)| :: ScanLines(START, Unfold(body)[..n], zone).foreign <= r.foreign
  {
    hide Unfold, Saw, ScanLines, Foreign;
    var lines := Unfold(body);
    ScanForeign(lines, zone);
    assert Parse(body, Some(zone)).Parsed? ==> Parse(body, Some(zone)).foreign == ScanLines(START, lines, zone).foreign;
  }

  // ---- Content lines ----------------------------------------------------------------------------------

  /** The TZID parameter, its name in any case, stands at position k of a line's head with this value. */
  ghost predicate TzidAt(left: string, k: nat, value: string) {
    && k + 6 + |value| <= |left|
    && left[k] == ';' && left[k + 1] in "Tt" && left[k + 2] in "Zz" && left[k + 3] in "Ii" && left[k + 4] in "Dd"
    && left[k + 5] == '='
    && value != "" && ';' !in value && ':' !in value
    && left[k + 6..k + 6 + |value|] == value
    && (k + 6 + |value| == |left| || left[k + 6 + |value|] in ";:")
  }

  lemma AtIsHere(left: string, value: string)
    requires TzidAt(left, 0, value)
    ensures TzidHere(left)
  {
    assert left[6] == left[6..6 + |value|][0];
    assert value[0] in value;
  }

  lemma TzidAtHere(left: string, value: string)
    ensures TzidAt(left, 0, value) <==> TzidHere(left) && FindTzid(left) == Some(value)
  {
    if TzidHere(left) {
      var v := left[6..];
      var semi, colon := Find(v, ';'), Find(v, ':');
      var m := if semi < colon then semi else colon;
      assert FindTzid(left) == Some(v[..m]);
      assert left[6..6 + m] == v[..m];
      if TzidAt(left, 0, value) {
        assert forall i | 0 <= i < |value| :: value[i] == v[i] && value[i] in value;
        assert 6 + |value| < |left| ==> v[|value|] == left[6 + |value|];
        assert m == |value|;
      }
      if value == v[..m] {
        assert forall c | c in value :: c != ';' && c != ':';
        assert m < |v| ==> v[m] == left[6 + m];
        assert m != 0 by {
          assert v[0] == left[6];
        }
      }
    } else if TzidAt(left, 0, value) {
      AtIsHere(left, value);
    }
  }

  lemma TzidShift(left: string, k: nat, value: string)
    requires left != ""
    ensures TzidAt(left, k + 1, value) <==> TzidAt(left[1..], k, value)
  {
    if k + 7 + |value| <= |left| {
      assert left[1..][k + 6..k + 6 + |value|] == left[k + 7..k + 7 + |value|];
    }
  }

  /** The parameter found is the first one that has a value. */
  lemma {:induction false} TzidIsFirst(left: string, value: string)
    ensures FindTzid(left) == Some(value)
       <==> exists k: nat :: TzidAt(left, k, value) && forall j: nat, v | j < k :: !TzidAt(left, j, v)
  {
    hide TzidAt, TzidHere, Find;
    if left == "" {
      assert forall k: nat :: !TzidAt(left, k, value) by {
        NoneInEmpty(value);
      }
    } else {
      TzidIsFirst(left[1..], value);
      forall v
        ensures TzidAt(left, 0, v) <==> TzidHere(left) && FindTzid(left) == Some(v)
      {
        TzidAtHere(left, v);
      }
      forall k: nat, v
        ensures TzidAt(left, k + 1, v) <==> TzidAt(left[1..], k, v)
      {
        TzidShift(left, k, v);
      }
      if TzidHere(left) {
        assert TzidAt(left, 0, FindTzid(left).value);
      } else {
        assert FindTzid(left) == FindTzid(left[1..]);
        if FindTzid(left) == Some(value) {
          var k: nat :| TzidAt(left[1..], k, value) && forall j: nat, v | j < k :: !TzidAt(left[1..], j, v);
          assert TzidAt(left, k + 1, value);
          forall j: nat, v | j < k + 1
            ensures !TzidAt(left, j, v)
          {
            if j > 0 {
              assert TzidAt(left, j - 1 + 1, v) <==> TzidAt(left[1..], j - 1, v);
            }
          }
        }
        if k: nat :| TzidAt(left, k, value) && forall j: nat, v | j < k :: !TzidAt(left, j, v) {
          assert k > 0;
          assert TzidAt(left, k - 1 + 1, value);
          assert TzidAt(left[1..], k - 1, value);
          forall j: nat, v | j < k - 1
            ensures !TzidAt(left[1..], j, v)
          {
            assert !TzidAt(left, j + 1, v);
          }
        }
      }
    }
  }

  lemma NoneInEmpty(value: string)
    ensures forall k: nat :: !TzidAt("", k, value)
  {
  }

  /** Quotes come off exactly when they enclose the whole text on one line. */
  lemma UnquoteIff(s: string)
    ensures Unquote(s) != s <==> exists inner ::
              s == "\"" + inner + "\"" && forall c | c in "\r\n\U{2028}\U{2029}" :: c !in inner
    ensures forall inner | s == "\"" + inner + "\"" && Unquote(s) != s :: Unquote(s) == inner
  {
    if Unquote(s) != s {
      var inner := s[1..|s| - 1];
      assert s == "\"" + inner + "\"";
      forall c | c in "\r\n\U{2028}\U{2029}"
        ensures c !in inner
      {
        assert forall i | 0 <= i < |inner| :: inner[i] == s[i + 1];
      }
    }
    forall inner | s == "\"" + inner + "\""
      ensures s[1..|s| - 1] == inner
      ensures Unquote(s) != s <==> forall c | c in "\r\n\U{2028}\U{2029}" :: c !in inner
    {
      assert |Unquote(s)| < |s| || Unquote(s) == s;
      assert forall i | 0 <= i < |inner| :: inner[i] == s[i + 1];
      if i :| 1 <= i < |s| - 1 && IsLineTerminator(s[i]) {
        assert inner[i - 1] == s[i] && inner[i - 1] in inner && s[i] in "\r\n\U{2028}\U{2029}";
      }
    }
  }

  /** The first TZID parameter of a line's head. */
  ghost predicate FirstTzid(left: string, k: nat, raw: string) {
    TzidAt(left, k, raw) && forall j: nat, v | j < k :: !TzidAt(left, j, v)
  }

  lemma NotFound(s: string, c: char)
    requires c !in s
    ensures Find(s, c) == |s|
  {
    forall i | 0 <= i < |s|
      ensures s[i] != c
    {
      assert s[i] in s;
    }
  }

  lemma FoundAt(a: string, c: char, b: string)
    requires c !in a
    ensures Find(a + [c] + b, c) == |a|
  {
    var s := a + [c] + b;
    assert s[|a|] == c;
    forall i | 0 <= i < |a|
      ensures s[i] != c
    {
      assert s[i] == a[i] && a[i] in a;
    }
  }

  /**
   * A content line, taken apart: nothing without a colon; the value is all that follows the first colon; the name
   * is what precedes the first semicolon before it, trimmed and in capitals; the zone is the first TZID parameter's
   * value, trimmed inside its quotes and out, unless nothing is left of it.
   */
  lemma SplitLineExactly(name: string, params: string, value: string)
    requires ':' !in name && ';' !in name && ':' !in params
    requires params == "" || params[0] == ';'
    ensures var left := name + params;
            var c := SplitLine(left + ":" + value);
            && SplitLine(left).None?
            && c.Some? && c.value.value == value && c.value.name == Upper(Trim(name))
            && forall z :: c.value.tzid == Some(z) <==>
                             z != "" && exists k: nat, raw :: FirstTzid(left, k, raw) && z == Trim(Unquote(Trim(raw)))
  {
    hide Find, FindTzid, Upper, Trim, Unquote, FirstTzid;
    var left := name + params;
    var line := left + ":" + value;
    NotFound(left, ':');
    FoundAt(left, ':', value);
    assert line[..|left|] == left && line[|left| + 1..] == value;
    if params == "" {
      assert left == name;
      NotFound(name, ';');
      assert name[..|name|] == name;
    } else {
      assert params == ";" + params[1..];
      assert left == name + [';'] + params[1..];
      FoundAt(name, ';', params[1..]);
      assert left[..|name|] == name;
    }
    FirstTzidIs(left, name, params);
    var c := SplitLine(line).value;
    forall z
      ensures c.tzid == Some(z)
         <==> z != "" && exists k: nat, raw :: FirstTzid(left, k, raw) && z == Trim(Unquote(Trim(raw)))
    {
      var found := FindTzid(left);
      if params != "" && found.Some? {
        var k: nat :| FirstTzid(left, k, found.value);
      }
      forall k: nat, raw | FirstTzid(left, k, raw)
        ensures params != "" && found == Some(raw)
      {
      }
    }
  }

  lemma FirstTzidIs(left: string, name: string, params: string)
    requires left == name + params && ';' !in name
    ensures params == "" ==> forall k: nat, raw :: !FirstTzid(left, k, raw)
    ensures forall raw :: FindTzid(left) == Some(raw) <==> exists k: nat :: FirstTzid(left, k, raw)
  {
    hide TzidAt, FindTzid;
    forall raw
      ensures FindTzid(left) == Some(raw) <==> exists k: nat :: FirstTzid(left, k, raw)
    {
      TzidIsFirst(left, raw);
      if FindTzid(left) == Some(raw) {
        var k: nat :| TzidAt(left, k, raw) && forall j: nat, v | j < k :: !TzidAt(left, j, v);
        assert FirstTzid(left, k, raw);
      }
    }
    if params == "" {
      forall k: nat, raw
        ensures !TzidAt(left, k, raw)
      {
        NeedsSemicolon(left, k, raw);
      }
    }
  }

  lemma NeedsSemicolon(left: string, k: nat, raw: string)
    requires ';' !in left
    ensures !TzidAt(left, k, raw)
  {
    assert k < |left| ==> left[k] in left;
  }

  /** A zone named plainly and the same zone between quotes are the same zone. */
  lemma ZoneReadsBack(zone: string, value: string)
    requires zone != "" && Trimmed(zone) && forall c | c in ";:\"\r\n\U{2028}\U{2029}" :: c !in zone
    ensures SplitLine("DTSTART;TZID=" + zone + ":" + value) == Some(Content("DTSTART", Some(zone), value))
    ensures SplitLine("DTSTART;TZID=\"" + zone + "\":" + value) == Some(Content("DTSTART", Some(zone), value))
  {
    hide SplitLine, Upper, Trim, Unquote;
    assert "DTSTART;TZID=\"" + zone + "\":" + value == "DTSTART;TZID=" + ("\"" + zone + "\"") + ":" + value;
    TrimIsTrimmed(zone);
    TrimIsTrimmed("\"" + zone + "\"");
    UnquoteIff("\"" + zone + "\"");
    assert zone[0] in zone;
    UnquoteIff(zone);
    ZoneIn(zone, zone, value);
    ZoneIn("\"" + zone + "\"", zone, value);
  }

  lemma ZoneIn(raw: string, zone: string, value: string)
    requires raw != "" && ';' !in raw && ':' !in raw && zone != "" && Trim(Unquote(Trim(raw))) == zone
    ensures SplitLine("DTSTART;TZID=" + raw + ":" + value) == Some(Content("DTSTART", Some(zone), value))
  {
    hide SplitLine, Upper, Trim, Unquote;
    var params := ";TZID=" + raw;
    var left := "DTSTART" + params;
    SplitLineExactly("DTSTART", params, value);
    UpperOfPlain("DTSTART");
    assert left[13..13 + |raw|] == raw;
    assert TzidAt(left, 7, raw);
    forall j: nat, v | j < 7
      ensures !TzidAt(left, j, v)
    {
      assert left[j] == "DTSTART"[j];
    }
    assert FirstTzid(left, 7, raw);
    assert "DTSTART;TZID=" + raw + ":" + value == left + ":" + value;
  }

  // ---- One event --------------------------------------------------------------------------------------

  /** Line i is the first with that name, and this is its value. */
  ghost predicate FirstAt(lines: seq<string>, i: nat, name: string, value: string) {
    && i < |lines| && SplitLine(lines[i]).Some?
    && SplitLine(lines[i]).value.name == name && SplitLine(lines[i]).value.value == value
    && forall j | 0 <= j < i :: SplitLine(lines[j]).None? || SplitLine(lines[j]).value.name != name
  }

  lemma {:induction false} FirstIs(lines: seq<string>, name: string, value: string)
    ensures First(lines, name) == Some(value) <==> exists i: nat :: FirstAt(lines, i, name, value)
    ensures First(lines, name) == None
       <==> forall j | 0 <= j < |lines| :: SplitLine(lines[j]).None? || SplitLine(lines[j]).value.name != name
  {
    hide SplitLine;
    if lines != [] {
      var n := |lines| - 1;
      var init := lines[..n];
      FirstIs(init, name, value);
      assert forall i | 0 <= i < n :: init[i] == lines[i];
      forall i: nat | i < n
        ensures FirstAt(init, i, name, value) <==> FirstAt(lines, i, name, value)
      {
      }
      if First(init, name).Some? {
        FirstIs(init, name, First(init, name).value);
      } else {
        assert First(lines, name) == Some(value) <==> FirstAt(lines, n, name, value);
      }
    }
  }

  /** The first value of that name among the lines, if any. */
  ghost predicate Gives(lines: seq<string>, name: string, value: string) {
    exists i: nat :: FirstAt(lines, i, name, value)
  }

  ghost predicate Lacks(lines: seq<string>, name: string) {
    forall j | 0 <= j < |lines| :: SplitLine(lines[j]).None? || SplitLine(lines[j]).value.name != name
  }

  /**
   * The lines inside a VEVENT make up this event: a UID with something visible in it, a start that is a date in the
   * property's zone, and an end after it that is one too, or the next day where no end is given.
   */
  ghost predicate Yields(lines: seq<string>, zone: Zone, e: Event) {
    && (exists uid :: Gives(lines, "UID", uid) && e.uid == Trim(uid) && e.uid != "")
    && (exists start :: Gives(lines, "DTSTART", start) && ToIsoDate(start, zone) == Some(e.start))
    && ((exists end :: Gives(lines, "DTEND", end) && ToIsoDate(end, zone) == Some(e.end))
        || (Lacks(lines, "DTEND") && IsoShape(e.start) && e.end == AddOneDay(e.start)))
    && Less(e.start, e.end)
  }

  lemma GivesIsFirst(lines: seq<string>, name: string)
    ensures forall v :: First(lines, name) == Some(v) <==> Gives(lines, name, v)
    ensures First(lines, name) == None <==> Lacks(lines, name)
  {
    forall v
      ensures First(lines, name) == Some(v) <==> Gives(lines, name, v)
    {
      FirstIs(lines, name, v);
    }
    FirstIs(lines, name, "");
  }

  lemma ToEventYields(fields: Fields, lines: seq<string>, zone: Zone, e: Event)
    requires forall name | Tracked(name) :: Lookup(fields, name) == First(lines, name)
    ensures ToEvent(fields, zone) == Some(e) <==> Yields(lines, zone, e)
  {
    hide First, Gives, Lacks, ToIsoDate, Trim, AddOneDay, IsoShape, Less;
    GivesIsFirst(lines, "UID");
    GivesIsFirst(lines, "DTSTART");
    GivesIsFirst(lines, "DTEND");
    assert Tracked("UID") && Tracked("DTSTART") && Tracked("DTEND");
    assert Lookup(fields, "UID") == First(lines, "UID");
    assert Lookup(fields, "DTSTART") == First(lines, "DTSTART");
    assert Lookup(fields, "DTEND") == First(lines, "DTEND");
  }

  /**
   * A VEVENT from its opening line j to its closing line i adds the event the lines in between make up, or nothing
   * when they make up none.
   */
  lemma VeventYields(lines: seq<string>, j: nat, i: nat, inner: seq<string>, zone: Zone)
    requires j < i < |lines| && OpensLine(lines[j]) && ClosesLine(lines[i]) && inner == lines[j + 1..i]
    requires forall k | j < k < i :: !OpensLine(lines[k]) && !ClosesLine(lines[k])
    ensures var was, now := ScanLines(START, lines[..j], zone).events, ScanLines(START, lines[..i + 1], zone).events;
            || (exists e :: Yields(inner, zone, e) && now == was + [e])
            || ((forall e :: !Yields(inner, zone, e)) && now == was)
  {
    hide SplitLine, Opens, Closes, ToEvent, Yields, First, Trim, Upper, ScanLines;
    var st := ScanLines(START, lines[..j], zone);
    var begun := st.(current := Some(map[]));
    ScanSplit(lines, j, i, zone);
    assert Inner(inner);
    InnerCollects(begun, inner, zone);
    var collected := ScanLines(begun, inner, zone);
    NotBoth(lines[i]);
    NotBoth(lines[j]);
    forall e
      ensures ToEvent(collected.current.value, zone) == Some(e) <==> Yields(inner, zone, e)
    {
      ToEventYields(collected.current.value, inner, zone, e);
    }
  }

  lemma ScanSplit(lines: seq<string>, j: nat, i: nat, zone: Zone)
    requires j < i < |lines|
    ensures ScanLines(START, lines[..i + 1], zone)
         == Step(ScanLines(Step(ScanLines(START, lines[..j], zone), lines[j], zone), lines[j + 1..i], zone),
                 lines[i], zone)
  {
    hide Step;
    var st := ScanLines(START, lines[..j], zone);
    assert lines[..j + 1][..j] == lines[..j] && lines[..i + 1][..i] == lines[..i];
    assert lines[..i] == lines[..j + 1] + lines[j + 1..i];
    IcalRoundTrip.ScanConcat(START, lines[..j + 1], lines[j + 1..i], zone);
  }

  /** No other line adds an event, and none takes one away. */
  lemma OtherLinesYieldNothing(lines: seq<string>, i: nat, zone: Zone)
    requires i < |lines| && !(ClosesLine(lines[i]) && InsideVevent(lines, i))
    ensures ScanLines(START, lines[..i + 1], zone).events == ScanLines(START, lines[..i], zone).events
  {
    hide SplitLine, ToEvent, InsideVevent, Upper, Trim;
    assert lines[..i + 1][..i] == lines[..i];
    InsideIsOpen(lines[..i], zone);
    InsidePrefix(lines, i, i);
  }

  // ---- The envelope -----------------------------------------------------------------------------------

  /** A body is refused for its envelope exactly when one of the two marker lines is missing. */
  lemma AcceptedIff(body: string, zone: Zone)
    ensures Parse(body, None) == BadZone
    ensures Parse(body, Some(zone)).Parsed?
       <==> && (exists i :: 0 <= i < |Unfold(body)| && Upper(Trim(Unfold(body)[i])) == "BEGIN:VCALENDAR")
            && (exists i :: 0 <= i < |Unfold(body)| && Upper(Trim(Unfold(body)[i])) == "END:VCALENDAR")
    ensures !Parse(body, Some(zone)).Parsed? ==> Parse(body, Some(zone)) == NotTerminated
  {
    hide Unfold, Upper, Trim;
    var lines := Unfold(body);
    assert forall i | 0 <= i < |lines| :: Upper(Trim(lines[i])) == Upper(Trim(Unfold(body)[i]));
  }

  // ---- Date values ------------------------------------------------------------------------------------

  /** Eight digits at the head of a value; and the UTC form: those, T, six digits, Z, and nothing but spaces after. */
  lemma ShapesIff(v: string)
    ensures IsCompact(v) <==> |v| >= 8 && forall i | 0 <= i < 8 :: '0' <= v[i] <= '9'
    ensures IsUtc(v) <==>
            && |v| >= 16 && v[8] in "Tt" && v[15] in "Zz"
            && (forall i | 0 <= i < 15 && i != 8 :: '0' <= v[i] <= '9')
            && (forall i | 16 <= i < |v| :: IsSpace(v[i]))
  {
    if |v| >= 8 {
      DigitsAt(v, 0, 4);
      DigitsAt(v, 4, 6);
      DigitsAt(v, 6, 8);
    }
    if |v| >= 16 {
      DigitsAt(v, 9, 11);
      DigitsAt(v, 11, 13);
      DigitsAt(v, 13, 15);
    }
  }

  lemma DigitsAt(v: string, a: nat, b: nat)
    requires a <= b <= |v|
    ensures AllDigits(v[a..b]) <==> forall i | a <= i < b :: '0' <= v[i] <= '9'
  {
    if AllDigits(v[a..b]) {
      forall i | a <= i < b
        ensures '0' <= v[i] <= '9'
      {
        assert v[i] == v[a..b][i - a];
      }
    }
  }
}
