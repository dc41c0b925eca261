/**
 * A download cut after any number of octets, decoded as UTF-8: a character cut in the middle arrives as U+FFFD.
 */
module IcalOctets {
  import opened Options
  import opened Text
  import opened IcalExport
  import opened IcalParse
  import opened IcalTheorems

  const REPLACEMENT: char := '\U{FFFD}'

  /** What the first m octets of s decode to. */
  function Received(s: string, m: nat): string {
    if s == "" || m == 0 then ""
    else if Octets1(s[0]) <= m then [s[0]] + Received(s[1..], m - Octets1(s[0]))
    else [REPLACEMENT]
  }

  // ---- Where an octet cut falls ---------------------------------------------------------------------------

  lemma OctetsCons(s: string)
    requires s != ""
    ensures Octets(s) == Octets1(s[0]) + Octets(s[1..])
  {
    OctetsConcat([s[0]], s[1..]);
    assert s == [s[0]] + s[1..];
    assert [s[0]][..0] == "";
  }

  /** Character k of s is the first that does not arrive whole of m octets; k is |s| when all do. */
  predicate CutAt(s: string, m: nat, k: nat) {
    if m >= Octets(s) then k == |s|
    else k < |s| && Octets(s[..k]) <= m < Octets(s[..k]) + Octets1(s[k])
  }

  lemma CutAfterHead(s: string, m: nat, k: nat)
    requires s != "" && Octets1(s[0]) <= m && CutAt(s[1..], m - Octets1(s[0]), k)
    ensures CutAt(s, m, k + 1) && k <= |s[1..]|
    ensures Octets(s[..k + 1]) == Octets1(s[0]) + Octets(s[1..][..k])
  {
    OctetsCons(s);
    OctetsCons(s[..k + 1]);
    assert s[..k + 1][1..] == s[1..][..k];
    hide Octets;
  }

  /** The characters that arrived whole, and half of one more if it was begun. */
  lemma {:induction false} ReceivedIs(s: string, m: nat) returns (k: nat)
    ensures k <= |s| && CutAt(s, m, k)
    ensures Received(s, m) == s[..k] + if k < |s| && Octets(s[..k]) < m then [REPLACEMENT] else ""
  {
    if s == "" || m == 0 || Octets1(s[0]) > m {
      k := 0;
      assert s[..0] == "";
      if s != "" {
        OctetsCons(s);
      }
      return;
    }
    var rest := ReceivedIs(s[1..], m - Octets1(s[0]));
    CutAfterHead(s, m, rest);
    k := rest + 1;
    hide Octets, CutAt;
    assert s[..k] == [s[0]] + s[1..][..rest];
  }

  // ---- One more character after a cut ---------------------------------------------------------------------

  lemma DropFoldsStep(s: string)
    requires s != ""
    ensures DropFolds(s) ==
            if |s| >= 3 && s[0] == '\r' && s[1] == '\n' && IsBlank(s[2]) then DropFolds(s[3..])
            else [s[0]] + DropFolds(s[1..])
  {
  }

  lemma {:induction false} DropFoldsThen(s: string, c: char)
    requires !IsBreak(c) && !IsBlank(c)
    ensures DropFolds(s + [c]) == DropFolds(s) + [c]
    decreases |s|
  {
    if s == "" {
      assert s + [c] == [c] && [c][1..] == "";
    } else {
      hide DropFolds;
      DropFoldsStep(s);
      DropFoldsStep(s + [c]);
      if |s| >= 3 && s[0] == '\r' && s[1] == '\n' && IsBlank(s[2]) {
        DropFoldsThen(s[3..], c);
        assert (s + [c])[3..] == s[3..] + [c];
      } else {
        DropFoldsThen(s[1..], c);
        assert (s + [c])[1..] == s[1..] + [c];
      }
    }
  }

  lemma {:induction false} LooseThen(s: string, c: char)
    requires !IsBreak(c) && !IsBlank(c)
    ensures DropLooseFolds(s + [c]) == DropLooseFolds(s) + [c]
    decreases |s|
  {
    if s == "" {
      assert s + [c] == [c] && [c][1..] == "";
    } else if |s| >= 2 && IsBreak(s[0]) && IsBlank(s[1]) {
      LooseThen(s[2..], c);
      assert (s + [c])[2..] == s[2..] + [c];
    } else {
      LooseThen(s[1..], c);
      assert (s + [c])[1..] == s[1..] + [c];
    }
  }

  /** The last line, one character longer. */
  function Longer(lines: seq<string>, c: char): seq<string>
    requires lines != []
  {
    lines[..|lines| - 1] + [lines[|lines| - 1] + [c]]
  }

  lemma LongerAfter(head: string, lines: seq<string>, c: char)
    requires lines != []
    ensures Longer([head] + lines, c) == [head] + Longer(lines, c)
  {
    assert ([head] + lines)[..|lines|] == [head] + lines[..|lines| - 1];
  }

  lemma LongerHead(head: char, lines: seq<string>, c: char)
    requires lines != []
    ensures var more := Longer(lines, c);
            Longer([[head] + lines[0]] + lines[1..], c) == [[head] + more[0]] + more[1..]
  {
    var headed := [[head] + lines[0]] + lines[1..];
    if |lines| == 1 {
      assert headed == [[head] + lines[0]];
      assert [head] + lines[0] + [c] == [head] + (lines[0] + [c]);
    } else {
      assert headed[..|lines| - 1] == [[head] + lines[0]] + lines[1..][..|lines| - 2];
      assert lines[..|lines| - 1][1..] == lines[1..][..|lines| - 2];
    }
  }

  lemma {:induction false} SplitThen(s: string, c: char)
    requires !IsBreak(c)
    ensures SplitBreaks(s + [c]) == Longer(SplitBreaks(s), c)
    decreases |s|
  {
    var more := s + [c];
    if s == "" {
      assert more == [c] && [c][1..] == "";
      assert [c] + "" == "" + [c];
    } else if |s| >= 2 && s[0] == '\r' && s[1] == '\n' {
      SplitThen(s[2..], c);
      assert more[2..] == s[2..] + [c];
      LongerAfter("", SplitBreaks(s[2..]), c);
    } else if IsBreak(s[0]) {
      SplitThen(s[1..], c);
      assert more[1..] == s[1..] + [c];
      LongerAfter("", SplitBreaks(s[1..]), c);
    } else {
      SplitThen(s[1..], c);
      assert more[1..] == s[1..] + [c];
      LongerHead(s[0], SplitBreaks(s[1..]), c);
    }
  }

  /** Unfolding a body with one more visible character makes its last line longer, and nothing else. */
  lemma UnfoldLonger(body: string, c: char)
    requires !IsBreak(c) && !IsBlank(c)
    ensures Unfold(body + [c]) == Longer(Unfold(body), c)
  {
    hide DropFolds, DropLooseFolds, SplitBreaks;
    DropFoldsThen(body, c);
    LooseThen(DropFolds(body), c);
    SplitThen(DropLooseFolds(DropFolds(body)), c);
  }

  // ---- A replacement character is no marker ---------------------------------------------------------------

  lemma {:induction false} UpperThen(s: string, c: char)
    ensures Upper(s + [c]) == Upper(s) + UpperChar(c)
  {
    if s == "" {
      assert s + [c] == [c] && [c][1..] == "";
      assert UpperChar(c) + "" == UpperChar(c);
    } else {
      UpperThen(s[1..], c);
      assert (s + [c])[1..] == s[1..] + [c];
      assert UpperChar(s[0]) + (Upper(s[1..]) + UpperChar(c)) == UpperChar(s[0]) + Upper(s[1..]) + UpperChar(c);
    }
  }

  lemma {:induction false} TrimStartThen(s: string, c: char)
    requires !IsSpace(c)
    ensures TrimStart(s + [c]) == TrimStart(s) + [c]
  {
    if s == "" {
      assert s + [c] == [c];
    } else {
      TrimStartThen(s[1..], c);
      assert (s + [c])[1..] == s[1..] + [c];
    }
  }

  lemma MarkedLine(s: string, marker: string)
    requires marker != "" && marker[|marker| - 1] != REPLACEMENT
    ensures Upper(Trim(s + [REPLACEMENT])) != marker
  {
    assert !IsSpace(REPLACEMENT) && UpperChar(REPLACEMENT) == [REPLACEMENT];
    TrimStartThen(s, REPLACEMENT);
    var t := TrimStart(s) + [REPLACEMENT];
    assert TrimEnd(t) == t;
    UpperThen(TrimStart(s), REPLACEMENT);
    hide Upper, Trim, TrimStart, TrimEnd;
  }

  lemma StillNotSeen(lines: seq<string>, marker: string)
    requires lines != [] && !Saw(lines, marker) && marker != "" && marker[|marker| - 1] != REPLACEMENT
    ensures !Saw(Longer(lines, REPLACEMENT), marker)
  {
    hide Upper, Trim;
    var more := Longer(lines, REPLACEMENT);
    forall i | 0 <= i < |more|
      ensures Upper(Trim(more[i])) != marker
    {
      if i < |lines| - 1 {
        assert more[i] == lines[i];
      } else {
        MarkedLine(lines[|lines| - 1], marker);
      }
    }
  }

  /** A body that is refused is still refused with half a character after it. */
  lemma RefusedStaysRefused(body: string, zone: Zone)
    requires Parse(body, Some(zone)) == NotTerminated
    ensures Parse(body + [REPLACEMENT], Some(zone)) == NotTerminated
  {
    hide Unfold, Saw, ScanLines;
    UnfoldLonger(body, REPLACEMENT);
    var lines := Unfold(body);
    if !Saw(lines, BEGIN_CALENDAR) {
      StillNotSeen(lines, BEGIN_CALENDAR);
    } else {
      StillNotSeen(lines, END_CALENDAR);
    }
  }

  // ---- Truncation in octets -------------------------------------------------------------------------------

  /** A body ends with its line break. */
  lemma BodyEnds(prodId: string, stamp: string, events: seq<Event>)
    requires AllPrintable(events) && NoBreaks(stamp)
    ensures var body := Body(CalendarLines(prodId, stamp, events));
            |body| >= 2 && body[|body| - 2..] == CRLF
  {
    hide Body, Header, AllEventLines;
    BodySplits(prodId, stamp, events);
    var body := Body(CalendarLines(prodId, stamp, events));
    assert body[|body| - 2..] == CRLF;
  }

  lemma {:induction false} OctetsAtLeast(s: string)
    ensures Octets(s) >= |s|
  {
    if s != "" {
      OctetsAtLeast(s[..|s| - 1]);
    }
  }

  /** The octets of a line break's last characters. */
  lemma BreakOctets()
    ensures Octets("") == 0 && Octets("\n") == 1 && Octets("\r\n") == 2
  {
    assert "\r\n"[..1] == "\r" && "\r"[..0] == "" && "\n"[..0] == "";
  }

  /** What is left after k characters, in octets. */
  lemma TailOctets(body: string, k: nat)
    requires |body| >= 2 && body[|body| - 2..] == CRLF && k <= |body|
    ensures k + 2 >= |body| ==> Octets(body[k..]) == |body| - k
    ensures k + 2 < |body| ==> Octets(body[k..]) >= Octets1(body[k]) + 2
    ensures k + 2 >= |body| && k < |body| ==> Octets1(body[k]) == 1
  {
    var n := |body|;
    BreakOctets();
    hide Octets;
    assert body[n - 2] == body[n - 2..][0] && body[n - 1] == body[n - 2..][1];
    if k == n - 2 {
      assert body[k..] == "\r\n";
    } else if k == n - 1 {
      assert body[k..] == "\n";
    } else if k == n {
      assert body[k..] == "";
    } else {
      OctetsCons(body[k..]);
      assert body[k..][1..] == body[k + 1..];
      OctetsAtLeast(body[k + 1..]);
    }
  }

  lemma CutPoint(body: string, k: nat)
    requires |body| >= 2 && body[|body| - 2..] == CRLF && k <= |body|
    ensures k + 2 < |body| <==> Octets(body[..k]) + 2 < Octets(body)
    ensures k < |body| && Octets1(body[k]) > 1 ==>
              k + 2 < |body| && Octets(body[..k]) + Octets1(body[k]) + 2 <= Octets(body)
  {
    hide Octets;
    OctetsConcat(body[..k], body[k..]);
    assert body == body[..k] + body[k..];
    TailOctets(body, k);
  }

  /**
   * Truncation safety in octets. Cut an exported feed after any m octets, in the middle of a character or not: short of
   * the whole last line it is refused, and from there on it parses exactly as the complete feed does.
   */
  lemma OctetTruncationSafe(prodId: string, stamp: string, events: seq<Event>, m: nat, zone: Zone)
    requires AllPrintable(events) && NoBreaks(stamp)
    ensures var body := Body(CalendarLines(prodId, stamp, events));
            Parse(Received(body, m), Some(zone)) ==
            if m + 2 < Octets(body) then NotTerminated else Parse(body, Some(zone))
  {
    hide Body, Parse, Octets, Received, Header, AllEventLines, CalendarLines, Printable;
    var body := Body(CalendarLines(prodId, stamp, events));
    BodyEnds(prodId, stamp, events);
    var k := ReceivedIs(body, m);
    TruncationSafe(prodId, stamp, events, k, zone);
    CutPoint(body, k);
    if k < |body| && Octets(body[..k]) < m {
      RefusedStaysRefused(body[..k], zone);
    } else {
      assert body[..k] + "" == body[..k];
    }
    assert k == |body| ==> body[..k] == body;
  }
}
