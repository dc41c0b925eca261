/**
 * The printed feed as its reader sees it: texts unescaped, lines unfolded, instants read, every line spelled out.
 */
module IcalWire {
  import opened Options
  import opened Calendar
  import opened Text
  import opened IcalExport
  import opened IcalParse
  import opened IcalUnfold
  import opened IcalRoundTrip

  // ---- TEXT values (section 3.3.11 of RFC 5545) -----------------------------------------------------

  /** The text a TEXT value stands for. */
  function Unescape(s: string): string {
    if |s| >= 2 && s[0] == '\\' && s[1] in "nN" then "\n" + Unescape(s[2..])
    else if |s| >= 2 && s[0] == '\\' && s[1] in "\\;," then [s[1]] + Unescape(s[2..])
    else if s == "" then ""
    else [s[0]] + Unescape(s[1..])
  }

  /** The escapes of one character other than a line break. */
  function EscapedChar(c: char): string {
    if c in "\\;," then ['\\', c] else [c]
  }

  /** The three replacements, before the breaks are looked at. */
  function Marked(s: string): string {
    ReplaceAll(ReplaceAll(ReplaceAll(s, '\\', "\\\\"), ';', "\\;"), ',', "\\,")
  }

  lemma {:induction false} ReplaceConcat(a: string, b: string, c: char, r: string)
    ensures ReplaceAll(a + b, c, r) == ReplaceAll(a, c, r) + ReplaceAll(b, c, r)
  {
    if a == "" {
      assert a + b == b;
    } else {
      ReplaceConcat(a[1..], b, c, r);
      assert (a + b)[1..] == a[1..] + b;
      var head := if a[0] == c then r else [a[0]];
      assert ReplaceAll(a + b, c, r) == head + (ReplaceAll(a[1..], c, r) + ReplaceAll(b, c, r));
    }
  }

  lemma ReplaceOne(x: char, c: char, r: string)
    ensures ReplaceAll([x], c, r) == if x == c then r else [x]
  {
    assert [x][1..] == "";
  }

  lemma MarkedChar(x: char)
    ensures Marked([x]) == EscapedChar(x)
  {
    hide ReplaceAll;
    ReplaceOne(x, '\\', "\\\\");
    ReplaceOne(x, ';', "\\;");
    ReplaceOne(x, ',', "\\,");
    if x == '\\' {
      Two('\\', '\\', ';', "\\;");
      Two('\\', '\\', ',', "\\,");
    } else if x == ';' {
      Two('\\', ';', ',', "\\,");
    }
  }

  lemma Two(x: char, y: char, c: char, r: string)
    requires x != c && y != c
    ensures ReplaceAll([x, y], c, r) == [x, y]
  {
    hide ReplaceAll;
    ReplaceConcat([x], [y], c, r);
    ReplaceOne(x, c, r);
    ReplaceOne(y, c, r);
    assert [x] + [y] == [x, y];
  }

  lemma MarkedCons(s: string)
    requires s != ""
    ensures Marked(s) == EscapedChar(s[0]) + Marked(s[1..])
  {
    hide ReplaceAll;
    var x, t := [s[0]], s[1..];
    assert s == x + t;
    ReplaceConcat(x, t, '\\', "\\\\");
    var x1, t1 := ReplaceAll(x, '\\', "\\\\"), ReplaceAll(t, '\\', "\\\\");
    ReplaceConcat(x1, t1, ';', "\\;");
    ReplaceConcat(ReplaceAll(x1, ';', "\\;"), ReplaceAll(t1, ';', "\\;"), ',', "\\,");
    MarkedChar(s[0]);
  }

  lemma MarkedStarts(s: string)
    ensures Marked(s) == "" <==> s == ""
    ensures s != "" ==> (Marked(s)[0] == '\n' <==> s[0] == '\n')
  {
    if s == "" {
    } else {
      MarkedCons(s);
    }
  }

  lemma EscapeBreaksCons(c: char, t: string)
    requires !IsBreak(c)
    ensures EscapeBreaks([c] + t) == [c] + EscapeBreaks(t)
  {
    assert ([c] + t)[1..] == t;
  }

  lemma EscapeIsMarked(s: string)
    ensures EscapeText(s) == EscapeBreaks(Marked(s))
  {
  }

  /** Escaping goes character by character, a CRLF counting as one break. */
  lemma EscapeCons(s: string)
    requires s != ""
    ensures EscapeText(s) ==
            if |s| >= 2 && s[0] == '\r' && s[1] == '\n' then "\\n" + EscapeText(s[2..])
            else if IsBreak(s[0]) then "\\n" + EscapeText(s[1..])
            else EscapedChar(s[0]) + EscapeText(s[1..])
  {
    hide Marked, EscapeText;
    var m, t := Marked(s), Marked(s[1..]);
    EscapeIsMarked(s);
    EscapeIsMarked(s[1..]);
    MarkedCons(s);
    MarkedStarts(s[1..]);
    if IsBreak(s[0]) {
      assert m == [s[0]] + t && m[1..] == t;
      if |s| >= 2 && s[0] == '\r' && s[1] == '\n' {
        EscapeIsMarked(s[2..]);
        MarkedCons(s[1..]);
        assert s[1..][1..] == s[2..];
        assert t == "\n" + Marked(s[2..]) && m[2..] == Marked(s[2..]);
      }
    } else if |EscapedChar(s[0])| == 1 {
      EscapeBreaksCons(s[0], t);
    } else {
      EscapeBreaksCons(s[0], t);
      EscapeBreaksCons('\\', [s[0]] + t);
      assert m == ['\\'] + ([s[0]] + t);
    }
  }

  /**
   * A printed TEXT value stands for the text it was made from, every line break in it read as a newline; so no
   * other text with the same breaks is ever printed the same.
   */
  lemma {:induction false} UnescapeReadsBack(s: string)
    ensures Unescape(EscapeText(s)) == Join(SplitBreaks(s), "\n")
    decreases |s|
  {
    hide EscapeText;
    if s == "" {
      EscapeIsMarked(s);
    } else {
      EscapeCons(s);
      var skip := if |s| >= 2 && s[0] == '\r' && s[1] == '\n' then 2 else 1;
      var rest := s[skip..];
      var tail := EscapeText(rest);
      UnescapeReadsBack(rest);
      UnescapeHead(s[0], tail);
      JoinSplit(s, skip);
    }
  }

  lemma UnescapeHead(c: char, tail: string)
    ensures Unescape("\\n" + tail) == "\n" + Unescape(tail)
    ensures !IsBreak(c) ==> Unescape(EscapedChar(c) + tail) == [c] + Unescape(tail)
  {
    assert ("\\n" + tail)[2..] == tail;
    var e := EscapedChar(c) + tail;
    assert e[|EscapedChar(c)|..] == tail;
  }

  lemma JoinSplit(s: string, skip: nat)
    requires s != "" && skip == if |s| >= 2 && s[0] == '\r' && s[1] == '\n' then 2 else 1
    ensures Join(SplitBreaks(s), "\n") == (if IsBreak(s[0]) then "\n" else [s[0]]) + Join(SplitBreaks(s[skip..]), "\n")
  {
    SplitHead(s, skip);
    hide SplitBreaks, Join;
    var rest := SplitBreaks(s[skip..]);
    JoinNewLine(rest);
    JoinLonger(s[0], rest);
  }

  lemma SplitHead(s: string, skip: nat)
    requires s != "" && skip == if |s| >= 2 && s[0] == '\r' && s[1] == '\n' then 2 else 1
    ensures var rest := SplitBreaks(s[skip..]);
            SplitBreaks(s) == if IsBreak(s[0]) then [""] + rest else [[s[0]] + rest[0]] + rest[1..]
  {
  }

  lemma JoinNewLine(rest: seq<string>)
    requires rest != []
    ensures Join([""] + rest, "\n") == "\n" + Join(rest, "\n")
  {
    assert ([""] + rest)[1..] == rest;
  }

  lemma JoinLonger(c: char, rest: seq<string>)
    requires rest != []
    ensures Join([[c] + rest[0]] + rest[1..], "\n") == [c] + Join(rest, "\n")
  {
    var all := [[c] + rest[0]] + rest[1..];
    assert all[1..] == rest[1..];
    if |rest| > 1 {
      assert [c] + (rest[0] + "\n" + Join(rest[1..], "\n")) == ([c] + rest[0]) + "\n" + Join(rest[1..], "\n");
    }
  }

  // ---- Folding (section 3.1 of RFC 5545) ------------------------------------------------------------

  /** Piece i with the next character added is more than its budget. */
  predicate Full(ps: seq<string>, i: nat, first: bool)
    requires i < |ps| - 1
  {
    ps[i + 1] != "" && Octets(ps[i]) + Octets1(ps[i + 1][0]) > (if first && i == 0 then 75 else 74)
  }

  /** No piece could have taken the next character too: folding cuts as late as 75 octets allow. */
  lemma {:induction false} PiecesAreFull(rest: string, current: string, bytes: nat, first: bool)
    requires bytes == Octets(current)
    ensures var ps := Pieces(rest, current, bytes, first);
            && ps != [] && current <= ps[0]
            && forall i | 0 <= i < |ps| - 1 :: Full(ps, i, first)
    decreases |rest|
  {
    hide Octets1;
    if rest != "" {
      var n := Octets1(rest[0]);
      OctetsConcat(current, [rest[0]]);
      assert Octets([rest[0]]) == n;
      if bytes + n > (if first then 75 else 74) {
        PiecesAreFull(rest[1..], [rest[0]], n, false);
        var more := Pieces(rest[1..], [rest[0]], n, false);
        assert more[0][0] == rest[0];
        var ps := [current] + more;
        forall i | 0 <= i < |ps| - 1
          ensures Full(ps, i, first)
        {
          if i > 0 {
            assert Full(more, i - 1, false);
          }
        }
        assert Pieces(rest, current, bytes, first) == ps;
      } else {
        PiecesAreFull(rest[1..], current + [rest[0]], bytes + n, first);
      }
    }
  }

  /** The i-th physical line of a folded one: from the second on, a blank comes first. */
  function Physical(ps: seq<string>, i: nat): string
    requires i < |ps|
  {
    if i == 0 then ps[0] else " " + ps[i]
  }

  /** Physical line i would be too long with the next character. */
  predicate Brimful(ps: seq<string>, i: nat)
    requires i < |ps| - 1
  {
    ps[i + 1] != "" && Octets(Physical(ps, i) + [ps[i + 1][0]]) > 75
  }

  /**
   * A content line is folded exactly when it is longer than 75 octets; then every physical line but the last is
   * as full as it can be without cutting a character in two, the blank of a continuation counted.
   */
  lemma FoldsLate(line: string)
    ensures Fold(line) == line <==> Octets(line) <= 75
    ensures Octets(line) > 75 ==>
              var ps := Pieces(line, "", 0, true);
              && Fold(line) == Join(ps, "\r\n ") && Concat(ps) == line && |ps| > 1
              && (forall i | 0 <= i < |ps| :: Octets(Physical(ps, i)) <= 75)
              && forall i | 0 <= i < |ps| - 1 :: Brimful(ps, i)
  {
    hide Octets1, Octets;
    if Octets(line) > 75 {
      var ps := Pieces(line, "", 0, true);
      assert Octets("") == 0 by {
        NoOctets();
      }
      PiecesFit(line, "", 0, true);
      PiecesAreFull(line, "", 0, true);
      assert "" + line == line;
      OneSpace();
      OnePiece(ps);
      forall i | 0 <= i < |ps|
        ensures Octets(Physical(ps, i)) == Octets(ps[i]) + if i == 0 then 0 else 1
      {
        OctetsConcat(" ", ps[i]);
      }
      forall i | 0 <= i < |ps| - 1
        ensures Brimful(ps, i)
      {
        assert Full(ps, i, true);
        OctetsConcat(Physical(ps, i), [ps[i + 1][0]]);
        OneCharacter(ps[i + 1][0]);
      }
      JoinIsLonger(ps);
    }
  }

  lemma OnePiece(ps: seq<string>)
    ensures |ps| == 1 ==> Concat(ps) == ps[0]
  {
  }

  lemma NoOctets()
    ensures Octets("") == 0
  {
  }

  lemma OneCharacter(c: char)
    ensures Octets([c]) == Octets1(c)
  {
    assert [c][..0] == "";
  }

  lemma JoinIsLonger(ps: seq<string>)
    requires |ps| > 1
    ensures |Join(ps, FOLD)| > |Concat(ps)|
  {
    assert |Join(ps[1..], FOLD)| >= |Concat(ps[1..])| by {
      JoinIsNoShorter(ps[1..]);
    }
  }

  lemma {:induction false} JoinIsNoShorter(ps: seq<string>)
    ensures |Join(ps, FOLD)| >= |Concat(ps)|
  {
    if |ps| > 1 {
      JoinIsNoShorter(ps[1..]);
    }
  }

  /** The octets of a character are its UTF-8 length: the boundaries of RFC 3629, section 3. */
  lemma Utf8Lengths(c: char)
    ensures Octets([c]) == 1 <==> c <= '\U{007F}'
    ensures Octets([c]) == 2 <==> '\U{0080}' <= c <= '\U{07FF}'
    ensures Octets([c]) == 3 <==> '\U{0800}' <= c <= '\U{FFFF}'
    ensures Octets([c]) == 4 <==> '\U{10000}' <= c
  {
    OneCharacter(c);
  }

  // ---- Unfolding (section 3.1 of RFC 5545) ----------------------------------------------------------

  /** One pass: every line break, of any kind, goes with the blank after it. */
  function OnePass(s: string): string {
    if s == "" then ""
    else if |s| >= 3 && s[0] == '\r' && s[1] == '\n' && IsBlank(s[2]) then OnePass(s[3..])
    else if |s| >= 2 && IsBreak(s[0]) && IsBlank(s[1]) then OnePass(s[2..])
    else [s[0]] + OnePass(s[1..])
  }

  /** Only CRLF folds, one or more, before a blank that starts nothing. */
  predicate SparesBlank(t: string) {
    && |t| >= 4 && t[0] == '\r' && t[1] == '\n' && IsBlank(t[2])
    && (IsBlank(t[3]) || SparesBlank(t[3..]))
  }

  /** A line break straight before such folds: an empty line, continued by a line that starts with two blanks. */
  ghost predicate Overlapping(s: string) {
    exists i :: 0 <= i < |s| && IsBreak(s[i]) && SparesBlank(s[i + 1..])
  }

  lemma OverlapStep(s: string, k: nat)
    requires k <= |s| && forall i | 0 <= i < k && IsBreak(s[i]) :: !SparesBlank(s[i + 1..])
    ensures Overlapping(s) <==> Overlapping(s[k..])
  {
    if i :| 0 <= i < |s| && IsBreak(s[i]) && SparesBlank(s[i + 1..]) {
      assert s[k..][i - k] == s[i] && s[k..][i - k + 1..] == s[i + 1..];
    }
    if i :| 0 <= i < |s| - k && IsBreak(s[k..][i]) && SparesBlank(s[k..][i + 1..]) {
      assert s[k..][i] == s[i + k] && s[k..][i + 1..] == s[i + k + 1..];
    }
  }

  lemma {:induction false} FirstBlank(t: string)
    ensures DropFolds(t) != "" && IsBlank(DropFolds(t)[0]) <==> (t != "" && IsBlank(t[0])) || SparesBlank(t)
  {
    if |t| >= 3 && t[0] == '\r' && t[1] == '\n' && IsBlank(t[2]) {
      FirstBlank(t[3..]);
    }
  }

  /**
   * The parser unfolds in two passes, the CRLF folds first. That is one pass over every kind of break exactly when
   * no empty line is continued, after a CRLF, by a line that starts with two blanks; there a blank of the text goes.
   */
  lemma {:induction false} TwoPassesAreOneIff(s: string)
    ensures DropLooseFolds(DropFolds(s)) == OnePass(s) <==> !Overlapping(s)
    ensures |DropLooseFolds(DropFolds(s))| <= |OnePass(s)|
    decreases |s|
  {
    hide SparesBlank, Overlapping;
    if s == "" {
      OverlapOfNothing();
    } else {
      var k := if |s| >= 3 && s[0] == '\r' && s[1] == '\n' && IsBlank(s[2]) then 3
               else if |s| >= 2 && IsBreak(s[0]) && IsBlank(s[1]) then 2 else 1;
      var t := s[k..];
      TwoPassesAreOneIff(t);
      if k == 1 {
        FirstBlank(t);
        LooseHead(s[0], DropFolds(t));
        OneHead(s[0], OnePass(t), DropLooseFolds(DropFolds(t)));
        OverlapHead(s);
      } else {
        NoOverlapInFold(s, k);
        if k == 2 {
          LooseFold(s[0], s[1], t);
        }
      }
    }
  }

  lemma OverlapOfNothing()
    ensures !Overlapping("")
  {
  }

  lemma OneHead(c: char, a: string, b: string)
    ensures [c] + a == [c] + b <==> a == b
  {
    assert ([c] + a)[1..] == a && ([c] + b)[1..] == b;
  }

  lemma OverlapHead(s: string)
    requires s != ""
    ensures Overlapping(s) <==> (IsBreak(s[0]) && SparesBlank(s[1..])) || Overlapping(s[1..])
  {
    hide SparesBlank;
    if !(IsBreak(s[0]) && SparesBlank(s[1..])) {
      OverlapStep(s, 1);
    }
  }

  lemma NoOverlapInFold(s: string, k: nat)
    requires (k == 3 && |s| >= 3 && s[0] == '\r' && s[1] == '\n' && IsBlank(s[2]))
          || (k == 2 && |s| >= 2 && IsBreak(s[0]) && IsBlank(s[1]))
    ensures Overlapping(s) <==> Overlapping(s[k..])
  {
    OverlapStep(s, k);
  }

  /** The second pass at a character the first has kept. */
  lemma LooseHead(c: char, d: string)
    ensures var blank := d != "" && IsBlank(d[0]);
            && DropLooseFolds([c] + d)
               == (if IsBreak(c) && blank then DropLooseFolds(d[1..]) else [c] + DropLooseFolds(d))
            && (blank ==> |DropLooseFolds(d[1..])| < |DropLooseFolds(d)|)
  {
    assert ([c] + d)[1..] == d;
    if d != "" && IsBlank(d[0]) {
      assert ([c] + d)[2..] == d[1..];
    }
  }

  lemma LooseFold(b: char, c: char, t: string)
    requires IsBreak(b) && IsBlank(c)
    ensures DropLooseFolds(DropFolds([b, c] + t)) == DropLooseFolds(DropFolds(t))
  {
    var d := DropFolds(t);
    var s := [b, c] + t;
    assert s[1..] == [c] + t && ([c] + t)[1..] == t;
    assert DropFolds([c] + t) == [c] + d;
    assert DropFolds(s) == [b] + ([c] + d);
    assert ([b] + ([c] + d))[2..] == d;
  }

  /** Two physical lines are two lines, or one where the second starts with a blank, which goes with the break. */
  lemma UnfoldsAnyBreak(a: string, br: string, b: string)
    requires NoBreaks(a) && NoBreaks(b) && (br == "\r\n" || br == "\r" || br == "\n")
    ensures Unfold(a + br + b) == if b != "" && b[0] in " \t" then [a + b[1..]] else [a, b]
  {
    var s := br + b;
    assert a + br + b == a + s;
    DropFoldsSkips(a, s);
    LooseSkips(a, DropFolds(s));
    SplitSkips(a, DropLooseFolds(DropFolds(s)));
    UnfoldsBreak(br, b);
    assert a + "" == a;
  }

  lemma PassesKeep(b: string)
    requires NoBreaks(b)
    ensures DropFolds(b) == b && DropLooseFolds(b) == b && SplitBreaks(b) == [b]
  {
    DropFoldsSkips(b, "");
    LooseSkips(b, "");
    SplitSkips(b, "");
    assert b + "" == b;
  }

  lemma UnfoldsBreak(br: string, b: string)
    requires NoBreaks(b) && (br == "\r\n" || br == "\r" || br == "\n")
    ensures SplitBreaks(DropLooseFolds(DropFolds(br + b)))
         == if b != "" && b[0] in " \t" then [b[1..]] else ["", b]
  {
    hide DropFolds, DropLooseFolds, SplitBreaks;
    var s := br + b;
    PassesKeep(b);
    if b != "" && b[0] in " \t" {
      var t := b[1..];
      assert NoBreaks(t);
      PassesKeep(t);
      if br == "\r\n" {
        assert b == [b[0]] + t;
        CrlfFold(b[0], t);
        assert s == "\r\n" + [b[0]] + t;
      } else {
        assert s == [br[0], b[0]] + t;
        LooseFold(br[0], b[0], t);
      }
    } else {
      NoFold(br, b);
    }
  }

  lemma CrlfFold(c: char, t: string)
    requires IsBlank(c)
    ensures DropFolds("\r\n" + [c] + t) == DropFolds(t)
  {
    assert ("\r\n" + [c] + t)[3..] == t;
  }

  lemma NoFold(br: string, b: string)
    requires NoBreaks(b) && (br == "\r\n" || br == "\r" || br == "\n") && (b == "" || b[0] !in " \t")
    ensures SplitBreaks(DropLooseFolds(DropFolds(br + b))) == ["", b]
  {
    PassesKeep(b);
    var s := br + b;
    assert s[|br|..] == b;
    if br == "\r\n" {
      DropFoldsKeepsBreak(b);
      LooseKeepsBreak(b);
    } else {
      assert s[1..] == b;
      assert DropFolds(s) == s && DropLooseFolds(s) == s;
    }
    assert SplitBreaks(s) == [""] + SplitBreaks(b);
  }

  // ---- Instants (section 3.3.5 of RFC 5545) ---------------------------------------------------------

  lemma TwoDigits(n: nat)
    requires n < 100
    ensures |Pad(n, 2)| == 2 && AllDigits(Pad(n, 2)) && Num(Pad(n, 2)) == n
  {
    assert Pow10(2) == 100;
    PadNum(n, 2);
  }

  /** Sixteen characters while the year has four digits; a later year comes with a sign and six, an earlier with six. */
  lemma StampLength(t: Stamp)
    ensures var year := CivilOf(t.day).year;
            && |FormatStamp(t)| == (if year > 9999 then 19 else if year >= 0 then 16 else 18)
            && (FormatStamp(t)[0] == '+' <==> year > 9999)
  {
    hide CivilOf, Pad;
    var c := CivilOf(t.day);
    if c.year >= 0 {
      assert IsDigit(Pad(c.year, 4)[0]);
    } else {
      assert IsDigit(Pad(-c.year, 6)[0]);
    }
  }

  lemma FormatStampIs(t: Stamp)
    requires 0 <= CivilOf(t.day).year <= 9999 && t.second < 86400
    ensures var c, s := CivilOf(t.day), t.second;
            FormatStamp(t) == Pad(c.year, 4) + Pad(c.month, 2) + Pad(c.day, 2) + "T"
                              + Pad(s / 3600, 2) + Pad(s / 60 % 60, 2) + Pad(s % 60, 2) + "Z"
  {
    hide CivilOf, Pad;
    assert t.second % 86400 == t.second;
  }

  /** The printed instant, cut into its fields. */
  lemma StampFields(t: Stamp)
    requires 0 <= CivilOf(t.day).year <= 9999 && t.second < 86400
    ensures var v := FormatStamp(t);
            && |v| == 16 && v[8] == 'T' && v[15] == 'Z'
            && v[..4] == Pad(CivilOf(t.day).year, 4)
            && v[4..6] == Pad(CivilOf(t.day).month, 2) && v[6..8] == Pad(CivilOf(t.day).day, 2)
            && v[9..11] == Pad(t.second / 3600, 2) && v[11..13] == Pad(t.second / 60 % 60, 2)
            && v[13..15] == Pad(t.second % 60, 2)
  {
    FormatStampIs(t);
    hide CivilOf, Pad, FormatStamp;
    var c, s := CivilOf(t.day), t.second;
    Sliced(Pad(c.year, 4), Pad(c.month, 2), Pad(c.day, 2), Pad(s / 3600, 2), Pad(s / 60 % 60, 2), Pad(s % 60, 2));
  }

  lemma Sliced(y: string, m: string, d: string, hh: string, mi: string, ss: string)
    requires |y| == 4 && |m| == |d| == |hh| == |mi| == |ss| == 2
    ensures var v := y + m + d + "T" + hh + mi + ss + "Z";
            && |v| == 16 && v[8] == 'T' && v[15] == 'Z' && v[..4] == y && v[4..6] == m && v[6..8] == d
            && v[9..11] == hh && v[11..13] == mi && v[13..15] == ss
  {
  }

  /**
   * The generation instant reads back: a UTC value whose date and second are the ones that were printed, and which
   * the parser would place on the date the property's calendar shows at that instant.
   */
  lemma StampReadsBack(t: Stamp, zone: Zone)
    requires 0 <= t.day < YearStart(10000) && t.second < 86400
    ensures var v := FormatStamp(t);
            && |v| == 16 && IsUtc(v)
            && CompactCivil(v) == CivilOf(t.day) && UtcSecond(v) == Some(t.second)
            && ToIsoDate(v, zone) == LocalDate(zone, t.day * 86400 + t.second)
  {
    hide CivilOf, Pad, MakeDay, YearStart, LocalDate, FormatStamp;
    var v, c := FormatStamp(t), CivilOf(t.day);
    YearInRange(t.day);
    StampFields(t);
    StampIsUtc(t);
    CompactStartsVisible(v);
    RoundTripAcceptsRealDates(c.year, c.month, c.day);
    MakeDayInYear(c.year, c.month, c.day);
    hide IsUtc, IsCompact, CompactCivil, UtcSecond, TrimStart, DayNumber, CompactToIso;
    assert ToIsoDate(v, zone) == LocalDate(zone, t.day * 86400 + t.second);
  }

  lemma StampIsUtc(t: Stamp)
    requires 0 <= CivilOf(t.day).year <= 9999 && t.second < 86400
    ensures var v := FormatStamp(t);
            |v| == 16 && IsUtc(v) && CompactCivil(v) == CivilOf(t.day) && UtcSecond(v) == Some(t.second)
  {
    hide CivilOf, Pad, FormatStamp, Num, AllDigits;
    var c := CivilOf(t.day);
    StampFields(t);
    YearDigits(c.year);
    TwoDigits(c.month);
    TwoDigits(c.day);
    TwoDigits(t.second / 3600);
    TwoDigits(t.second / 60 % 60);
    TwoDigits(t.second % 60);
  }

  lemma YearDigits(y: nat)
    requires y <= 9999
    ensures |Pad(y, 4)| == 4 && AllDigits(Pad(y, 4)) && Num(Pad(y, 4)) == y
  {
    assert Pow10(4) == 10000;
    PadNum(y, 4);
  }

  lemma YearInRange(day: int)
    requires 0 <= day < YearStart(10000)
    ensures 0 <= CivilOf(day).year <= 9999
  {
    hide CivilOf;
    var c := CivilOf(day);
    DayInYear(c);
    if c.year < 0 {
      YearStartMonotone(c.year, 0);
    } else if c.year > 10000 {
      YearStartMonotone(10000, c.year);
    }
  }

  // ---- The lines of a feed --------------------------------------------------------------------------

  /**
   * The feed line by line, as a reader unfolds it: five lines of envelope, eight for each span, in order, and the
   * closing line; nothing of a span but its UID and its two dates is written.
   */
  lemma FeedSpelledOut(prodId: string, stamp: string, events: seq<Event>)
    requires AllPrintable(events) && NoBreaks(stamp)
    ensures var lines := Unfold(Body(CalendarLines(prodId, stamp, events)));
            && |lines| == 5 + 8 * |events| + 2
            && lines[..5] == ["BEGIN:VCALENDAR", "VERSION:2.0", "PRODID:" + EscapeText(prodId), "CALSCALE:GREGORIAN",
                              "METHOD:PUBLISH"]
            && lines[5 + 8 * |events|..] == ["END:VCALENDAR", ""]
            && forall i | 0 <= i < |events| ::
                 var e := events[i];
                 lines[5 + 8 * i..13 + 8 * i]
                 == ["BEGIN:VEVENT",
                     "UID:" + EscapeText(e.uid),
                     "DTSTAMP:" + stamp,
                     "DTSTART;VALUE=DATE:" + (e.start[..4] + e.start[5..7] + e.start[8..]),
                     "DTEND;VALUE=DATE:" + (e.end[..4] + e.end[5..7] + e.end[8..]),
                     "SUMMARY:Unavailable (Sambung)",
                     "TRANSP:OPAQUE",
                     "END:VEVENT"]
  {
    hide Unfold, Body, EscapeText, AllEventLines, CleanLine;
    var all := AllEventLines(events, stamp);
    CalendarLinesClean(prodId, stamp, events);
    UnfoldBody(CalendarLines(prodId, stamp, events));
    AllEventLinesLength(events, stamp);
    var lines := CalendarLines(prodId, stamp, events) + [""];
    forall i | 0 <= i < |events|
      ensures lines[5 + 8 * i..13 + 8 * i] == EventLines(events[i], stamp)
    {
      EventLinesAt(events, stamp, i);
      hide EventLines;
      assert lines[5 + 8 * i..13 + 8 * i] == all[8 * i..8 * i + 8];
    }
    PlainTextUnescaped(EVENT_SUMMARY);
    assert "SUMMARY:" + EVENT_SUMMARY == "SUMMARY:Unavailable (Sambung)";
  }

  lemma EightLines(e: Event, stamp: string)
    requires Printable(e)
    ensures |EventLines(e, stamp)| == 8
  {
  }

  lemma {:induction false} AllEventLinesLength(events: seq<Event>, stamp: string)
    requires AllPrintable(events)
    ensures |AllEventLines(events, stamp)| == 8 * |events|
  {
    hide EventLines;
    if events != [] {
      AllEventLinesLength(events[..|events| - 1], stamp);
      EightLines(events[|events| - 1], stamp);
    }
  }

  lemma {:induction false} EventLinesAt(events: seq<Event>, stamp: string, i: nat)
    requires AllPrintable(events) && i < |events|
    ensures 8 * i + 8 <= |AllEventLines(events, stamp)|
    ensures AllEventLines(events, stamp)[8 * i..8 * i + 8] == EventLines(events[i], stamp)
  {
    hide EventLines;
    var n := |events| - 1;
    var init, last := AllEventLines(events[..n], stamp), EventLines(events[n], stamp);
    AllEventLinesLength(events[..n], stamp);
    EightLines(events[n], stamp);
    if i < n {
      EventLinesAt(events[..n], stamp, i);
      assert (init + last)[8 * i..8 * i + 8] == init[8 * i..8 * i + 8];
    } else {
      assert (init + last)[8 * i..8 * i + 8] == last;
    }
  }
}
