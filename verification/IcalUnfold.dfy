/**
 * Printing lines and unfolding them again: of the whole text, and of every prefix of it.
 */
module IcalUnfold {
  import opened Text
  import opened IcalExport
  import opened IcalParse

  /** A logical line the printer emits: something visible first, no line break anywhere. */
  predicate CleanLine(l: string) {
    l != "" && !IsBlank(l[0]) && NoBreaks(l)
  }

  ghost predicate CleanLines(lines: seq<string>) {
    forall i | 0 <= i < |lines| :: CleanLine(lines[i])
  }

  /** The lines terminated but not folded. */
  function Plain(lines: seq<string>): string {
    if lines == [] then "" else lines[0] + CRLF + Plain(lines[1..])
  }

  /** What follows a line break is not a continuation. */
  predicate FreshStart(rest: string) {
    rest == "" || !IsBlank(rest[0])
  }

  // ---- A folded line as its pieces ------------------------------------------------------------------

  function FoldPieces(line: string): seq<string> {
    if Octets(line) <= 75 then [line] else Pieces(line, "", 0, true)
  }

  /** Folding only cuts: the pieces are the line, none has a break, the first takes 75 octets and the others 74. */
  lemma FoldIsJoin(line: string)
    requires NoBreaks(line)
    ensures var ps := FoldPieces(line);
            && ps != [] && Fold(line) == Join(ps, FOLD) && Concat(ps) == line
            && (forall i | 0 <= i < |ps| :: NoBreaks(ps[i]))
            && Octets(ps[0]) <= 75
            && forall i | 1 <= i < |ps| :: Octets(ps[i]) <= 74
  {
    if Octets(line) <= 75 {
      assert Concat([line]) == line;
    } else {
      PiecesFit(line, "", 0, true);
      assert "" + line == line;
      PartsHaveNoBreaks(FoldPieces(line));
    }
  }

  lemma {:induction false} PartsHaveNoBreaks(ps: seq<string>)
    requires NoBreaks(Concat(ps))
    ensures forall i | 0 <= i < |ps| :: NoBreaks(ps[i])
  {
    if ps != [] {
      var rest := Concat(ps[1..]);
      assert forall i | 0 <= i < |ps[0]| :: Concat(ps)[i] == ps[0][i];
      assert forall i | 0 <= i < |rest| :: Concat(ps)[|ps[0]| + i] == rest[i];
      PartsHaveNoBreaks(ps[1..]);
    }
  }

  // ---- The first pass -------------------------------------------------------------------------------

  lemma DropFoldsHead(c: char, rest: string)
    requires !IsBreak(c)
    ensures DropFolds([c] + rest) == [c] + DropFolds(rest)
  {
    assert ([c] + rest)[1..] == rest;
  }

  lemma {:induction false} DropFoldsSkips(c: string, rest: string)
    requires NoBreaks(c)
    ensures DropFolds(c + rest) == c + DropFolds(rest)
  {
    hide DropFolds;
    if c == "" {
      assert c + rest == rest;
      assert c + DropFolds(rest) == DropFolds(rest);
    } else {
      DropFoldsSkips(c[1..], rest);
      DropFoldsHead(c[0], c[1..] + rest);
      assert c + rest == [c[0]] + (c[1..] + rest);
      assert c + DropFolds(rest) == [c[0]] + (c[1..] + DropFolds(rest));
    }
  }

  lemma DropFoldsDrops(rest: string)
    ensures DropFolds(FOLD + rest) == DropFolds(rest)
  {
    var s := FOLD + rest;
    assert s[0] == '\r' && s[1] == '\n' && s[2] == ' ' && s[3..] == rest;
  }

  lemma DropFoldsKeepsBreak(rest: string)
    requires FreshStart(rest)
    ensures DropFolds(CRLF + rest) == CRLF + DropFolds(rest)
  {
    var s := CRLF + rest;
    assert s[1..] == "\n" + rest && s[0] == '\r';
    assert ("\n" + rest)[1..] == rest;
    assert DropFolds(s) == "\r" + DropFolds("\n" + rest);
    assert DropFolds("\n" + rest) == "\n" + DropFolds(rest);
  }

  lemma {:induction false} DropFoldsJoins(ps: seq<string>, rest: string)
    requires ps != [] && forall i | 0 <= i < |ps| :: NoBreaks(ps[i])
    ensures DropFolds(Join(ps, FOLD) + rest) == Concat(ps) + DropFolds(rest)
  {
    if |ps| == 1 {
      DropFoldsSkips(ps[0], rest);
      assert Concat(ps) == ps[0];
    } else {
      var tail := Join(ps[1..], FOLD) + rest;
      assert Join(ps, FOLD) + rest == ps[0] + (FOLD + tail);
      DropFoldsSkips(ps[0], FOLD + tail);
      DropFoldsDrops(tail);
      DropFoldsJoins(ps[1..], rest);
    }
  }

  lemma DropFoldsLine(l: string, rest: string)
    requires CleanLine(l) && FreshStart(rest)
    ensures DropFolds(Fold(l) + (CRLF + rest)) == l + (CRLF + DropFolds(rest))
  {
    hide Fold, FoldPieces, DropFolds;
    FoldIsJoin(l);
    DropFoldsJoins(FoldPieces(l), CRLF + rest);
    DropFoldsKeepsBreak(rest);
  }

  /** The first pass undoes the folding of whole lines. */
  lemma {:induction false} DropFoldsBody(lines: seq<string>, rest: string)
    requires CleanLines(lines) && FreshStart(rest)
    ensures DropFolds(Body(lines) + rest) == Plain(lines) + DropFolds(rest)
  {
    hide Fold, FoldPieces, DropFolds;
    if lines == [] {
      assert Body(lines) + rest == rest;
    } else {
      var ls := lines[1..];
      BodyStartsFresh(ls, rest);
      DropFoldsLine(lines[0], Body(ls) + rest);
      assert Body(lines) + rest == Fold(lines[0]) + (CRLF + (Body(ls) + rest));
      DropFoldsBody(ls, rest);
    }
  }

  lemma BodyStartsFresh(lines: seq<string>, rest: string)
    requires CleanLines(lines) && FreshStart(rest)
    ensures FreshStart(Body(lines) + rest)
  {
    if lines != [] {
      FoldKeepsHead(lines[0]);
    } else {
      assert Body(lines) + rest == rest;
    }
  }

  lemma FoldKeepsHead(l: string)
    requires CleanLine(l)
    ensures Fold(l) != "" && Fold(l)[0] == l[0]
  {
    hide Octets;
    FoldIsJoin(l);
    if Octets(l) > 75 {
      assert "" + [l[0]] == [l[0]];
      PiecesKeepHead(l[1..], [l[0]], Octets1(l[0]), true);
    }
  }

  lemma {:induction false} PiecesKeepHead(rest: string, current: string, bytes: nat, first: bool)
    requires current != ""
    ensures var ps := Pieces(rest, current, bytes, first);
            ps != [] && current <= ps[0] && Join(ps, FOLD) != "" && Join(ps, FOLD)[0] == current[0]
    decreases |rest|
  {
    if rest != "" {
      var n := Octets1(rest[0]);
      if bytes + n > (if first then 75 else 74) {
        PiecesNonEmpty(rest[1..], [rest[0]], n, false);
      } else {
        PiecesKeepHead(rest[1..], current + [rest[0]], bytes + n, first);
      }
    }
  }

  // ---- The second pass and the split ----------------------------------------------------------------

  lemma {:induction false} LooseSkips(c: string, rest: string)
    requires NoBreaks(c)
    ensures DropLooseFolds(c + rest) == c + DropLooseFolds(rest)
  {
    if c == "" {
      assert c + rest == rest;
    } else {
      LooseSkips(c[1..], rest);
      assert (c + rest)[1..] == c[1..] + rest;
      assert c == [c[0]] + c[1..];
    }
  }

  lemma LooseKeepsBreak(rest: string)
    requires FreshStart(rest)
    ensures DropLooseFolds(CRLF + rest) == CRLF + DropLooseFolds(rest)
  {
    var s := CRLF + rest;
    assert s[1..] == "\n" + rest && s[0] == '\r';
    assert ("\n" + rest)[1..] == rest;
    assert DropLooseFolds(s) == "\r" + DropLooseFolds("\n" + rest);
  }

  lemma PlainStartsFresh(lines: seq<string>, rest: string)
    requires CleanLines(lines) && FreshStart(rest)
    ensures FreshStart(Plain(lines) + rest)
  {
    if lines == [] {
      assert Plain(lines) + rest == rest;
    }
  }

  lemma LooseKeepsLine(l: string, tail: string)
    requires CleanLine(l) && FreshStart(tail)
    ensures DropLooseFolds(l + (CRLF + tail)) == l + (CRLF + DropLooseFolds(tail))
  {
    hide DropLooseFolds;
    LooseSkips(l, CRLF + tail);
    LooseKeepsBreak(tail);
  }

  /** Nothing loose is left after the first pass, so the second changes nothing. */
  lemma {:induction false} LooseKeepsPlain(lines: seq<string>, rest: string)
    requires CleanLines(lines) && FreshStart(rest)
    ensures DropLooseFolds(Plain(lines) + rest) == Plain(lines) + DropLooseFolds(rest)
  {
    hide DropLooseFolds, FreshStart, CleanLine;
    if lines == [] {
      assert Plain(lines) + rest == rest;
      assert Plain(lines) + DropLooseFolds(rest) == DropLooseFolds(rest);
    } else {
      var more := Plain(lines[1..]);
      PlainStartsFresh(lines[1..], rest);
      LooseKeepsPlain(lines[1..], rest);
      LooseKeepsLine(lines[0], more + rest);
      assert Plain(lines) + rest == lines[0] + (CRLF + (more + rest));
      assert Plain(lines) + DropLooseFolds(rest) == lines[0] + (CRLF + (more + DropLooseFolds(rest)));
    }
  }

  lemma {:induction false} SplitSkips(c: string, rest: string)
    requires NoBreaks(c)
    ensures SplitBreaks(c + rest) == [c + SplitBreaks(rest)[0]] + SplitBreaks(rest)[1..]
  {
    if c == "" {
      assert c + rest == rest && c + SplitBreaks(rest)[0] == SplitBreaks(rest)[0];
    } else {
      SplitSkips(c[1..], rest);
      assert (c + rest)[1..] == c[1..] + rest;
      assert [c[0]] + (c[1..] + SplitBreaks(rest)[0]) == c + SplitBreaks(rest)[0];
    }
  }

  lemma SplitAtBreak(c: string, rest: string)
    requires NoBreaks(c)
    ensures SplitBreaks(c + (CRLF + rest)) == [c] + SplitBreaks(rest)
  {
    SplitSkips(c, CRLF + rest);
    assert (CRLF + rest)[2..] == rest;
    assert SplitBreaks(CRLF + rest) == [""] + SplitBreaks(rest);
    assert c + "" == c;
  }

  lemma {:induction false} SplitPlain(lines: seq<string>, rest: string)
    requires CleanLines(lines)
    ensures SplitBreaks(Plain(lines) + rest) == lines + SplitBreaks(rest)
  {
    hide SplitBreaks;
    if lines == [] {
      assert Plain(lines) + rest == rest;
    } else {
      var tail := Plain(lines[1..]) + rest;
      assert Plain(lines) + rest == lines[0] + (CRLF + tail);
      SplitAtBreak(lines[0], tail);
      SplitPlain(lines[1..], rest);
    }
  }

  // ---- The whole text and its prefixes --------------------------------------------------------------

  /** Unfolding whole lines followed by a last, unterminated one. */
  lemma UnfoldThen(lines: seq<string>, rest: string)
    requires CleanLines(lines) && FreshStart(rest) && FreshStart(DropFolds(rest))
    ensures Unfold(Body(lines) + rest) == lines + SplitBreaks(DropLooseFolds(DropFolds(rest)))
  {
    hide DropFolds, DropLooseFolds, SplitBreaks, Body;
    DropFoldsBody(lines, rest);
    LooseKeepsPlain(lines, DropFolds(rest));
    SplitPlain(lines, DropLooseFolds(DropFolds(rest)));
  }

  /** A printed body unfolds to exactly the lines that were printed, and the empty line after the last break. */
  lemma UnfoldBody(lines: seq<string>)
    requires CleanLines(lines)
    ensures Unfold(Body(lines)) == lines + [""]
  {
    UnfoldThen(lines, "");
    assert Body(lines) + "" == Body(lines);
  }

  /** What is left of a line break cut short. */
  predicate Stub(tail: string) {
    tail == "" || tail == "\r" || tail == "\r\n"
  }

  lemma StubHasNoFold(tail: string)
    requires Stub(tail)
    ensures DropFolds(tail) == tail
  {
    if tail == "\r\n" {
      assert tail[1..] == "\n" && "\n"[1..] == "";
    } else if tail == "\r" {
      assert tail[1..] == "";
    }
  }

  /** A cut through a folded line leaves a prefix of the line, perhaps with part of a break after it. */
  lemma {:induction false} CutJoin(ps: seq<string>, k: nat) returns (q: string, tail: string)
    requires ps != [] && (forall i | 0 <= i < |ps| :: NoBreaks(ps[i])) && k <= |Join(ps, FOLD)|
    ensures DropFolds(Join(ps, FOLD)[..k]) == q + tail && q <= Concat(ps) && Stub(tail)
    decreases |ps|
  {
    var p := ps[0];
    if |ps| == 1 {
      assert Concat(ps) == p;
      q, tail := p[..k], "";
      DropFoldsSkips(q, "");
      assert q + "" == q == Join(ps, FOLD)[..k];
    } else {
      var rest := Join(ps[1..], FOLD);
      var s := Join(ps, FOLD);
      assert s == p + (FOLD + rest);
      assert Concat(ps) == p + Concat(ps[1..]);
      if k <= |p| {
        q, tail := p[..k], "";
        DropFoldsSkips(q, "");
        assert q + "" == q == s[..k];
      } else if k < |p| + 3 {
        q, tail := p, FOLD[..k - |p|];
        assert s[..k] == q + tail;
        DropFoldsSkips(q, tail);
        assert FOLD[..1] == "\r" && FOLD[..2] == "\r\n";
        StubHasNoFold(tail);
      } else {
        var r, t := CutJoin(ps[1..], k - |p| - 3);
        q, tail := p + r, t;
        assert s[..k] == p + (FOLD + rest[..k - |p| - 3]);
        DropFoldsSkips(p, FOLD + rest[..k - |p| - 3]);
        DropFoldsDrops(rest[..k - |p| - 3]);
      }
    }
  }

  lemma CutLine(l: string, k: nat) returns (q: string, tail: string)
    requires CleanLine(l) && k <= |Fold(l)| + 1
    ensures DropFolds((Fold(l) + CRLF)[..k]) == q + tail && q <= l && Stub(tail)
  {
    hide Fold;
    FoldIsJoin(l);
    if k <= |Fold(l)| {
      q, tail := CutJoin(FoldPieces(l), k);
      assert (Fold(l) + CRLF)[..k] == Fold(l)[..k];
    } else {
      q, tail := l, "\r";
      assert (Fold(l) + CRLF)[..k] == Fold(l) + "\r";
      DropFoldsJoins(FoldPieces(l), "\r");
      StubHasNoFold("\r");
    }
  }

  /** Where the first k characters of the printed lines end: after j whole lines, within line j. */
  lemma {:induction false} LocateCut(lines: seq<string>, k: nat) returns (j: nat)
    requires k < |Body(lines)|
    ensures j < |lines|
    ensures |Body(lines[..j])| <= k && k - |Body(lines[..j])| <= |Fold(lines[j])| + 1
    ensures Body(lines)[..k] == Body(lines[..j]) + (Fold(lines[j]) + CRLF)[..k - |Body(lines[..j])|]
  {
    hide Fold;
    var n := |Fold(lines[0])| + 2;
    var ls := lines[1..];
    assert Body(lines) == Fold(lines[0]) + CRLF + Body(ls);
    if k < n {
      j := 0;
      assert Body(lines[..0]) == "";
    } else {
      var i := LocateCut(ls, k - n);
      j := i + 1;
      assert lines[..j][0] == lines[0] && lines[..j][1..] == ls[..i];
      assert Body(lines[..j]) == Fold(lines[0]) + CRLF + Body(ls[..i]);
    }
  }

  /** Every proper prefix of a printed body unfolds to some of its lines, then a prefix of the next one. */
  lemma UnfoldCut(lines: seq<string>, k: nat) returns (j: nat, q: string, stub: seq<string>)
    requires CleanLines(lines) && k < |Body(lines)|
    ensures j < |lines| && q <= lines[j] && (stub == [] || stub == [""])
    ensures Unfold(Body(lines)[..k]) == lines[..j] + [q] + stub
  {
    hide Body, Fold;
    j := LocateCut(lines, k);
    var m := k - |Body(lines[..j])|;
    var rest := (Fold(lines[j]) + CRLF)[..m];
    var tail;
    q, tail := CutLine(lines[j], m);
    FoldKeepsHead(lines[j]);
    assert FreshStart(rest);
    assert FreshStart(q + tail);
    UnfoldThen(lines[..j], rest);
    stub := SplitCut(q, tail);
  }

  lemma SplitCut(q: string, tail: string) returns (stub: seq<string>)
    requires NoBreaks(q) && Stub(tail)
    ensures stub == [] || stub == [""]
    ensures SplitBreaks(DropLooseFolds(q + tail)) == [q] + stub
  {
    LooseSkips(q, tail);
    SplitSkips(q, tail);
    assert DropLooseFolds(tail) == tail by {
      if tail == "\r\n" {
        assert tail[1..] == "\n" && "\n"[1..] == "";
      } else if tail == "\r" {
        assert tail[1..] == "";
      }
    }
    assert q + "" == q;
    if tail == "" {
      stub := [];
    } else {
      stub := [""];
      if tail == "\r\n" {
        assert tail[2..] == "";
      } else {
        assert tail[1..] == "";
      }
      assert SplitBreaks(tail) == ["", ""];
    }
  }

  // ---- Octets ---------------------------------------------------------------------------------------

  lemma {:induction false} JoinedLinesFit(ps: seq<string>, rest: string)
    requires ps != [] && (forall i | 0 <= i < |ps| :: NoBreaks(ps[i]) && Octets(ps[i]) <= 74)
    requires forall l | l in SplitBreaks(rest) :: Octets(l) <= 75
    ensures forall l | l in SplitBreaks(" " + Join(ps, FOLD) + (CRLF + rest)) :: Octets(l) <= 75
    decreases |ps|
  {
    hide Octets, SplitBreaks;
    var p := " " + ps[0];
    OctetsConcat(" ", ps[0]);
    OneSpace();
    if |ps| == 1 {
      assert " " + Join(ps, FOLD) + (CRLF + rest) == p + (CRLF + rest);
      SplitAtBreak(p, rest);
    } else {
      var tail := " " + Join(ps[1..], FOLD) + (CRLF + rest);
      JoinedLinesFit(ps[1..], rest);
      assert FOLD == CRLF + " ";
      assert " " + Join(ps, FOLD) + (CRLF + rest) == p + (CRLF + tail);
      SplitAtBreak(p, tail);
    }
  }

  lemma OneSpace()
    ensures Octets(" ") == 1
  {
    assert " "[..0] == "";
  }

  lemma FoldedLineFits(l: string, rest: string)
    requires CleanLine(l)
    requires forall p | p in SplitBreaks(rest) :: Octets(p) <= 75
    ensures forall p | p in SplitBreaks(Fold(l) + (CRLF + rest)) :: Octets(p) <= 75
  {
    hide Fold, Octets, SplitBreaks, FoldPieces;
    FoldIsJoin(l);
    var ps := FoldPieces(l);
    if |ps| == 1 {
      SplitAtBreak(ps[0], rest);
    } else {
      var tail := " " + Join(ps[1..], FOLD) + (CRLF + rest);
      JoinedLinesFit(ps[1..], rest);
      assert FOLD == CRLF + " ";
      assert Join(ps, FOLD) + (CRLF + rest) == ps[0] + (CRLF + tail);
      SplitAtBreak(ps[0], tail);
    }
  }

  /** No physical line of a printed body is longer than 75 octets. */
  lemma {:induction false} LinesFit(lines: seq<string>)
    requires CleanLines(lines)
    ensures forall p | p in SplitBreaks(Body(lines)) :: Octets(p) <= 75
  {
    hide Fold;
    if lines != [] {
      LinesFit(lines[1..]);
      FoldedLineFits(lines[0], Body(lines[1..]));
      assert Body(lines) == Fold(lines[0]) + (CRLF + Body(lines[1..]));
    }
  }
}
