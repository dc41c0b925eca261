/**
 * The string operations the iCalendar code leans on, over strings of Unicode scalar values.
 */
module Text {

  /** The line break of feeds and of comma-separated files. */
  const CRLF: string := "\r\n"

  /** ECMAScript white space and line terminators: what `trim` removes and `\s` matches. */
  predicate IsSpace(c: char) {
    || '\t' <= c <= '\r' || c == ' ' || c == '\U{00A0}' || c == '\U{1680}'
    || '\U{2000}' <= c <= '\U{200A}' || c == '\U{2028}' || c == '\U{2029}' || c == '\U{202F}'
    || c == '\U{205F}' || c == '\U{3000}' || c == '\U{FEFF}'
  }

  predicate IsBreak(c: char) {
    c == '\r' || c == '\n'
  }

  function TrimStart(s: string): string {
    if s != "" && IsSpace(s[0]) then TrimStart(s[1..]) else s
  }

  function TrimEnd(s: string): string {
    if s != "" && IsSpace(s[|s| - 1]) then TrimEnd(s[..|s| - 1]) else s
  }

  function Trim(s: string): string {
    TrimEnd(TrimStart(s))
  }

  /** `trim` has nothing to remove. */
  predicate Trimmed(s: string) {
    s == "" || (!IsSpace(s[0]) && !IsSpace(s[|s| - 1]))
  }

  lemma TrimIsTrimmed(s: string)
    ensures Trimmed(Trim(s))
    ensures Trimmed(s) ==> Trim(s) == s
  {
    TrimStartSkips(s);
    TrimEndKeepsHead(TrimStart(s));
  }

  lemma TrimStartSkips(s: string)
    ensures TrimStart(s) == "" || !IsSpace(TrimStart(s)[0])
  {
  }

  lemma TrimEndKeepsHead(s: string)
    ensures TrimEnd(s) == "" || (TrimEnd(s)[0] == s[0] && !IsSpace(TrimEnd(s)[|TrimEnd(s)| - 1]))
    ensures s != "" && !IsSpace(s[0]) ==> TrimEnd(s) != ""
  {
  }

  ghost predicate AllSpaces(s: string) {
    forall i | 0 <= i < |s| :: IsSpace(s[i])
  }

  lemma {:induction false} TrimStartIs(s: string) returns (i: nat)
    ensures i <= |s| && TrimStart(s) == s[i..] && AllSpaces(s[..i])
  {
    if s != "" && IsSpace(s[0]) {
      var j := TrimStartIs(s[1..]);
      i := j + 1;
      assert s[1..][j..] == s[i..];
      assert forall k | 0 < k < i :: s[k] == s[1..][..j][k - 1];
    } else {
      i := 0;
    }
  }

  lemma {:induction false} TrimEndIs(s: string) returns (j: nat)
    ensures j <= |s| && TrimEnd(s) == s[..j] && AllSpaces(s[j..])
  {
    var n := |s|;
    if s != "" && IsSpace(s[n - 1]) {
      j := TrimEndIs(s[..n - 1]);
      assert s[..n - 1][..j] == s[..j];
      assert forall k | j <= k < n - 1 :: s[k] == s[..n - 1][j..][k - j];
    } else {
      j := n;
    }
  }

  /** `trim` cuts spaces off both ends and nothing else. */
  lemma TrimIs(s: string) returns (i: nat, j: nat)
    ensures i <= j <= |s| && Trim(s) == s[i..j] && AllSpaces(s[..i]) && AllSpaces(s[j..]) && Trimmed(s[i..j])
  {
    i := TrimStartIs(s);
    var m := TrimEndIs(s[i..]);
    j := i + m;
    assert s[i..][..m] == s[i..j] && s[i..][m..] == s[j..];
    TrimIsTrimmed(s);
  }

  lemma {:induction false} TrimStartSkipsSpaces(a: string, b: string)
    requires AllSpaces(a) && (b == "" || !IsSpace(b[0]))
    ensures TrimStart(a + b) == b
  {
    if a == "" {
      assert a + b == b;
    } else {
      TrimStartSkipsSpaces(a[1..], b);
      assert (a + b)[1..] == a[1..] + b;
    }
  }

  lemma {:induction false} TrimEndSkipsSpaces(a: string, b: string)
    requires AllSpaces(b) && (a == "" || !IsSpace(a[|a| - 1]))
    ensures TrimEnd(a + b) == a
  {
    if b == "" {
      assert a + b == a;
    } else {
      TrimEndSkipsSpaces(a, b[..|b| - 1]);
      assert (a + b)[..|a + b| - 1] == a + b[..|b| - 1];
    }
  }

  /** Whatever spaces surround a trimmed string, `trim` finds it. */
  lemma TrimFinds(before: string, s: string, after: string)
    requires AllSpaces(before) && AllSpaces(after) && Trimmed(s) && s != ""
    ensures Trim(before + s + after) == s
  {
    assert before + s + after == before + (s + after);
    TrimStartSkipsSpaces(before, s + after);
    TrimEndSkipsSpaces(s, after);
  }

  /** A string that starts with a visible character keeps it through `trim`. */
  lemma TrimKeepsHead(s: string)
    requires s != "" && !IsSpace(s[0])
    ensures Trim(s) != "" && Trim(s)[0] == s[0]
  {
    TrimEndKeepsHead(s);
  }

  /**
   * `toUpperCase` of one character, exact for every comparison with an ASCII constant: the characters
   * below are the ones whose upper case is ASCII, every other character's is not.
   */
  function UpperChar(c: char): string {
    if 'a' <= c <= 'z' then [(c as int - 32) as char]
    else if c == '\U{0131}' then "I"
    else if c == '\U{017F}' then "S"
    else if c == '\U{00DF}' then "SS"
    else if c == '\U{FB00}' then "FF"
    else if c == '\U{FB01}' then "FI"
    else if c == '\U{FB02}' then "FL"
    else if c == '\U{FB03}' then "FFI"
    else if c == '\U{FB04}' then "FFL"
    else if c == '\U{FB05}' || c == '\U{FB06}' then "ST"
    else [c]
  }

  function Upper(s: string): string {
    if s == "" then "" else UpperChar(s[0]) + Upper(s[1..])
  }

  /** Printable ASCII that `toUpperCase` leaves alone. */
  predicate PlainUpper(s: string) {
    forall i | 0 <= i < |s| :: '!' <= s[i] <= '~' && !('a' <= s[i] <= 'z')
  }

  lemma {:induction false} UpperOfPlain(s: string)
    requires PlainUpper(s)
    ensures Upper(s) == s && Trim(s) == s
  {
    hide TrimStart, TrimEnd;
    assert Trimmed(s);
    TrimIsTrimmed(s);
    if s != "" {
      UpperOfPlain(s[1..]);
      assert UpperChar(s[0]) == [s[0]];
    }
  }

  /** On ASCII text, upper-casing changes the letters a to z and nothing else. */
  lemma {:induction false} UpperOfAscii(s: string)
    requires forall i | 0 <= i < |s| :: s[i] as int < 128
    ensures |Upper(s)| == |s|
    ensures forall i | 0 <= i < |s| ::
              Upper(s)[i] == if 'a' <= s[i] <= 'z' then 'A' + (s[i] - 'a') else s[i]
  {
    if s != "" {
      UpperOfAscii(s[1..]);
    }
  }

  /** White space and line terminators by code point (sections 12.2 and 12.3 of ECMA-262). */
  lemma SpaceCodePoints(c: char)
    ensures IsSpace(c) <==> var n := c as int;
                            || n in {9, 10, 11, 12, 13, 32, 160, 5760, 8232, 8233, 8239, 8287, 12288, 65279}
                            || 8192 <= n <= 8202
  {
  }

  lemma UpperHead(s: string)
    requires s != ""
    ensures Upper(s) != "" && Upper(s)[0] == UpperChar(s[0])[0]
  {
  }

  /** UTF-8 length of one character. */
  function Octets1(c: char): nat {
    if c as int < 0x80 then 1 else if c as int < 0x800 then 2 else if c as int < 0x1_0000 then 3 else 4
  }

  function Octets(s: string): nat {
    if s == "" then 0 else Octets(s[..|s| - 1]) + Octets1(s[|s| - 1])
  }

  lemma {:induction false} OctetsConcat(a: string, b: string)
    ensures Octets(a + b) == Octets(a) + Octets(b)
  {
    if b == "" {
      assert a + b == a;
    } else {
      OctetsConcat(a, b[..|b| - 1]);
      assert (a + b)[..|a + b| - 1] == a + b[..|b| - 1];
    }
  }

  /** The first position of c in s, or |s|. */
  function Find(s: string, c: char): (i: nat)
    ensures i <= |s|
    ensures forall j | 0 <= j < i :: s[j] != c
    ensures i < |s| ==> s[i] == c
  {
    if s == "" || s[0] == c then 0 else 1 + Find(s[1..], c)
  }

  predicate NoBreaks(s: string) {
    forall i | 0 <= i < |s| :: !IsBreak(s[i])
  }

  /** `lines.join(sep)` */
  function Join(parts: seq<string>, sep: string): string {
    if parts == [] then ""
    else if |parts| == 1 then parts[0]
    else parts[0] + sep + Join(parts[1..], sep)
  }

  function Concat(parts: seq<string>): string {
    if parts == [] then "" else parts[0] + Concat(parts[1..])
  }
}
