/** The string operations the scripts use: strip, lower, splitlines, join. */
module Text {

  predicate IsSpace(c: char) {
    || '\U{9}' <= c <= '\U{D}' || '\U{1C}' <= c <= '\U{20}' || c == '\U{85}' || c == '\U{A0}' || c == '\U{1680}'
    || '\U{2000}' <= c <= '\U{200A}' || c == '\U{2028}' || c == '\U{2029}' || c == '\U{202F}' || c == '\U{205F}' || c == '\U{3000}'
  }

  function StripLeft(s: string): string {
    if s != "" && IsSpace(s[0]) then StripLeft(s[1..]) else s
  }

  function StripRight(s: string): string {
    if s != "" && IsSpace(s[|s| - 1]) then StripRight(s[..|s| - 1]) else s
  }

  function Strip(s: string): string {
    StripRight(StripLeft(s))
  }

  predicate Trimmed(s: string) {
    s != "" ==> !IsSpace(s[0]) && !IsSpace(s[|s| - 1])
  }

  function LowerChar(c: char): char {
    if 'A' <= c <= 'Z' then c + ' ' else c
  }

  function Lower(s: string): (t: string)
    ensures |t| == |s| && forall i :: 0 <= i < |s| ==> t[i] == LowerChar(s[i])
  {
    seq(|s|, i requires 0 <= i < |s| => LowerChar(s[i]))
  }

  function UpperChar(c: char): char {
    if 'a' <= c <= 'z' then c - ' ' else c
  }

  function Upper(s: string): (t: string)
    ensures |t| == |s| && forall i :: 0 <= i < |s| ==> t[i] == UpperChar(s[i])
  {
    seq(|s|, i requires 0 <= i < |s| => UpperChar(s[i]))
  }

  /** The 26 letters change case both ways; nothing else moves. */
  lemma CaseLaw(c: char, i: nat)
    requires i < 26
    ensures LowerChar('A' + i as char) == 'a' + i as char && UpperChar('a' + i as char) == 'A' + i as char
    ensures c < 'A' || c > 'z' || 'Z' < c < 'a' ==> LowerChar(c) == c == UpperChar(c)
    ensures LowerChar(LowerChar(c)) == LowerChar(c) && UpperChar(UpperChar(c)) == UpperChar(c)
  {
  }

  // ----- strip -----

  lemma {:induction false} StripLeftSplits(s: string)
    ensures |StripLeft(s)| <= |s| && s == s[..|s| - |StripLeft(s)|] + StripLeft(s)
    ensures forall i :: 0 <= i < |s| - |StripLeft(s)| ==> IsSpace(s[i])
    ensures StripLeft(s) != "" ==> !IsSpace(StripLeft(s)[0])
  {
    if s != "" && IsSpace(s[0]) {
      StripLeftSplits(s[1..]);
    }
  }

  lemma {:induction false} StripRightSplits(s: string)
    ensures |StripRight(s)| <= |s| && s == StripRight(s) + s[|StripRight(s)|..]
    ensures forall i :: |StripRight(s)| <= i < |s| ==> IsSpace(s[i])
    ensures StripRight(s) != "" ==> !IsSpace(StripRight(s)[|StripRight(s)| - 1])
  {
    if s != "" && IsSpace(s[|s| - 1]) {
      StripRightSplits(s[..|s| - 1]);
    }
  }

  lemma StripTrimmed(s: string)
    ensures Trimmed(Strip(s))
  {
    hide StripLeft, StripRight;
    StripLeftSplits(s);
    StripRightSplits(StripLeft(s));
    var t := StripLeft(s);
    if Strip(s) != "" {
      assert Strip(s)[0] == t[0];
    }
  }

  lemma TrimmedStrip(s: string)
    requires Trimmed(s)
    ensures Strip(s) == s
  {
  }

  ghost predicate AllSpace(s: string) {
    forall i :: 0 <= i < |s| ==> IsSpace(s[i])
  }

  lemma {:induction false} StripLeftPrefix(a: string, s: string)
    requires AllSpace(a)
    ensures StripLeft(a + s) == StripLeft(s)
  {
    if a == "" {
      assert a + s == s;
    } else {
      assert (a + s)[1..] == a[1..] + s;
      assert AllSpace(a[1..]);
      StripLeftPrefix(a[1..], s);
    }
  }

  lemma {:induction false} StripRightSuffix(s: string, b: string)
    requires AllSpace(b)
    ensures StripRight(s + b) == StripRight(s)
  {
    if b == "" {
      assert s + b == s;
    } else {
      assert (s + b)[..|s + b| - 1] == s + b[..|b| - 1];
      assert AllSpace(b[..|b| - 1]);
      StripRightSuffix(s, b[..|b| - 1]);
    }
  }

  /** Surrounding white space is all that strip removes. */
  lemma StripDecomposes(s: string) returns (a: string, b: string)
    ensures AllSpace(a) && AllSpace(b) && s == a + Strip(s) + b
  {
    hide StripLeft, StripRight;
    StripLeftSplits(s);
    var t := StripLeft(s);
    StripRightSplits(t);
    a, b := s[..|s| - |t|], t[|Strip(s)|..];
  }

  lemma {:induction false} StripRightAfter(p: string, v: string)
    requires p != "" && !IsSpace(p[|p| - 1])
    ensures StripRight(p + v) == p + StripRight(v)
  {
    if v == "" {
      assert p + v == p;
    } else {
      assert (p + v)[..|p + v| - 1] == p + v[..|v| - 1];
      StripRightAfter(p, v[..|v| - 1]);
    }
  }

  lemma {:induction false} StripLeftBefore(s: string, b: string)
    requires s != "" && !IsSpace(s[|s| - 1])
    ensures StripLeft(s + b) == StripLeft(s) + b && StripLeft(s) != ""
  {
    if IsSpace(s[0]) {
      assert (s + b)[1..] == s[1..] + b;
      StripLeftBefore(s[1..], b);
    }
  }

  /** White space dropped from the right first makes no difference. */
  lemma StripAfterStripRight(v: string)
    ensures Strip(StripRight(v)) == Strip(v)
  {
    hide StripLeft, StripRight;
    StripRightSplits(v);
    var s, b := StripRight(v), v[|StripRight(v)|..];
    if s == "" {
      assert b == v;
      StripLeftPrefix(v, "");
      assert v + "" == v;
    } else {
      StripLeftBefore(s, b);
      StripRightSuffix(StripLeft(s), b);
    }
  }

  // ----- lines -----

  predicate IsBreak(c: char) {
    '\U{A}' <= c <= '\U{D}' || '\U{1C}' <= c <= '\U{1E}' || c == '\U{85}' || c == '\U{2028}' || c == '\U{2029}'
  }

  predicate SingleLine(s: string) {
    forall i :: 0 <= i < |s| ==> !IsBreak(s[i])
  }

  lemma SingleLineConcat(a: string, b: string)
    requires SingleLine(a) && SingleLine(b)
    ensures SingleLine(a + b)
  {
  }

  function FirstBreak(s: string): (k: nat)
    ensures k <= |s| && SingleLine(s[..k]) && (k < |s| ==> IsBreak(s[k]))
  {
    if s == "" || IsBreak(s[0]) then 0 else
    var k := 1 + FirstBreak(s[1..]);
    assert forall i :: 1 <= i < k ==> s[i] == s[1..][..k - 1][i - 1];
    k
  }

  /** Line breaks end lines; a carriage return followed by a line feed is one break; no empty last line. */
  function SplitLines(s: string): seq<string> {
    if s == "" then [] else
    var k := FirstBreak(s);
    if k == |s| then [s] else
    var skip := if s[k] == '\r' && k + 1 < |s| && s[k + 1] == '\n' then 2 else 1;
    [s[..k]] + SplitLines(s[k + skip..])
  }

  function Join(lines: seq<string>): string {
    if lines == [] then "" else if |lines| == 1 then lines[0] else lines[0] + "\n" + Join(lines[1..])
  }

  /** Every line followed by a line feed. */
  function Unlines(lines: seq<string>): string {
    if lines == [] then "" else lines[0] + "\n" + Unlines(lines[1..])
  }

  lemma {:induction false} JoinWithEmptyLast(lines: seq<string>)
    ensures Join(lines + [""]) == Unlines(lines)
  {
    if lines == [] {
      assert lines + [""] == [""];
    } else {
      assert (lines + [""])[1..] == lines[1..] + [""];
      JoinWithEmptyLast(lines[1..]);
    }
  }

  lemma {:induction false} FirstBreakAt(line: string, rest: string)
    requires SingleLine(line)
    ensures FirstBreak(line + "\n" + rest) == |line|
  {
    var s := line + "\n" + rest;
    if line != "" {
      assert s[1..] == line[1..] + "\n" + rest;
      FirstBreakAt(line[1..], rest);
    }
  }

  /** A line ends at a line feed, at a carriage return, or at both together. */
  lemma SplitFirst(line: string, rest: string)
    requires SingleLine(line)
    ensures SplitLines(line + "\n" + rest) == [line] + SplitLines(rest)
    ensures SplitLines(line + "\r\n" + rest) == [line] + SplitLines(rest)
    ensures rest != "" && rest[0] != '\n' ==> SplitLines(line + "\r" + rest) == [line] + SplitLines(rest)
  {
    BreakAt(line, '\n', rest);
    BreakAt(line, '\r', "\n" + rest);
    BreakAt(line, '\r', rest);
    var s, t, u := line + "\n" + rest, line + "\r\n" + rest, line + "\r" + rest;
    assert s == line + ['\n'] + rest && s[..|line|] == line && s[|line| + 1..] == rest;
    assert t == line + ['\r'] + ("\n" + rest) && t[..|line|] == line && t[|line| + 1] == '\n' && t[|line| + 2..] == rest;
    assert u == line + ['\r'] + rest && u[..|line|] == line && u[|line| + 1..] == rest;
  }

  lemma {:induction false} BreakAt(line: string, c: char, rest: string)
    requires SingleLine(line) && IsBreak(c)
    ensures FirstBreak(line + [c] + rest) == |line|
  {
    var s := line + [c] + rest;
    if line != "" {
      assert s[1..] == line[1..] + [c] + rest;
      BreakAt(line[1..], c, rest);
    }
  }

  lemma {:induction false} SplitUnlines(lines: seq<string>)
    requires forall i :: 0 <= i < |lines| ==> SingleLine(lines[i])
    ensures SplitLines(Unlines(lines)) == lines
  {
    if lines != [] {
      var line, rest := lines[0], Unlines(lines[1..]);
      var s := line + "\n" + rest;
      FirstBreakAt(line, rest);
      assert s[..|line|] == line && s[|line| + 1..] == rest && s[|line|] == '\n';
      SplitUnlines(lines[1..]);
      assert lines == [line] + lines[1..];
    }
  }

  lemma {:induction false} SplitLinesAreSingle(s: string)
    ensures forall i :: 0 <= i < |SplitLines(s)| ==> SingleLine(SplitLines(s)[i])
    decreases |s|
  {
    if s != "" {
      var k := FirstBreak(s);
      if k < |s| {
        var skip := if s[k] == '\r' && k + 1 < |s| && s[k + 1] == '\n' then 2 else 1;
        SplitLinesAreSingle(s[k + skip..]);
      } else {
        assert s[..k] == s;
      }
    }
  }

  // ----- the first occurrence of a character -----

  function FirstIndex(s: string, c: char): (k: nat)
    ensures k <= |s| && c !in s[..k] && (k < |s| ==> s[k] == c)
    ensures k < |s| <==> c in s
  {
    if s == "" || s[0] == c then 0 else
    var k := 1 + FirstIndex(s[1..], c);
    assert s[..k] == [s[0]] + s[1..][..k - 1];
    k
  }

  lemma FirstIndexAt(s: string, k: nat, c: char)
    requires k < |s| && s[k] == c && c !in s[..k]
    ensures FirstIndex(s, c) == k
  {
  }

  // ----- decimal numerals -----

  function Digit(d: nat): char
    requires d < 10
  {
    '0' + d as char
  }

  function Decimal(n: nat): (s: string)
    ensures s != "" && forall i :: 0 <= i < |s| ==> '0' <= s[i] <= '9'
  {
    if n < 10 then [Digit(n)] else Decimal(n / 10) + [Digit(n % 10)]
  }

  /** The number a numeral stands for. */
  function NumberOf(numeral: string): int {
    if numeral == "" then 0 else 10 * NumberOf(numeral[..|numeral| - 1]) + (numeral[|numeral| - 1] as int - '0' as int)
  }

  lemma {:induction false} DecimalLaw(n: nat)
    ensures NumberOf(Decimal(n)) == n && (n > 0 ==> Decimal(n)[0] != '0')
  {
    if n < 10 {
      assert Decimal(n)[..0] == "";
    } else {
      DecimalLaw(n / 10);
      assert Decimal(n)[..|Decimal(n)| - 1] == Decimal(n / 10);
    }
  }

  /** Different numbers have different numerals. */
  lemma {:induction false} DecimalInjective(m: nat, n: nat)
    requires Decimal(m) == Decimal(n)
    ensures m == n
  {
    var s := Decimal(m);
    if m < 10 || n < 10 {
      assert |s| == 1;
    } else {
      assert s[..|s| - 1] == Decimal(m / 10) && s[..|s| - 1] == Decimal(n / 10);
      DecimalInjective(m / 10, n / 10);
      assert s[|s| - 1] == Digit(m % 10) && s[|s| - 1] == Digit(n % 10);
    }
  }

}
