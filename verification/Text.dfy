/**
  The string operations the program uses: stripping, splitting into lines, into
  fields and at a character, and decimal numbers.
*/
module Text {

  // ----------------------------------------------------------------- whitespace

  /** What Python's str.strip and str.split take for whitespace. */
  predicate IsSpace(c: char) {
    c in {' ', '\t', '\n', '\r', '\U{b}', '\U{c}', '\U{1c}', '\U{1d}', '\U{1e}', '\U{1f}', '\U{85}', '\U{a0}',
          '\U{1680}', '\U{2028}', '\U{2029}', '\U{202f}', '\U{205f}', '\U{3000}'}
    || '\U{2000}' <= c <= '\U{200a}'
  }

  function StripLeft(s: string): string {
    if s != "" && IsSpace(s[0]) then StripLeft(s[1..]) else s
  }

  function StripRight(s: string): string {
    if s != "" && IsSpace(s[|s| - 1]) then StripRight(s[..|s| - 1]) else s
  }

  function Strip(s: string): string {
    StripRight(StripLeft(s))
  }

  predicate AllSpace(s: string) {
    forall k :: 0 <= k < |s| ==> IsSpace(s[k])
  }

  /** No whitespace at either end. */
  predicate Trim(s: string) {
    s != "" ==> !IsSpace(s[0]) && !IsSpace(s[|s| - 1])
  }

  lemma {:induction false} StripLeftPadding(pad: string, s: string)
    requires AllSpace(pad)
    ensures StripLeft(pad + s) == StripLeft(s)
  {
    if pad == "" {
      assert pad + s == s;
    } else {
      assert (pad + s)[1..] == pad[1..] + s;
      StripLeftPadding(pad[1..], s);
    }
  }

  lemma {:induction false} StripRightPadding(s: string, pad: string)
    requires AllSpace(pad)
    ensures StripRight(s + pad) == StripRight(s)
  {
    if pad == "" {
      assert s + pad == s;
    } else {
      assert (s + pad)[..|s + pad| - 1] == s + pad[..|pad| - 1];
      StripRightPadding(s, pad[..|pad| - 1]);
    }
  }

  /** Stripping undoes padding. */
  lemma StripPadded(left: string, s: string, right: string)
    requires AllSpace(left) && AllSpace(right) && Trim(s)
    ensures Strip(left + s + right) == s
  {
    assert left + s + right == left + (s + right);
    StripLeftPadding(left, s + right);
    if s == "" {
      assert s + right == right + "" == right;
      StripLeftPadding(right, "");
    } else {
      assert StripLeft(s + right) == s + right;
      StripRightPadding(s, right);
    }
  }

  lemma {:induction false} StripLeftTrims(s: string)
    ensures StripLeft(s) != "" ==> !IsSpace(StripLeft(s)[0])
    ensures |StripLeft(s)| <= |s| && StripLeft(s) == s[|s| - |StripLeft(s)|..]
  {
    if s != "" && IsSpace(s[0]) {
      StripLeftTrims(s[1..]);
    }
  }

  lemma {:induction false} StripRightTrims(s: string)
    ensures StripRight(s) != "" ==> !IsSpace(StripRight(s)[|StripRight(s)| - 1])
    ensures |StripRight(s)| <= |s| && StripRight(s) == s[..|StripRight(s)|]
  {
    if s != "" && IsSpace(s[|s| - 1]) {
      StripRightTrims(s[..|s| - 1]);
    }
  }

  /** The stripped text has no whitespace at its ends, and is a piece of the input. */
  lemma StripTrims(s: string)
    ensures Trim(Strip(s))
    ensures forall k :: 0 <= k < |Strip(s)| ==> Strip(s)[k] in s
  {
    StripLeftTrims(s);
    StripRightTrims(StripLeft(s));
  }

  lemma StripOfTrim(s: string)
    requires Trim(s)
    ensures Strip(s) == s
  {
  }

  // ---------------------------------------------------------------------- lines

  /** Line boundaries of Python's str.splitlines; a carriage return and line feed count once. */
  predicate IsBreak(c: char) {
    c in {'\n', '\r', '\U{b}', '\U{c}', '\U{1c}', '\U{1d}', '\U{1e}', '\U{85}', '\U{2028}', '\U{2029}'}
  }

  predicate OneLine(s: string) {
    forall k :: 0 <= k < |s| ==> !IsBreak(s[k])
  }

  /** Length of the first line. */
  function LineEnd(s: string): (n: nat)
    ensures n <= |s| && OneLine(s[..n]) && (n < |s| ==> IsBreak(s[n]))
  {
    if s == "" || IsBreak(s[0]) then 0
    else
      var n := 1 + LineEnd(s[1..]);
      assert s[..n] == [s[0]] + s[1..][..n - 1];
      n
  }

  function SplitLines(s: string): seq<string> {
    if s == "" then []
    else
      var n := LineEnd(s);
      if n == |s| then [s]
      else
        var next := if s[n] == '\r' && n + 1 < |s| && s[n + 1] == '\n' then n + 2 else n + 1;
        [s[..n]] + SplitLines(s[next..])
  }

  lemma {:induction false} SplitLinesAreOneLine(s: string)
    ensures forall k :: 0 <= k < |SplitLines(s)| ==> OneLine(SplitLines(s)[k])
    decreases |s|
  {
    if s != "" {
      var n := LineEnd(s);
      assert OneLine(s[..n]);
      if n < |s| {
        var next := if s[n] == '\r' && n + 1 < |s| && s[n + 1] == '\n' then n + 2 else n + 1;
        SplitLinesAreOneLine(s[next..]);
      } else {
        assert s[..n] == s;
      }
    }
  }

  /** Every line with its line feed. */
  function JoinLines(lines: seq<string>): string {
    if lines == [] then "" else lines[0] + "\n" + JoinLines(lines[1..])
  }

  lemma {:induction false} LineEndAt(line: string, c: char, rest: string)
    requires OneLine(line) && IsBreak(c)
    ensures LineEnd(line + [c] + rest) == |line|
  {
    var s := line + [c] + rest;
    if line != "" {
      assert s[1..] == line[1..] + [c] + rest;
      LineEndAt(line[1..], c, rest);
    }
  }

  /** Any break ends a line, not only a line feed. */
  lemma SplitAtBreak(line: string, c: char, rest: string)
    requires OneLine(line) && IsBreak(c) && c != '\r'
    ensures SplitLines(line + [c] + rest) == [line] + SplitLines(rest)
  {
    LineEndAt(line, c, rest);
    var s := line + [c] + rest;
    assert s[..|line|] == line && s[|line| + 1..] == rest;
  }

  /** A carriage return ends a line as well, alone or together with a line feed. */
  lemma SplitAtReturn(line: string, rest: string)
    requires OneLine(line)
    ensures SplitLines(line + "\r\n" + rest) == [line] + SplitLines(rest)
    ensures rest == "" || rest[0] != '\n' ==> SplitLines(line + "\r" + rest) == [line] + SplitLines(rest)
  {
    var s := line + "\r\n" + rest;
    assert s == line + ['\r'] + ("\n" + rest);
    LineEndAt(line, '\r', "\n" + rest);
    assert s[..|line|] == line && s[|line| + 2..] == rest;
    var t := line + "\r" + rest;
    assert t == line + ['\r'] + rest;
    LineEndAt(line, '\r', rest);
    assert t[..|line|] == line && t[|line| + 1..] == rest;
  }

  /** Splitting undoes joining when no line has a break inside. */
  lemma {:induction false} SplitJoined(lines: seq<string>)
    requires forall k :: 0 <= k < |lines| ==> OneLine(lines[k])
    ensures SplitLines(JoinLines(lines)) == lines
  {
    if lines != [] {
      SplitAtBreak(lines[0], '\n', JoinLines(lines[1..]));
      SplitJoined(lines[1..]);
    }
  }

  // ----------------------------------------------------------------------- fields

  /** Length of the leading text without whitespace. */
  function WordEnd(s: string): (n: nat)
    ensures n <= |s| && (forall k :: 0 <= k < n ==> !IsSpace(s[k])) && (n < |s| ==> IsSpace(s[n]))
  {
    if s == "" || IsSpace(s[0]) then 0 else 1 + WordEnd(s[1..])
  }

  /** Split at runs of whitespace. */
  function Fields(s: string): seq<string>
    decreases |s|
  {
    if s == "" then []
    else if IsSpace(s[0]) then Fields(s[1..])
    else [s[..WordEnd(s)]] + Fields(s[WordEnd(s)..])
  }

  predicate IsWord(w: string) {
    w != "" && forall k :: 0 <= k < |w| ==> !IsSpace(w[k])
  }

  function Joined(words: seq<string>): string {
    if words == [] then "" else if |words| == 1 then words[0] else words[0] + " " + Joined(words[1..])
  }

  lemma {:induction false} WordEndAt(w: string, rest: string)
    requires forall k :: 0 <= k < |w| ==> !IsSpace(w[k])
    requires rest == "" || IsSpace(rest[0])
    ensures WordEnd(w + rest) == |w|
  {
    if w == "" {
      assert w + rest == rest;
    } else {
      assert (w + rest)[1..] == w[1..] + rest;
      WordEndAt(w[1..], rest);
    }
  }

  lemma {:induction false} FieldsOfJoined(words: seq<string>)
    requires forall k :: 0 <= k < |words| ==> IsWord(words[k])
    ensures Fields(Joined(words)) == words
    decreases |words|
  {
    if words != [] {
      var w := words[0];
      assert IsWord(w);
      if |words| == 1 {
        WordEndAt(w, "");
        assert w + "" == w && w[|w|..] == "" && words == [w];
      } else {
        var rest := " " + Joined(words[1..]);
        var s := w + rest;
        assert Joined(words) == s;
        WordEndAt(w, rest);
        assert s[..|w|] == w && s[|w|..] == rest && rest[1..] == Joined(words[1..]);
        FieldsOfJoined(words[1..]);
        assert Fields(rest) == Fields(rest[1..]);
      }
    }
  }

  lemma {:induction false} JoinedIsTrim(words: seq<string>)
    requires forall k :: 0 <= k < |words| ==> IsWord(words[k])
    ensures Trim(Joined(words)) && (words != [] ==> Joined(words) != "")
    decreases |words|
  {
    if words != [] {
      assert IsWord(words[0]);
      if |words| > 1 {
        JoinedIsTrim(words[1..]);
      }
    }
  }

  // ----------------------------------------------------------- splitting at a char

  /** Index of the first occurrence, or the length. */
  function Find(s: string, c: char): (n: nat)
    ensures n <= |s| && c !in s[..n] && (n < |s| ==> s[n] == c)
  {
    if s == "" || s[0] == c then 0
    else
      var n := 1 + Find(s[1..], c);
      assert s[..n] == [s[0]] + s[1..][..n - 1];
      n
  }

  function SplitAt(s: string, c: char): (parts: seq<string>)
    ensures parts != []
    decreases |s|
  {
    var n := Find(s, c);
    if n == |s| then [s] else [s[..n]] + SplitAt(s[n + 1..], c)
  }

  lemma {:induction false} FindAt(s: string, c: char, rest: string)
    requires c !in s
    ensures Find(s + [c] + rest, c) == |s|
  {
    if s != "" {
      assert (s + [c] + rest)[1..] == s[1..] + [c] + rest;
      FindAt(s[1..], c, rest);
    }
  }

  lemma SplitFirst(s: string, c: char, rest: string)
    requires c !in s
    ensures SplitAt(s + [c] + rest, c) == [s] + SplitAt(rest, c)
  {
    FindAt(s, c, rest);
    var t := s + [c] + rest;
    assert t[..|s|] == s && t[|s| + 1..] == rest;
  }

  lemma {:induction false} FindNone(s: string, c: char)
    requires c !in s
    ensures Find(s, c) == |s|
  {
    if s != "" {
      FindNone(s[1..], c);
    }
  }

  lemma SplitNone(s: string, c: char)
    requires c !in s
    ensures SplitAt(s, c) == [s]
  {
    FindNone(s, c);
  }

  // --------------------------------------------------------------------- numbers

  predicate IsDigit(c: char) {
    '0' <= c <= '9'
  }

  predicate IsNumber(s: string) {
    s != "" && forall k :: 0 <= k < |s| ==> IsDigit(s[k])
  }

  function DigitValue(c: char): nat
    requires IsDigit(c)
  {
    (c as int) - ('0' as int)
  }

  function Value(s: string): nat
    requires forall k :: 0 <= k < |s| ==> IsDigit(s[k])
  {
    if s == "" then 0 else Value(s[..|s| - 1]) * 10 + DigitValue(s[|s| - 1])
  }

  function Digit(n: nat): char
    requires n < 10
  {
    "0123456789"[n]
  }

  /** Decimal digits without a leading zero. */
  function Decimal(n: nat): (s: string)
    ensures IsNumber(s)
  {
    if n < 10 then [Digit(n)] else Decimal(n / 10) + [Digit(n % 10)]
  }

  /** Reading undoes printing. */
  lemma {:induction false} ValueOfDecimal(n: nat)
    ensures Value(Decimal(n)) == n
  {
    if n < 10 {
      assert [Digit(n)][..0] == "";
    } else {
      ValueOfDecimal(n / 10);
      var s := Decimal(n / 10) + [Digit(n % 10)];
      assert s[..|s| - 1] == Decimal(n / 10);
    }
  }

  lemma {:induction false} ValueIsPositive(s: string)
    requires IsNumber(s) && s[0] != '0'
    ensures Value(s) > 0
    decreases |s|
  {
    if |s| > 1 {
      ValueIsPositive(s[..|s| - 1]);
    }
  }

  lemma DigitOfValue(c: char)
    requires IsDigit(c)
    ensures DigitValue(c) < 10 && Digit(DigitValue(c)) == c
  {
  }

  /** Printing undoes reading, but for leading zeros. */
  lemma {:induction false} DecimalOfValue(s: string)
    requires IsNumber(s) && (|s| == 1 || s[0] != '0')
    ensures Decimal(Value(s)) == s
    decreases |s|
  {
    var front, last := s[..|s| - 1], s[|s| - 1];
    DigitOfValue(last);
    assert s == front + [last];
    if |s| > 1 {
      ValueIsPositive(front);
      DecimalOfValue(front);
      var n := Value(front);
      assert Value(s) == n * 10 + DigitValue(last);
      assert Value(s) / 10 == n && Value(s) % 10 == DigitValue(last);
    }
  }

  lemma DecimalLength(n: nat)
    ensures n < 10 ==> |Decimal(n)| == 1
    ensures 10 <= n < 100 ==> |Decimal(n)| == 2
  {
  }

  // ---------------------------------------------------------------- case and search

  /** ASCII lower case. */
  function LowerChar(c: char): char {
    if 'A' <= c <= 'Z' then ((c as int) + 32) as char else c
  }

  function Lower(s: string): string {
    seq(|s|, k requires 0 <= k < |s| => LowerChar(s[k]))
  }

  predicate Contains(hay: string, needle: string) {
    exists k :: 0 <= k <= |hay| && needle <= hay[k..]
  }

  /** Lower case, letter by letter; nothing else changes. */
  lemma LowerLetters(s: string)
    ensures Lower("ABCDEFGHIJKLMNOPQRSTUVWXYZ") == "abcdefghijklmnopqrstuvwxyz"
    ensures |Lower(s)| == |s| && Lower(Lower(s)) == Lower(s)
    ensures forall k :: 0 <= k < |s| && !('A' <= s[k] <= 'Z') ==> Lower(s)[k] == s[k]
  {
  }

  /** One text occurs in another exactly when it stands between two others there. */
  lemma ContainsIff(hay: string, needle: string)
    ensures Contains(hay, needle) <==> exists a, b :: hay == a + needle + b
  {
    if k :| 0 <= k <= |hay| && needle <= hay[k..] {
      assert hay == hay[..k] + needle + hay[k + |needle|..];
    }
    if a, b :| hay == a + needle + b {
      assert hay[|a|..] == needle + b;
    }
  }

  /** The blanks and breaks of plain text. */
  lemma PlainBlanksAndBreaks(c: char)
    ensures c in " \t\n\r" ==> IsSpace(c)
    ensures c in "\n\r" ==> IsBreak(c)
    ensures '!' <= c <= '~' ==> !IsSpace(c)
    ensures ' ' <= c <= '~' || c == '\t' ==> !IsBreak(c)
    ensures IsBreak(c) ==> IsSpace(c)
  {
  }
}
