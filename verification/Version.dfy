/** Version tags: the greedy parse into numbers and a suffix, and the order of the update check. */
module Version {
  import opened Text

  // ---------------------------------------------------------------------- parsing

  predicate IsMark(c: char) {
    c == '.' || c == '-' || c == '_'
  }

  function StripMarksLeft(s: string): string {
    if s != "" && IsMark(s[0]) then StripMarksLeft(s[1..]) else s
  }

  function StripMarksRight(s: string): string {
    if s != "" && IsMark(s[|s| - 1]) then StripMarksRight(s[..|s| - 1]) else s
  }

  function StripMarks(s: string): string {
    StripMarksRight(StripMarksLeft(s))
  }

  /** Length of the leading digits. */
  function DigitRun(s: string): (n: nat)
    ensures n <= |s| && forall k :: 0 <= k < n ==> IsDigit(s[k])
  {
    if s == "" || !IsDigit(s[0]) then 0 else 1 + DigitRun(s[1..])
  }

  datatype Split = Split(numbers: seq<nat>, rest: string)

  /** The longest dotted run of numbers at the front, and what follows it. */
  function Core(s: string): (r: Split)
    requires s != "" && IsDigit(s[0])
    ensures r.numbers != []
    decreases |s|
  {
    var n := DigitRun(s);
    var rest := s[n..];
    var number := Value(s[..n]);
    if |rest| >= 2 && rest[0] == '.' && IsDigit(rest[1]) then
      var more := Core(rest[1..]);
      Split([number] + more.numbers, more.rest)
    else Split([number], rest)
  }

  datatype Parsed = Parsed(numbers: seq<nat>, suffix: string)

  /** The text after stripping and without a leading v. */
  function Bare(raw: string): string {
    var s := Strip(raw);
    if s != "" && (s[0] == 'v' || s[0] == 'V') then s[1..] else s
  }

  /** A dot does not match a line feed, so a tag with one inside is not a version. */
  function ParseVersion(raw: string): Parsed {
    var s := Bare(raw);
    if s == "" || !IsDigit(s[0]) then Parsed([0], Lower(s))
    else
      var core := Core(s);
      if '\n' in core.rest then Parsed([0], Lower(s))
      else
        var tail := if core.rest != "" && IsMark(core.rest[0]) then core.rest[1..] else core.rest;
        Parsed(core.numbers, Lower(StripMarks(tail)))
  }

  // ----------------------------------------------------------------------- order

  /** Lexicographic order, as tuples and strings compare. */
  predicate Less(a: seq<int>, b: seq<int>) {
    b != [] && (a == [] || a[0] < b[0] || (a[0] == b[0] && Less(a[1..], b[1..])))
  }

  function Codes(s: string): seq<int> {
    seq(|s|, k requires 0 <= k < |s| => s[k] as int)
  }

  /** The remote release is a newer version than the current one. */
  predicate NewerParsed(current: Parsed, remote: Parsed) {
    if Less(current.numbers, remote.numbers) then true
    else if Less(remote.numbers, current.numbers) then false
    else if current.suffix != "" && remote.suffix == "" then true
    else if current.suffix == "" && remote.suffix != "" then false
    else if current.suffix != "" && remote.suffix != "" then Less(Codes(current.suffix), Codes(remote.suffix))
    else false
  }

  predicate IsRemoteNewer(current: string, remote: string) {
    NewerParsed(ParseVersion(current), ParseVersion(remote))
  }

  lemma {:induction false} LessTransitive(a: seq<int>, b: seq<int>, c: seq<int>)
    requires Less(a, b) && Less(b, c)
    ensures Less(a, c)
  {
    if a != [] && a[0] == b[0] && b[0] == c[0] {
      LessTransitive(a[1..], b[1..], c[1..]);
    }
  }

  lemma {:induction false} LessTrichotomy(a: seq<int>, b: seq<int>)
    ensures !(Less(a, b) && Less(b, a))
    ensures !Less(a, b) && !Less(b, a) <==> a == b
  {
    if a != [] && b != [] && a[0] == b[0] {
      LessTrichotomy(a[1..], b[1..]);
      assert a == [a[0]] + a[1..] && b == [b[0]] + b[1..];
    }
  }

  lemma CodesInjective(s: string, t: string)
    ensures Codes(s) == Codes(t) <==> s == t
  {
    if Codes(s) == Codes(t) {
      assert |s| == |t|;
      forall k | 0 <= k < |s|
        ensures s[k] == t[k]
      {
        assert Codes(s)[k] == Codes(t)[k];
      }
    }
  }

  lemma NewerTrichotomy(a: Parsed, b: Parsed)
    ensures !(NewerParsed(a, b) && NewerParsed(b, a))
    ensures !NewerParsed(a, b) && !NewerParsed(b, a) <==> a == b
  {
    LessTrichotomy(a.numbers, b.numbers);
    LessTrichotomy(Codes(a.suffix), Codes(b.suffix));
    CodesInjective(a.suffix, b.suffix);
  }

  lemma NewerTransitive(a: Parsed, b: Parsed, c: Parsed)
    requires NewerParsed(a, b) && NewerParsed(b, c)
    ensures NewerParsed(a, c)
  {
    LessTrichotomy(a.numbers, b.numbers);
    LessTrichotomy(b.numbers, c.numbers);
    LessTrichotomy(a.numbers, c.numbers);
    if Less(a.numbers, b.numbers) && Less(b.numbers, c.numbers) {
      LessTransitive(a.numbers, b.numbers, c.numbers);
    } else if a.numbers == b.numbers == c.numbers && a.suffix != "" && c.suffix != "" {
      LessTransitive(Codes(a.suffix), Codes(b.suffix), Codes(c.suffix));
    }
  }

  /**
    The update check is a strict weak order on all strings: nothing is newer
    than itself, never both ways, transitive, and two tags are level exactly
    when they parse to the same pair.
  */
  lemma IsStrictWeakOrder(a: string, b: string, c: string)
    ensures !IsRemoteNewer(a, a)
    ensures IsRemoteNewer(a, b) ==> !IsRemoteNewer(b, a)
    ensures IsRemoteNewer(a, b) && IsRemoteNewer(b, c) ==> IsRemoteNewer(a, c)
    ensures !IsRemoteNewer(a, b) && !IsRemoteNewer(b, a) <==> ParseVersion(a) == ParseVersion(b)
  {
    NewerTrichotomy(ParseVersion(a), ParseVersion(a));
    NewerTrichotomy(ParseVersion(a), ParseVersion(b));
    if IsRemoteNewer(a, b) && IsRemoteNewer(b, c) {
      NewerTransitive(ParseVersion(a), ParseVersion(b), ParseVersion(c));
    }
  }

  /** Equal up to some place, and there the first ends or has the smaller entry. */
  ghost predicate FirstDifferenceIsLess(a: seq<int>, b: seq<int>) {
    exists k :: 0 <= k <= |a| && k < |b| && a[..k] == b[..k] && (k == |a| || a[k] < b[k])
  }

  lemma {:induction false} LessIsFirstDifference(a: seq<int>, b: seq<int>)
    ensures Less(a, b) <==> FirstDifferenceIsLess(a, b)
  {
    if a == [] && b != [] {
      assert a[..0] == b[..0];
    } else if a != [] && b != [] {
      if a[0] == b[0] {
        LessIsFirstDifference(a[1..], b[1..]);
        if k :| 0 <= k <= |a[1..]| && k < |b[1..]| && a[1..][..k] == b[1..][..k]
                && (k == |a[1..]| || a[1..][k] < b[1..][k]) {
          assert a[..k + 1] == [a[0]] + a[1..][..k] && b[..k + 1] == [b[0]] + b[1..][..k];
        }
        if k :| 0 <= k <= |a| && k < |b| && a[..k] == b[..k] && (k == |a| || a[k] < b[k]) {
          assert k > 0;
          assert a[1..][..k - 1] == a[..k][1..] && b[1..][..k - 1] == b[..k][1..];
        }
      } else {
        assert a[..0] == b[..0];
        assert forall k :: 0 < k <= |a| && k <= |b| ==> a[..k][0] != b[..k][0];
      }
    }
  }

  /** The same for two texts, by their characters. */
  ghost predicate FirstCharacterIsLess(s: string, t: string) {
    exists k :: 0 <= k <= |s| && k < |t| && s[..k] == t[..k] && (k == |s| || s[k] < t[k])
  }

  lemma CodesByCharacter(s: string, t: string)
    ensures FirstDifferenceIsLess(Codes(s), Codes(t)) <==> FirstCharacterIsLess(s, t)
  {
    forall k | 0 <= k <= |s| && k <= |t|
      ensures Codes(s)[..k] == Codes(t)[..k] <==> s[..k] == t[..k]
    {
      CodesInjective(s[..k], t[..k]);
      assert Codes(s)[..k] == Codes(s[..k]) && Codes(t)[..k] == Codes(t[..k]);
    }
    if k :| 0 <= k <= |s| && k < |t| && s[..k] == t[..k] && (k == |s| || s[k] < t[k]) {
      assert Codes(s)[..k] == Codes(t)[..k];
    }
    if k :| 0 <= k <= |s| && k < |t| && Codes(s)[..k] == Codes(t)[..k] && (k == |s| || Codes(s)[k] < Codes(t)[k]) {
      assert s[..k] == t[..k];
    }
  }

  /**
    What newer means: by the first differing number, else a clean release over
    a suffix, else by the first differing character.
  */
  lemma NewerMeans(current: string, remote: string)
    ensures IsRemoteNewer(current, remote) <==>
            var c, r := ParseVersion(current), ParseVersion(remote);
            || FirstDifferenceIsLess(c.numbers, r.numbers)
            || (c.numbers == r.numbers && c.suffix != ""
                && (r.suffix == "" || FirstCharacterIsLess(c.suffix, r.suffix)))
  {
    var c, r := ParseVersion(current), ParseVersion(remote);
    LessIsFirstDifference(c.numbers, r.numbers);
    LessTrichotomy(c.numbers, r.numbers);
    LessIsFirstDifference(Codes(c.suffix), Codes(r.suffix));
    CodesByCharacter(c.suffix, r.suffix);
  }

  // ------------------------------------------------------------------- round trip

  function Dotted(numbers: seq<nat>): string
    requires numbers != []
  {
    if |numbers| == 1 then Decimal(numbers[0]) else Decimal(numbers[0]) + "." + Dotted(numbers[1..])
  }

  /** Dots, dashes and underscores. */
  predicate AllMarks(s: string) {
    forall k :: 0 <= k < |s| ==> s[k] in {'.', '-', '_'}
  }

  /** A suffix on one line, without a mark at either end or a blank at its end. */
  predicate Plain(suffix: string) {
    suffix != "" ==>
      && '\n' !in suffix && !IsSpace(suffix[|suffix| - 1])
      && suffix[0] !in {'.', '-', '_'} && suffix[|suffix| - 1] !in {'.', '-', '_'}
  }

  /** Marks that keep the suffix apart from the numbers: a digit must not follow them directly or after one dot. */
  predicate Separates(sep: string, suffix: string) {
    AllMarks(sep) && (suffix == "" || !IsDigit(suffix[0]) || (sep != "" && sep != "."))
  }

  function Render(numbers: seq<nat>, sep: string, suffix: string, marks: string): string
    requires numbers != []
  {
    Dotted(numbers) + (sep + suffix + marks)
  }

  /** What may follow the numbers without being read as one. */
  predicate EndsNumbers(rest: string) {
    rest == "" || (!IsDigit(rest[0]) && (rest[0] == '.' && |rest| >= 2 ==> !IsDigit(rest[1])))
  }

  lemma {:induction false} DigitRunStops(digits: string, rest: string)
    requires forall k :: 0 <= k < |digits| ==> IsDigit(digits[k])
    requires rest == "" || !IsDigit(rest[0])
    ensures DigitRun(digits + rest) == |digits|
  {
    if digits == "" {
      assert digits + rest == rest;
    } else {
      assert (digits + rest)[1..] == digits[1..] + rest;
      DigitRunStops(digits[1..], rest);
    }
  }

  lemma CoreStep(digits: string, rest: string)
    requires IsNumber(digits) && (rest == "" || !IsDigit(rest[0]))
    ensures Core(digits + rest) ==
            if |rest| >= 2 && rest[0] == '.' && IsDigit(rest[1]) then
              Split([Value(digits)] + Core(rest[1..]).numbers, Core(rest[1..]).rest)
            else Split([Value(digits)], rest)
  {
    var s := digits + rest;
    DigitRunStops(digits, rest);
    assert s[..|digits|] == digits && s[|digits|..] == rest;
  }

  lemma {:induction false} CoreOfDotted(numbers: seq<nat>, rest: string)
    requires numbers != [] && EndsNumbers(rest)
    ensures var s := Dotted(numbers) + rest;
            s != "" && IsDigit(s[0]) && Core(s) == Split(numbers, rest)
    decreases |numbers|
  {
    hide Core, Decimal;
    var first := Decimal(numbers[0]);
    ValueOfDecimal(numbers[0]);
    if |numbers| == 1 {
      CoreStep(first, rest);
      assert numbers == [numbers[0]];
    } else {
      var more := Dotted(numbers[1..]) + rest;
      CoreOfDotted(numbers[1..], rest);
      CoreStep(first, "." + more);
      assert Dotted(numbers) + rest == first + ("." + more);
      assert ("." + more)[1..] == more;
      assert numbers == [numbers[0]] + numbers[1..];
    }
  }

  lemma {:induction false} DottedEndsWithDigit(numbers: seq<nat>)
    requires numbers != []
    ensures Dotted(numbers) != "" && IsDigit(Dotted(numbers)[0]) && IsDigit(Dotted(numbers)[|Dotted(numbers)| - 1])
    decreases |numbers|
  {
    if |numbers| > 1 {
      DottedEndsWithDigit(numbers[1..]);
    }
  }

  lemma RenderIsTrim(numbers: seq<nat>, sep: string, suffix: string, marks: string)
    requires numbers != [] && Plain(suffix) && AllMarks(sep) && AllMarks(marks)
    ensures var s := Render(numbers, sep, suffix, marks); s != "" && IsDigit(s[0]) && !IsSpace(s[|s| - 1])
  {
    DottedEndsWithDigit(numbers);
    var s, rest := Render(numbers, sep, suffix, marks), sep + suffix + marks;
    if rest == "" {
      assert s == Dotted(numbers);
    } else {
      assert s[|s| - 1] == rest[|rest| - 1];
      if marks != "" {
        assert rest[|rest| - 1] == marks[|marks| - 1];
      } else if suffix != "" {
        assert rest[|rest| - 1] == suffix[|suffix| - 1];
      }
    }
  }

  lemma {:induction false} MarksLeft(marks: string, s: string)
    requires AllMarks(marks) && (s != "" ==> s[0] !in {'.', '-', '_'})
    ensures StripMarksLeft(marks + s) == s
  {
    if marks == "" {
      assert marks + s == s;
    } else {
      assert (marks + s)[1..] == marks[1..] + s;
      MarksLeft(marks[1..], s);
    }
  }

  lemma {:induction false} MarksRight(s: string, marks: string)
    requires AllMarks(marks) && (s != "" ==> s[|s| - 1] !in {'.', '-', '_'})
    ensures StripMarksRight(s + marks) == s
  {
    if marks == "" {
      assert s + marks == s;
    } else {
      assert (s + marks)[..|s + marks| - 1] == s + marks[..|marks| - 1];
      MarksRight(s, marks[..|marks| - 1]);
    }
  }

  /** Stripping marks leaves what stands between them. */
  lemma StripMarksOf(left: string, s: string, right: string)
    requires AllMarks(left) && AllMarks(right) && Plain(s)
    ensures StripMarks(left + s + right) == s
  {
    if s == "" {
      assert left + s + right == (left + right) + "";
      MarksLeft(left + right, "");
    } else {
      assert left + s + right == left + (s + right);
      MarksLeft(left, s + right);
      MarksRight(s, right);
    }
  }

  lemma BareOfPadded(left: string, v: string, s: string, right: string)
    requires AllSpace(left) && AllSpace(right) && v in {"", "v", "V"}
    requires s != "" && IsDigit(s[0]) && !IsSpace(s[|s| - 1])
    ensures Bare(left + (v + s) + right) == s
  {
    StripPadded(left, v + s, right);
    assert v == "" ==> v + s == s;
    assert v != "" ==> (v + s)[1..] == s;
  }

  /** The rest after the numbers: its first mark goes first, then all marks at its ends. */
  lemma SuffixOf(sep: string, suffix: string, marks: string)
    requires Plain(suffix) && AllMarks(sep) && AllMarks(marks)
    ensures var rest := sep + suffix + marks;
            && '\n' !in rest
            && StripMarks(if rest != "" && IsMark(rest[0]) then rest[1..] else rest) == suffix
  {
    var rest := sep + suffix + marks;
    if sep != "" {
      assert rest[1..] == sep[1..] + suffix + marks;
      StripMarksOf(sep[1..], suffix, marks);
    } else if suffix == "" && marks != "" {
      assert rest[1..] == "" + suffix + marks[1..];
      StripMarksOf("", suffix, marks[1..]);
    } else {
      StripMarksOf("", suffix, marks);
    }
  }

  lemma SeparatorEndsNumbers(sep: string, suffix: string, marks: string)
    requires Plain(suffix) && Separates(sep, suffix) && AllMarks(marks)
    ensures EndsNumbers(sep + suffix + marks)
  {
  }

  /**
    Parsing undoes rendering: every non-empty list of numbers and every suffix
    come back, the suffix in lower case, whatever marks keep them apart or
    follow; outer whitespace and a leading v are ignored.
  */
  lemma ParseUndoesRender(numbers: seq<nat>, sep: string, suffix: string, marks: string,
                          left: string, v: string, right: string)
    requires numbers != [] && Plain(suffix) && Separates(sep, suffix) && AllMarks(marks)
    requires AllSpace(left) && AllSpace(right) && v in {"", "v", "V"}
    ensures ParseVersion(left + (v + Render(numbers, sep, suffix, marks)) + right) == Parsed(numbers, Lower(suffix))
  {
    hide Core, Decimal, Bare, IsSpace, StripMarks, IsMark, EndsNumbers;
    var s, rest := Render(numbers, sep, suffix, marks), sep + suffix + marks;
    RenderIsTrim(numbers, sep, suffix, marks);
    BareOfPadded(left, v, s, right);
    SeparatorEndsNumbers(sep, suffix, marks);
    CoreOfDotted(numbers, rest);
    SuffixOf(sep, suffix, marks);
  }

  /** A tag that does not start with a digit is version zero with the whole text as suffix. */
  lemma ParseOfNoNumber(left: string, v: string, text: string, right: string)
    requires AllSpace(left) && AllSpace(right)
    requires text != "" ==> !IsDigit(text[0]) && !IsSpace(text[|text| - 1])
    requires v in {"v", "V"} || (v == "" && (text != "" ==> text[0] !in {'v', 'V'} && !IsSpace(text[0])))
    ensures ParseVersion(left + (v + text) + right) == Parsed([0], Lower(text))
  {
    var s := v + text;
    if text != "" {
      assert s[|s| - 1] == text[|text| - 1];
    }
    assert !IsSpace('v') && !IsSpace('V');
    StripPadded(left, s, right);
    assert v == "" ==> s == text;
    assert v != "" ==> s[1..] == text;
    hide Strip, Core;
  }

  /** So is one with a line feed after its numbers. */
  lemma ParseOfBrokenTag(numbers: seq<nat>, rest: string, left: string, v: string, right: string)
    requires numbers != [] && EndsNumbers(rest) && '\n' in rest && !IsSpace(rest[|rest| - 1])
    requires AllSpace(left) && AllSpace(right) && v in {"", "v", "V"}
    ensures ParseVersion(left + (v + (Dotted(numbers) + rest)) + right) == Parsed([0], Lower(Dotted(numbers) + rest))
  {
    hide Core, Decimal, Bare, IsSpace, StripMarks, IsMark, EndsNumbers;
    var s := Dotted(numbers) + rest;
    DottedEndsWithDigit(numbers);
    assert s[|s| - 1] == rest[|rest| - 1];
    BareOfPadded(left, v, s, right);
    CoreOfDotted(numbers, rest);
  }
}
