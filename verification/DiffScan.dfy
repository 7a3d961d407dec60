/**
  The push denylist scan: the pattern list, the scanner that collects the
  added lines of a unified diff, and the match of the two.
*/
module DiffScan {
  import opened Wrappers
  import opened Text

  const MIN_PATTERN := 4

  // ------------------------------------------------------------------- patterns

  /** Neither blank nor a comment. */
  predicate Meant(line: string) {
    var text := Strip(line);
    text != "" && text[0] != '#'
  }

  predicate Kept(line: string) {
    Meant(line) && |Strip(line)| >= MIN_PATTERN
  }

  function Patterns(lines: seq<string>): seq<string> {
    if lines == [] then []
    else Patterns(lines[..|lines| - 1]) + (if Kept(lines[|lines| - 1]) then [Strip(lines[|lines| - 1])] else [])
  }

  function CountMeant(lines: seq<string>): nat {
    if lines == [] then 0 else CountMeant(lines[..|lines| - 1]) + (if Meant(lines[|lines| - 1]) then 1 else 0)
  }

  /** The literal patterns, and how many short lines were ignored; together they are the lines that were meant. */
  method ParsePatterns(raw: string) returns (patterns: seq<string>, short: nat)
    ensures patterns == Patterns(SplitLines(raw))
    ensures |patterns| + short == CountMeant(SplitLines(raw))
  {
    var lines := SplitLines(raw);
    patterns, short := [], 0;
    for i := 0 to |lines|
      invariant patterns == Patterns(lines[..i])
      invariant |patterns| + short == CountMeant(lines[..i])
    {
      assert lines[..i + 1][..i] == lines[..i];
      var text := Strip(lines[i]);
      if text == "" || text[0] == '#' {
        continue;
      }
      if |text| < MIN_PATTERN {
        short := short + 1;
        continue;
      }
      patterns := patterns + [text];
    }
    assert lines[..|lines|] == lines;
  }

  /** What is a pattern: a stripped line of at least four characters that is no comment. */
  lemma {:induction false} PatternsAre(lines: seq<string>, p: string)
    ensures p in Patterns(lines) <==>
            |p| >= 4 && p[0] != '#' && exists k :: 0 <= k < |lines| && Strip(lines[k]) == p
  {
    if lines != [] {
      var before, last := lines[..|lines| - 1], lines[|lines| - 1];
      PatternsAre(before, p);
      assert forall k :: 0 <= k < |lines| - 1 ==> before[k] == lines[k];
    }
  }

  // --------------------------------------------------------------------- scanner

  /** A line the diff adds: its path, its number in the new file, its text. */
  datatype Hit = Hit(path: string, number: nat, text: string)

  datatype Scan = Scan(path: Option<string>, next: nat, found: seq<Hit>) | Crash

  /** The path of a "+++" line. */
  function HeaderPath(raw: string): Option<string>
    requires |raw| >= 4
  {
    var spec := Strip(raw[4..]);
    if "b/" <= spec then Some(spec[2..]) else if spec == "/dev/null" then None else Some(spec)
  }

  /** The first part that starts with a plus. */
  function FirstPlus(parts: seq<string>): string {
    if parts == [] then "+0" else if "+" <= parts[0] then parts[0] else FirstPlus(parts[1..])
  }

  /** The new start of a hunk header. None is the ValueError of int(). */
  function HunkStart(raw: string): Option<nat> {
    var plus := FirstPlus(SplitAt(raw, ' '));
    var number := if plus == "" then "" else SplitAt(plus[1..], ',')[0];
    if number == "" then Some(0) else if IsNumber(number) then Some(Value(number)) else None
  }

  function ScanLine(st: Scan, raw: string): Scan {
    if st.Crash? then Crash
    else if "+++ " <= raw then st.(path := HeaderPath(raw))
    else if "@@" <= raw then
      var start := HunkStart(raw);
      if start.None? then Crash else st.(next := start.value)
    else if "+" <= raw then
      var found :=
        if st.path.Some? && st.path.value != "" then st.found + [Hit(st.path.value, st.next, raw[1..])]
        else st.found;
      Scan(st.path, st.next + 1, found)
    else if "-" <= raw || "\\" <= raw then st
    else st.(next := st.next + 1)
  }

  function ScanAll(st: Scan, lines: seq<string>): Scan
    decreases |lines|
  {
    if lines == [] then st else ScanAll(ScanLine(st, lines[0]), lines[1..])
  }

  const START := Scan(None, 0, [])

  function Result(st: Scan): Option<seq<Hit>> {
    if st.Crash? then None else Some(st.found)
  }

  lemma {:induction false} ScanConcat(st: Scan, a: seq<string>, b: seq<string>)
    ensures ScanAll(st, a + b) == ScanAll(ScanAll(st, a), b)
    decreases |a|
  {
    if a == [] {
      assert a + b == b;
    } else {
      assert (a + b)[1..] == a[1..] + b;
      ScanConcat(ScanLine(st, a[0]), a[1..], b);
    }
  }

  lemma Chain(st: Scan, a: seq<string>, mid: Scan, b: seq<string>, end: Scan)
    requires ScanAll(st, a) == mid && ScanAll(mid, b) == end
    ensures ScanAll(st, a + b) == end
  {
    ScanConcat(st, a, b);
  }

  lemma {:induction false} CrashStays(lines: seq<string>)
    ensures ScanAll(Crash, lines) == Crash
    decreases |lines|
  {
    if lines != [] {
      CrashStays(lines[1..]);
    }
  }

  /** The scanner as it runs over the text of a diff. */
  method AddedLines(diff: string) returns (found: Option<seq<Hit>>)
    ensures found == Result(ScanAll(START, SplitLines(diff)))
  {
    hide Strip, HunkStart, SplitLines;
    var lines := SplitLines(diff);
    var path: Option<string> := None;
    var next := 0;
    var hits: seq<Hit> := [];
    for i := 0 to |lines|
      invariant ScanAll(Scan(path, next, hits), lines[i..]) == ScanAll(START, lines)
    {
      var raw := lines[i];
      assert lines[i..][0] == raw && lines[i..][1..] == lines[i + 1..];
      if "+++ " <= raw {
        var spec := Strip(raw[4..]);
        if "b/" <= spec {
          path := Some(spec[2..]);
        } else if spec == "/dev/null" {
          path := None;
        } else {
          path := Some(spec);
        }
        continue;
      }
      if "@@" <= raw {
        var start := HunkStart(raw);
        if start.None? {
          CrashStays(lines[i + 1..]);
          return None;
        }
        next := start.value;
        continue;
      }
      if "+" <= raw {
        if path.Some? && path.value != "" {
          hits := hits + [Hit(path.value, next, raw[1..])];
        }
        next := next + 1;
        continue;
      }
      if "-" <= raw || "\\" <= raw {
        continue;
      }
      next := next + 1;
    }
    return Some(hits);
  }

  // ------------------------------------------------- lines that git's default does not print

  /** A path without the prefix is taken as it stands, and the null device is no path. */
  lemma OtherPaths(st: Scan, path: string)
    requires st.Scan? && Trim(path) && !("b/" <= path)
    ensures ScanLine(st, "+++ " + path) == st.(path := if path == "/dev/null" then None else Some(path))
  {
    var line := "+++ " + path;
    assert line[..4] == "+++ " && line[4..] == path;
    assert "+++ " <= line;
    StripOfTrim(path);
  }

  /** Lines added to the null device are counted and not reported. */
  lemma NullDeviceIsNotReported(next: nat, found: seq<Hit>, text: string)
    requires !("++ " <= text)
    ensures ScanLine(Scan(None, next, found), "+" + text) == Scan(None, next + 1, found)
  {
    var line := "+" + text;
    assert |text| < 3 || text[0] != '+' || text[1] != '+' || text[2] != ' ';
    assert forall k :: 0 <= k < |text| ==> line[k + 1] == text[k];
  }

  lemma UpToComma(plus: string, count: string)
    requires ',' !in plus && (count == "" || count[0] == ',')
    ensures SplitAt(plus + count, ',')[0] == plus
  {
    if count == "" {
      assert plus + count == plus;
      SplitNone(plus, ',');
    } else {
      assert plus + count == plus + [','] + count[1..];
      SplitFirst(plus, ',', count[1..]);
    }
  }

  /** The number of a hunk header: the text after the first plus, up to a comma. No text is zero. */
  lemma HunkStartIs(first: string, plus: string, count: string, rest: string)
    requires ' ' !in first && !("+" <= first) && ' ' !in plus && ',' !in plus
    requires count == "" || (' ' !in count && count[0] == ',')
    ensures HunkStart(first + [' '] + (("+" + plus + count) + [' '] + rest)) ==
            if plus == "" then Some(0) else if IsNumber(plus) then Some(Value(plus)) else None
  {
    hide SplitAt, IsNumber, Value;
    var part := "+" + plus + count;
    assert ' ' !in part;
    SplitFirst(first, ' ', part + [' '] + rest);
    SplitFirst(part, ' ', rest);
    var tail := [part] + SplitAt(rest, ' ');
    assert ([first] + tail)[1..] == tail && part[0] == '+' && part[1..] == plus + count;
    UpToComma(plus, count);
    assert FirstPlus(tail) == part;
  }

  /** A hunk header whose new start is no number ends the scan; one without a new side starts at zero. */
  lemma OtherHeaders(st: Scan, plus: string, count: string, rest: string)
    requires st.Scan? && ' ' !in plus && ',' !in plus && (count == "" || (' ' !in count && count[0] == ','))
    ensures ScanLine(st, "@@" + [' '] + (("+" + plus + count) + [' '] + rest)) ==
            if plus == "" then st.(next := 0) else if IsNumber(plus) then st.(next := Value(plus)) else Crash
    ensures ScanLine(st, "@@") == st.(next := 0)
  {
    var line := "@@" + [' '] + (("+" + plus + count) + [' '] + rest);
    assert "@@"[0] == '@' && "@@"[1] == '@' && ' ' !in "@@";
    HunkStartIs("@@", plus, count, rest);
    assert line[0] == '@' && "@@" <= line && !("+++ " <= line);
    assert HunkStart("@@") == Some(0) by {
      SplitNone("@@", ' ');
      SplitNone("0", ',');
      assert "+0"[1..] == "0" && Value("0") == 0;
    }
    assert !("+++ " <= "@@");
    hide HunkStart, IsNumber, Value;
  }

  // --------------------------------------------------------------- the diff printer

  datatype Edit = Keep(text: string) | Add(text: string) | Drop(text: string) | NoNewline

  /** A file as the diff sees it: stretches that are not shown, and hunks. */
  datatype Segment = Same(lines: seq<string>) | Change(edits: seq<Edit>, heading: string)

  /** One file of a diff. `headers` are the lines before the "+++" line. */
  datatype FileDiff = FileDiff(path: string, headers: seq<string>, script: seq<Segment>)

  function EditLine(e: Edit): string {
    match e
    case Keep(text) => " " + text
    case Add(text) => "+" + text
    case Drop(text) => "-" + text
    case NoNewline => "\\ No newline at end of file"
  }

  function EditLines(edits: seq<Edit>): seq<string> {
    if edits == [] then [] else [EditLine(edits[0])] + EditLines(edits[1..])
  }

  /** The lines of the new file that a hunk shows. */
  function NewSide(edits: seq<Edit>): seq<string> {
    if edits == [] then []
    else (if edits[0].Keep? || edits[0].Add? then [edits[0].text] else []) + NewSide(edits[1..])
  }

  function OldSide(edits: seq<Edit>): seq<string> {
    if edits == [] then []
    else (if edits[0].Keep? || edits[0].Drop? then [edits[0].text] else []) + OldSide(edits[1..])
  }

  /** A side of a hunk header. An empty side names the line before it, and a count of one is left out. */
  function Range(start: nat, count: nat): string
    requires start > 0
  {
    Decimal(if count == 0 then start - 1 else start) + (if count == 1 then "" else "," + Decimal(count))
  }

  function HunkHeader(o: nat, n: nat, edits: seq<Edit>, heading: string): string
    requires o > 0 && n > 0
  {
    var minus, plus := "-" + Range(o, |OldSide(edits)|), "+" + Range(n, |NewSide(edits)|);
    "@@" + [' '] + (minus + [' '] + (plus + [' '] + ("@@" + heading)))
  }

  function PrintHunk(o: nat, n: nat, edits: seq<Edit>, heading: string): seq<string>
    requires o > 0 && n > 0
  {
    [HunkHeader(o, n, edits, heading)] + EditLines(edits)
  }

  /** The hunks of a file whose next line is `o` in the old and `n` in the new file. */
  function PrintScript(script: seq<Segment>, o: nat, n: nat): seq<string>
    requires o > 0 && n > 0
    decreases |script|
  {
    if script == [] then []
    else
      match script[0]
      case Same(lines) => PrintScript(script[1..], o + |lines|, n + |lines|)
      case Change(edits, heading) =>
        PrintHunk(o, n, edits, heading) + PrintScript(script[1..], o + |OldSide(edits)|, n + |NewSide(edits)|)
  }

  /** A path with a blank is followed by a tab. */
  function PathLine(path: string): string {
    "+++ b/" + path + (if ' ' in path then "\t" else "")
  }

  function PrintFile(f: FileDiff): seq<string> {
    f.headers + ([PathLine(f.path)] + PrintScript(f.script, 1, 1))
  }

  function Print(files: seq<FileDiff>): seq<string> {
    if files == [] then [] else PrintFile(files[0]) + Print(files[1..])
  }

  // ---------------------------------------------------------- what the diff inserts

  function NewFile(script: seq<Segment>): seq<string> {
    if script == [] then []
    else (if script[0].Same? then script[0].lines else NewSide(script[0].edits)) + NewFile(script[1..])
  }

  function EditHits(path: string, edits: seq<Edit>, n: nat): seq<Hit>
    decreases |edits|
  {
    if edits == [] then []
    else
      match edits[0]
      case Keep(_) => EditHits(path, edits[1..], n + 1)
      case Add(text) => [Hit(path, n, text)] + EditHits(path, edits[1..], n + 1)
      case _ => EditHits(path, edits[1..], n)
  }

  /** The inserted lines of a file, numbered by walking the whole new file. */
  function Inserted(path: string, script: seq<Segment>, n: nat): seq<Hit>
    decreases |script|
  {
    if script == [] then []
    else
      match script[0]
      case Same(lines) => Inserted(path, script[1..], n + |lines|)
      case Change(edits, _) => EditHits(path, edits, n) + Inserted(path, script[1..], n + |NewSide(edits)|)
  }

  function InsertedAll(files: seq<FileDiff>): seq<Hit> {
    if files == [] then [] else Inserted(files[0].path, files[0].script, 1) + InsertedAll(files[1..])
  }

  /** The texts a script adds, in order. */
  function AddedTexts(script: seq<Segment>): seq<string> {
    if script == [] then []
    else (if script[0].Same? then [] else EditTexts(script[0].edits)) + AddedTexts(script[1..])
  }

  function EditTexts(edits: seq<Edit>): seq<string> {
    if edits == [] then [] else (if edits[0].Add? then [edits[0].text] else []) + EditTexts(edits[1..])
  }

  function AllAddedTexts(files: seq<FileDiff>): seq<string> {
    if files == [] then [] else AddedTexts(files[0].script) + AllAddedTexts(files[1..])
  }

  /** An inserted text that the scanner cannot tell from a file header. */
  predicate Ambiguous(e: Edit) {
    e.Add? && "++ " <= e.text
  }

  predicate Plain(texts: seq<string>) {
    forall t :: t in texts ==> !("++ " <= t)
  }

  predicate Clean(files: seq<FileDiff>) {
    Plain(AllAddedTexts(files))
  }

  /** A path that the scanner reads back: it does not end in whitespace. */
  predicate Legible(path: string) {
    path != "" && !IsSpace(path[|path| - 1])
  }

  /** Every file with an insertion has such a path. */
  predicate Named(files: seq<FileDiff>) {
    forall k :: 0 <= k < |files| ==> AddedTexts(files[k].script) == [] || Legible(files[k].path)
  }

  /** What git prints: a path that is not empty, and headers that are not scanned. */
  predicate WellFormed(f: FileDiff) {
    && f.path != ""
    && forall k :: 0 <= k < |f.headers| ==> !("+" <= f.headers[k]) && !("@@" <= f.headers[k])
  }

  predicate AllWellFormed(files: seq<FileDiff>) {
    forall k :: 0 <= k < |files| ==> WellFormed(files[k])
  }

  // ------------------------------------------------------ scanning what was printed

  lemma PathLineParses(path: string)
    requires Legible(path)
    ensures HeaderPath(PathLine(path)) == Some(path)
  {
    var tail := if ' ' in path then "\t" else "";
    assert PathLine(path)[4..] == "" + ("b/" + path) + tail;
    StripPadded("", "b/" + path, tail);
    assert ("b/" + path)[2..] == path;
  }

  lemma RangeParts(start: nat, count: nat)
    requires start > 0
    ensures ' ' !in Range(start, count)
    ensures SplitAt(Range(start, count), ',')[0] == Decimal(if count == 0 then start - 1 else start)
  {
    var first := Decimal(if count == 0 then start - 1 else start);
    if count == 1 {
      assert first + "" == first;
      SplitNone(first, ',');
    } else {
      assert first + ("," + Decimal(count)) == first + [','] + Decimal(count);
      SplitFirst(first, ',', Decimal(count));
    }
  }

  lemma PlusPart(minus: string, plus: string, tail: string)
    requires ' ' !in minus && ' ' !in plus && "-" <= minus && "+" <= plus
    ensures FirstPlus(SplitAt("@@" + [' '] + (minus + [' '] + (plus + [' '] + tail)), ' ')) == plus
  {
    SplitFirst(plus, ' ', tail);
    SplitFirst(minus, ' ', plus + [' '] + tail);
    SplitFirst("@@", ' ', minus + [' '] + (plus + [' '] + tail));
    var last := [plus] + SplitAt(tail, ' ');
    var parts := ["@@"] + ([minus] + last);
    assert parts[1..] == [minus] + last && parts[1..][1..] == last;
    assert parts[0][0] == '@' && minus[0] == '-';
    assert FirstPlus(last) == plus;
    assert FirstPlus([minus] + last) == plus;
  }

  /** The header's new start is read back. */
  lemma HunkHeaderParses(o: nat, n: nat, edits: seq<Edit>, heading: string)
    requires o > 0 && n > 0
    ensures "@@" <= HunkHeader(o, n, edits, heading) && !("+" <= HunkHeader(o, n, edits, heading))
    ensures HunkStart(HunkHeader(o, n, edits, heading)) == Some(if NewSide(edits) == [] then n - 1 else n)
  {
    var minus := "-" + Range(o, |OldSide(edits)|);
    var plus := "+" + Range(n, |NewSide(edits)|);
    RangeParts(o, |OldSide(edits)|);
    RangeParts(n, |NewSide(edits)|);
    PlusPart(minus, plus, "@@" + heading);
    assert plus[1..] == Range(n, |NewSide(edits)|);
    ValueOfDecimal(if NewSide(edits) == [] then n - 1 else n);
    assert HunkHeader(o, n, edits, heading)[0] == '@';
  }

  lemma {:induction false} NoNewSideNoHits(path: string, edits: seq<Edit>, n: nat, m: nat)
    requires NewSide(edits) == []
    ensures EditHits(path, edits, n) == EditHits(path, edits, m) == []
    decreases |edits|
  {
    if edits != [] {
      NoNewSideNoHits(path, edits[1..], n, m);
    }
  }

  /** What the scanner tests on the line of an edit. */
  lemma EditLineTests(e: Edit)
    ensures "+" <= EditLine(e) <==> e.Add?
    ensures "+++ " <= EditLine(e) <==> Ambiguous(e)
    ensures !("@@" <= EditLine(e))
    ensures "-" <= EditLine(e) || "\\" <= EditLine(e) <==> e.Drop? || e.NoNewline?
    ensures e.Add? ==> EditLine(e)[1..] == e.text
  {
    var line := EditLine(e);
    assert line[0] == if e.Keep? then ' ' else if e.Add? then '+' else if e.Drop? then '-' else '\\';
    if e.Add? {
      assert line[1..] == e.text;
      assert "+++ "[1..] == "++ ";
      assert "+++ " <= line ==> "++ " <= line[1..];
      if "++ " <= e.text {
        assert line == "+" + e.text && "+++ " == "+" + "++ ";
      }
    }
  }

  lemma PlainConcat(a: seq<string>, b: seq<string>)
    ensures Plain(a + b) <==> Plain(a) && Plain(b)
  {
    if Plain(a + b) {
      assert forall t :: t in a || t in b ==> t in a + b;
    }
  }

  /** Inserted texts that a scanner with this path reports under that name. */
  predicate Fits(p: Option<string>, path: string, texts: seq<string>) {
    Plain(texts) && (texts == [] || p == Some(path))
  }

  lemma FitsConcat(p: Option<string>, path: string, a: seq<string>, b: seq<string>)
    requires Fits(p, path, a + b)
    ensures Fits(p, path, a) && Fits(p, path, b)
  {
    PlainConcat(a, b);
    assert a + b == [] ==> a == [] && b == [];
  }

  /** One line of a hunk, scanned. */
  lemma EditScans(p: Option<string>, path: string, e: Edit, n: nat, found: seq<Hit>)
    requires path != "" && !Ambiguous(e) && (e.Add? ==> p == Some(path))
    ensures ScanLine(Scan(p, n, found), EditLine(e))
         == if e.Add? then Scan(p, n + 1, found + [Hit(path, n, e.text)])
            else Scan(p, if e.Keep? then n + 1 else n, found)
  {
    EditLineTests(e);
  }

  lemma AddFits(p: Option<string>, path: string, e: Edit)
    requires e.Add? ==> Fits(p, path, [e.text])
    ensures !Ambiguous(e) && (e.Add? ==> p == Some(path))
  {
    if e.Add? {
      assert e.text in [e.text];
    }
  }

  lemma ScanCons(st: Scan, line: string, rest: seq<string>)
    ensures ScanAll(st, [line] + rest) == ScanAll(ScanLine(st, line), rest)
  {
    hide ScanLine;
    assert ([line] + rest)[1..] == rest;
  }

  lemma Regroup(a: seq<Hit>, b: seq<Hit>, c: seq<Hit>)
    ensures a + (b + c) == (a + b) + c
  {
  }

  lemma FitsEdits(p: Option<string>, path: string, edits: seq<Edit>)
    requires edits != [] && Fits(p, path, EditTexts(edits))
    ensures Fits(p, path, EditTexts(edits[1..])) && !Ambiguous(edits[0]) && (edits[0].Add? ==> p == Some(path))
  {
    FitsConcat(p, path, if edits[0].Add? then [edits[0].text] else [], EditTexts(edits[1..]));
    AddFits(p, path, edits[0]);
  }

  lemma FitsScript(p: Option<string>, path: string, script: seq<Segment>)
    requires script != [] && Fits(p, path, AddedTexts(script))
    ensures Fits(p, path, AddedTexts(script[1..]))
    ensures script[0].Change? ==> Fits(p, path, EditTexts(script[0].edits))
  {
    hide EditTexts;
    FitsConcat(p, path, if script[0].Same? then [] else EditTexts(script[0].edits), AddedTexts(script[1..]));
  }

  /** Lines that take the scanner from one number to another and add these hits to whatever was found. */
  ghost predicate Yields(p: Option<string>, next: nat, lines: seq<string>, last: nat, hits: seq<Hit>) {
    forall found :: ScanAll(Scan(p, next, found), lines) == Scan(p, last, found + hits)
  }

  lemma YieldsNothing(p: Option<string>, next: nat)
    ensures Yields(p, next, [], next, [])
  {
    forall found: seq<Hit>
      ensures found + [] == found
    {
    }
  }

  lemma YieldsBoth(p: Option<string>, next: nat, a: seq<string>, mid: nat, hitsA: seq<Hit>,
                   b: seq<string>, last: nat, hitsB: seq<Hit>)
    requires Yields(p, next, a, mid, hitsA) && Yields(p, mid, b, last, hitsB)
    ensures Yields(p, next, a + b, last, hitsA + hitsB)
  {
    hide ScanAll;
    forall found
      ensures ScanAll(Scan(p, next, found), a + b) == Scan(p, last, found + (hitsA + hitsB))
    {
      Chain(Scan(p, next, found), a, Scan(p, mid, found + hitsA), b, Scan(p, last, (found + hitsA) + hitsB));
      Regroup(found, hitsA, hitsB);
    }
  }

  lemma EditYields(p: Option<string>, path: string, e: Edit, n: nat)
    requires path != "" && !Ambiguous(e) && (e.Add? ==> p == Some(path))
    ensures var last := if e.Keep? || e.Add? then n + 1 else n;
            Yields(p, n, [EditLine(e)], last, if e.Add? then [Hit(path, n, e.text)] else [])
  {
    hide ScanLine, EditLine;
    forall found: seq<Hit>
      ensures var last, hits := if e.Keep? || e.Add? then n + 1 else n, if e.Add? then [Hit(path, n, e.text)] else [];
              ScanAll(Scan(p, n, found), [EditLine(e)]) == Scan(p, last, found + hits)
    {
      EditScans(p, path, e, n, found);
      assert [EditLine(e)] + [] == [EditLine(e)] && found + [] == found;
      ScanCons(Scan(p, n, found), EditLine(e), []);
    }
  }

  lemma {:induction false} EditsYield(p: Option<string>, path: string, edits: seq<Edit>, n: nat)
    requires path != "" && Fits(p, path, EditTexts(edits))
    ensures Yields(p, n, EditLines(edits), n + |NewSide(edits)|, EditHits(path, edits, n))
    decreases |edits|
  {
    hide EditLine, Fits, EditTexts, Yields, Ambiguous;
    if edits == [] {
      YieldsNothing(p, n);
    } else {
      var first, rest := edits[0], edits[1..];
      var mid := if first.Keep? || first.Add? then n + 1 else n;
      FitsEdits(p, path, edits);
      EditYields(p, path, first, n);
      EditsYield(p, path, rest, mid);
      YieldsBoth(p, n, [EditLine(first)], mid, if first.Add? then [Hit(path, n, first.text)] else [],
                 EditLines(rest), mid + |NewSide(rest)|, EditHits(path, rest, mid));
      if !first.Add? {
        assert [] + EditHits(path, rest, mid) == EditHits(path, rest, mid);
      }
    }
  }

  lemma HeaderScans(st: Scan, o: nat, n: nat, edits: seq<Edit>, heading: string)
    requires st.Scan? && o > 0 && n > 0
    ensures ScanLine(st, HunkHeader(o, n, edits, heading)) == st.(next := if NewSide(edits) == [] then n - 1 else n)
  {
    HunkHeaderParses(o, n, edits, heading);
    hide HunkHeader, HunkStart, NewSide;
  }

  lemma HeaderYields(p: Option<string>, next: nat, o: nat, n: nat, edits: seq<Edit>, heading: string)
    requires o > 0 && n > 0
    ensures Yields(p, next, [HunkHeader(o, n, edits, heading)], if NewSide(edits) == [] then n - 1 else n, [])
  {
    hide HunkHeader, ScanLine, NewSide;
    var header := HunkHeader(o, n, edits, heading);
    forall found: seq<Hit>
      ensures ScanAll(Scan(p, next, found), [header]) == Scan(p, if NewSide(edits) == [] then n - 1 else n, found + [])
    {
      HeaderScans(Scan(p, next, found), o, n, edits, heading);
      assert [header] + [] == [header] && found + [] == found;
      ScanCons(Scan(p, next, found), header, []);
    }
  }

  lemma HunkYields(p: Option<string>, path: string, edits: seq<Edit>, heading: string, o: nat, n: nat, next: nat)
    returns (last: nat)
    requires path != "" && Fits(p, path, EditTexts(edits)) && o > 0 && n > 0
    ensures Yields(p, next, PrintHunk(o, n, edits, heading), last, EditHits(path, edits, n))
    ensures last == (if NewSide(edits) == [] then n - 1 else n) + |NewSide(edits)|
  {
    hide HunkHeader, EditLines, EditHits, NewSide, EditTexts, Fits, Yields;
    var start := if NewSide(edits) == [] then n - 1 else n;
    HeaderYields(p, next, o, n, edits, heading);
    EditsYield(p, path, edits, start);
    if NewSide(edits) == [] {
      NoNewSideNoHits(path, edits, start, n);
    }
    last := start + |NewSide(edits)|;
    YieldsBoth(p, next, [HunkHeader(o, n, edits, heading)], start, [],
               EditLines(edits), last, EditHits(path, edits, n));
    assert [] + EditHits(path, edits, n) == EditHits(path, edits, n);
  }

  lemma {:induction false} ScriptYields(p: Option<string>, path: string, script: seq<Segment>, o: nat, n: nat,
                                        next: nat)
    returns (last: nat)
    requires path != "" && Fits(p, path, AddedTexts(script)) && o > 0 && n > 0
    ensures Yields(p, next, PrintScript(script, o, n), last, Inserted(path, script, n))
    decreases |script|
  {
    hide PrintHunk, EditHits, NewSide, OldSide, EditTexts, AddedTexts, Fits, Yields;
    last := next;
    if script == [] {
      YieldsNothing(p, next);
    } else {
      FitsScript(p, path, script);
      match script[0]
      case Same(lines) =>
        last := ScriptYields(p, path, script[1..], o + |lines|, n + |lines|, next);
      case Change(edits, heading) =>
        var o', n' := o + |OldSide(edits)|, n + |NewSide(edits)|;
        var mid := HunkYields(p, path, edits, heading, o, n, next);
        last := ScriptYields(p, path, script[1..], o', n', mid);
        YieldsBoth(p, next, PrintHunk(o, n, edits, heading), mid, EditHits(path, edits, n),
                   PrintScript(script[1..], o', n'), last, Inserted(path, script[1..], n'));
    }
  }

  lemma {:induction false} HeadersScan(st: Scan, headers: seq<string>) returns (last: nat)
    requires st.Scan?
    requires forall k :: 0 <= k < |headers| ==> !("+" <= headers[k]) && !("@@" <= headers[k])
    ensures ScanAll(st, headers) == st.(next := last)
    decreases |headers|
  {
    last := st.next;
    if headers != [] {
      assert !("+++ " <= headers[0]);
      last := HeadersScan(ScanLine(st, headers[0]), headers[1..]);
    }
  }

  lemma PathLineScans(st: Scan, path: string)
    requires st.Scan?
    ensures var next := ScanLine(st, PathLine(path));
            next.Scan? && next == st.(path := next.path) && (Legible(path) ==> next.path == Some(path))
  {
    if Legible(path) {
      PathLineParses(path);
    }
  }

  lemma FileScans(st: Scan, f: FileDiff) returns (end: Scan)
    requires st.Scan? && WellFormed(f) && Plain(AddedTexts(f.script))
    requires AddedTexts(f.script) == [] || Legible(f.path)
    ensures end.Scan? && end == ScanAll(st, PrintFile(f)) && end.found == st.found + Inserted(f.path, f.script, 1)
  {
    var next := HeadersScan(st, f.headers);
    PathLineScans(st.(next := next), f.path);
    var named := ScanLine(st.(next := next), PathLine(f.path));
    var last := ScriptYields(named.path, f.path, f.script, 1, 1, next);
    hide PrintScript, Inserted, ScanLine, PathLine, Plain, WellFormed;
    var hunks := PrintScript(f.script, 1, 1);
    end := Scan(named.path, last, st.found + Inserted(f.path, f.script, 1));
    ScanCons(st.(next := next), PathLine(f.path), hunks);
    ScanConcat(st, f.headers, [PathLine(f.path)] + hunks);
  }

  lemma {:induction false} FilesScan(st: Scan, files: seq<FileDiff>) returns (end: Scan)
    requires st.Scan? && AllWellFormed(files) && Clean(files) && Named(files)
    ensures end == ScanAll(st, Print(files)) && Result(end) == Some(st.found + InsertedAll(files))
    decreases |files|
  {
    hide PrintFile, Inserted, Plain, WellFormed, ScanLine, Legible;
    end := st;
    if files == [] {
      assert st.found + [] == st.found;
    } else {
      var f := files[0];
      assert WellFormed(f);
      PlainConcat(AddedTexts(f.script), AllAddedTexts(files[1..]));
      var mid := FileScans(st, f);
      ScanConcat(st, PrintFile(f), Print(files[1..]));
      end := FilesScan(mid, files[1..]);
      Regroup(st.found, Inserted(f.path, f.script, 1), InsertedAll(files[1..]));
    }
  }

  // ----------------------------------------------------------- what can be reported

  /** A reported path is legible, a text does not start like a header, and is broken only if a scanned line is. */
  predicate Told(h: Hit, whole: bool) {
    Legible(h.path) && !("++ " <= h.text) && (whole ==> OneLine(h.text))
  }

  /** The scanner's path is empty or legible. */
  predicate PathTold(p: Option<string>) {
    p.Some? && p.value != "" ==> Legible(p.value)
  }

  predicate AllTold(st: Scan, whole: bool) {
    st.Scan? ==> PathTold(st.path) && forall h :: h in st.found ==> Told(h, whole)
  }

  lemma HeaderPathTold(raw: string)
    requires |raw| >= 4
    ensures PathTold(HeaderPath(raw))
  {
    StripTrims(raw[4..]);
  }

  lemma LineTells(st: Scan, line: string, whole: bool)
    requires st.Scan? && AllTold(st, whole) && (whole ==> OneLine(line))
    ensures AllTold(ScanLine(st, line), whole)
  {
    if "+" <= line && "++ " <= line[1..] {
      assert line == "+" + line[1..] && "+++ " == "+" + "++ ";
    }
    if "+++ " <= line {
      HeaderPathTold(line);
    }
    hide HeaderPath, HunkStart, Legible;
  }

  lemma {:induction false} ScanTells(st: Scan, lines: seq<string>, whole: bool)
    requires st.Scan? && AllTold(st, whole)
    requires whole ==> forall k :: 0 <= k < |lines| ==> OneLine(lines[k])
    ensures AllTold(ScanAll(st, lines), whole)
    decreases |lines|
  {
    hide ScanLine, AllTold;
    if lines != [] {
      LineTells(st, lines[0], whole);
      var next := ScanLine(st, lines[0]);
      if next.Scan? {
        ScanTells(next, lines[1..], whole);
      } else {
        CrashStays(lines[1..]);
        CrashTells(whole);
      }
    }
  }

  lemma CrashTells(whole: bool)
    ensures AllTold(Crash, whole)
  {
  }

  lemma InsertedTextsTold(files: seq<FileDiff>, whole: bool)
    requires forall h :: h in InsertedAll(files) ==> Told(h, whole)
    ensures Clean(files) && (whole ==> Unbroken(files))
  {
    AllInsertedAreAddedTexts(files);
    var hits := InsertedAll(files);
    forall t | t in AllAddedTexts(files)
      ensures !("++ " <= t) && (whole ==> OneLine(t))
    {
      var k :| 0 <= k < |hits| && Texts(hits)[k] == t;
      assert hits[k] in hits;
    }
  }

  lemma {:induction false} EditHitsHavePath(path: string, edits: seq<Edit>, n: nat)
    ensures forall h :: h in EditHits(path, edits, n) ==> h.path == path
    decreases |edits|
  {
    if edits != [] {
      EditHitsHavePath(path, edits[1..], if edits[0].Keep? || edits[0].Add? then n + 1 else n);
    }
  }

  lemma {:induction false} InsertedHavePath(path: string, script: seq<Segment>, n: nat)
    ensures forall h :: h in Inserted(path, script, n) ==> h.path == path
    decreases |script|
  {
    hide EditHits, NewSide;
    if script == [] {
    } else if script[0].Same? {
      InsertedHavePath(path, script[1..], n + |script[0].lines|);
    } else {
      EditHitsHavePath(path, script[0].edits, n);
      InsertedHavePath(path, script[1..], n + |NewSide(script[0].edits)|);
    }
  }

  lemma {:induction false} InsertedPathsTold(files: seq<FileDiff>)
    requires forall h :: h in InsertedAll(files) ==> Legible(h.path)
    ensures Named(files)
  {
    hide Inserted, Legible, AddedTexts;
    if files != [] {
      var f := files[0];
      var hits := Inserted(f.path, f.script, 1);
      assert forall h :: h in InsertedAll(files[1..]) ==> h in InsertedAll(files);
      InsertedPathsTold(files[1..]);
      InsertedAreAddedTexts(f.path, f.script, 1);
      InsertedHavePath(f.path, f.script, 1);
      if AddedTexts(f.script) != [] {
        assert hits[0] in hits && hits[0] in InsertedAll(files);
      }
    }
  }

  /**
    For every list of files and hunks, scanning the printed diff gives exactly
    the inserted lines, in order, under the right path and with their numbers
    in the new file, if and only if no inserted text starts with "++ " and no
    file with an insertion has a path that ends in whitespace.
  */
  lemma ScanInvertsPrintIff(files: seq<FileDiff>)
    requires AllWellFormed(files)
    ensures Result(ScanAll(START, Print(files))) == Some(InsertedAll(files)) <==> Clean(files) && Named(files)
  {
    if Clean(files) && Named(files) {
      var end := FilesScan(START, files);
      assert [] + InsertedAll(files) == InsertedAll(files);
    }
    ScanTells(START, Print(files), false);
    if Result(ScanAll(START, Print(files))) == Some(InsertedAll(files)) {
      InsertedTextsTold(files, false);
      InsertedPathsTold(files);
    }
  }

  // ------------------------------------------------------------- the text of the diff

  /** No inserted text has a break inside. */
  predicate Unbroken(files: seq<FileDiff>) {
    forall t :: t in AllAddedTexts(files) ==> OneLine(t)
  }

  predicate FramedEdits(edits: seq<Edit>) {
    forall k :: 0 <= k < |edits| && (edits[k].Keep? || edits[k].Drop?) ==> OneLine(edits[k].text)
  }

  predicate FramedScript(script: seq<Segment>) {
    forall k :: 0 <= k < |script| && script[k].Change? ==> OneLine(script[k].heading) && FramedEdits(script[k].edits)
  }

  /** Nothing that is printed around the inserted texts has a break inside. */
  predicate Framed(f: FileDiff) {
    OneLine(f.path) && (forall k :: 0 <= k < |f.headers| ==> OneLine(f.headers[k])) && FramedScript(f.script)
  }

  predicate AllFramed(files: seq<FileDiff>) {
    forall k :: 0 <= k < |files| ==> Framed(files[k])
  }

  predicate OneLines(lines: seq<string>) {
    forall k :: 0 <= k < |lines| ==> OneLine(lines[k])
  }

  lemma OneLinesConcat(a: seq<string>, b: seq<string>)
    requires OneLines(a) && OneLines(b)
    ensures OneLines(a + b)
  {
    hide OneLine;
  }

  lemma EditLineIsOneLine(e: Edit)
    requires e.NoNewline? || OneLine(e.text)
    ensures OneLines([EditLine(e)])
  {
  }

  lemma {:induction false} EditLinesAreOneLines(edits: seq<Edit>)
    requires FramedEdits(edits) && forall t :: t in EditTexts(edits) ==> OneLine(t)
    ensures OneLines(EditLines(edits))
  {
    hide OneLine, OneLines, EditLine;
    if edits == [] {
      NoLines();
    } else {
      var rest := edits[1..];
      assert FramedEdits(rest);
      EditLinesAreOneLines(rest);
      assert edits[0].Add? ==> edits[0].text in EditTexts(edits);
      EditLineIsOneLine(edits[0]);
      OneLinesConcat([EditLine(edits[0])], EditLines(rest));
    }
  }

  lemma NoLines()
    ensures OneLines([])
  {
  }

  lemma HunkHeaderIsOneLine(o: nat, n: nat, edits: seq<Edit>, heading: string)
    requires o > 0 && n > 0 && OneLine(heading)
    ensures OneLine(HunkHeader(o, n, edits, heading))
  {
    RangeIsOneLine(o, |OldSide(edits)|);
    RangeIsOneLine(n, |NewSide(edits)|);
  }

  lemma RangeIsOneLine(start: nat, count: nat)
    requires start > 0
    ensures OneLine(Range(start, count))
  {
    hide Decimal;
    var first, second := Decimal(if count == 0 then start - 1 else start), Decimal(count);
    assert forall k :: 0 <= k < |first| ==> IsDigit(first[k]);
    assert forall k :: 0 <= k < |second| ==> IsDigit(second[k]);
  }

  lemma HunkIsOneLines(o: nat, n: nat, edits: seq<Edit>, heading: string)
    requires o > 0 && n > 0 && OneLine(heading) && OneLines(EditLines(edits))
    ensures OneLines(PrintHunk(o, n, edits, heading))
  {
    HunkHeaderIsOneLine(o, n, edits, heading);
    hide HunkHeader, OneLine;
    OneLinesConcat([HunkHeader(o, n, edits, heading)], EditLines(edits));
  }

  lemma {:induction false} ScriptIsOneLines(script: seq<Segment>, o: nat, n: nat)
    requires o > 0 && n > 0 && FramedScript(script) && forall t :: t in AddedTexts(script) ==> OneLine(t)
    ensures OneLines(PrintScript(script, o, n))
    decreases |script|
  {
    hide PrintHunk, EditLines, OneLine, FramedEdits, OneLines;
    NoLines();
    if script != [] {
      assert FramedScript(script[1..]);
      match script[0]
      case Same(lines) =>
        ScriptIsOneLines(script[1..], o + |lines|, n + |lines|);
      case Change(edits, heading) =>
        EditLinesAreOneLines(edits);
        HunkIsOneLines(o, n, edits, heading);
        ScriptIsOneLines(script[1..], o + |OldSide(edits)|, n + |NewSide(edits)|);
        var rest := PrintScript(script[1..], o + |OldSide(edits)|, n + |NewSide(edits)|);
        OneLinesConcat(PrintHunk(o, n, edits, heading), rest);
    }
  }

  lemma FileIsOneLines(f: FileDiff)
    requires Framed(f) && forall t :: t in AddedTexts(f.script) ==> OneLine(t)
    ensures OneLines(PrintFile(f))
  {
    assert OneLine(PathLine(f.path)) && OneLines([PathLine(f.path)]);
    ScriptIsOneLines(f.script, 1, 1);
    hide PrintScript, FramedScript, PathLine, OneLine;
    OneLinesConcat([PathLine(f.path)], PrintScript(f.script, 1, 1));
    OneLinesConcat(f.headers, [PathLine(f.path)] + PrintScript(f.script, 1, 1));
  }

  lemma {:induction false} PrintIsOneLines(files: seq<FileDiff>)
    requires AllFramed(files) && Unbroken(files)
    ensures OneLines(Print(files))
  {
    hide PrintFile, Framed, OneLines, OneLine, AddedTexts;
    NoLines();
    if files != [] {
      assert Framed(files[0]) && AllFramed(files[1..]);
      FileIsOneLines(files[0]);
      PrintIsOneLines(files[1..]);
      OneLinesConcat(PrintFile(files[0]), Print(files[1..]));
    }
  }

  /** What the scan makes of the text of a diff. */
  function TextScan(files: seq<FileDiff>): Option<seq<Hit>> {
    Result(ScanAll(START, SplitLines(JoinLines(Print(files)))))
  }

  /** Whatever is printed, only unbroken texts that do not start like a header are reported, and only legible paths. */
  lemma TextScanTells(files: seq<FileDiff>)
    ensures TextScan(files).Some? ==> forall h :: h in TextScan(files).value ==> Told(h, true)
  {
    SplitLinesAreOneLine(JoinLines(Print(files)));
    ScanTells(START, SplitLines(JoinLines(Print(files))), true);
  }

  /**
    On the text of the diff. An exact scan needs inserted texts without a break
    and without "++ " in front, under paths that do not end in whitespace,
    whatever else is printed. When nothing printed around the inserted texts
    has a break, that is also enough.
  */
  lemma TextScanInvertsPrintIff(files: seq<FileDiff>)
    ensures TextScan(files) == Some(InsertedAll(files)) ==> Clean(files) && Unbroken(files) && Named(files)
    ensures AllWellFormed(files) && AllFramed(files) ==>
              (TextScan(files) == Some(InsertedAll(files)) <==> Clean(files) && Unbroken(files) && Named(files))
  {
    hide Clean, Unbroken, Named, AllFramed, AllWellFormed;
    if TextScan(files) == Some(InsertedAll(files)) {
      TextScanTells(files);
      InsertedTextsTold(files, true);
      InsertedPathsTold(files);
    }
    if AllWellFormed(files) && AllFramed(files) && Clean(files) && Unbroken(files) && Named(files) {
      PrintIsOneLines(files);
      SplitJoined(Print(files));
      ScanInvertsPrintIff(files);
    }
  }

  lemma PlainLineScans(st: Scan, line: string)
    requires st.Scan? && !("+" <= line) && !("@@" <= line)
    ensures Result(ScanAll(st, [line])) == Some(st.found)
  {
    assert [line][1..] == [] && !("+++ " <= line);
  }

  lemma FourScan(st: Scan, p: string, h: string, x: string, y: string, one: Scan, two: Scan)
    requires ScanLine(st, p) == one && ScanAll(one, [h] + [x]) == two
    ensures ScanAll(st, [p] + ([h] + ([x] + [y]))) == ScanAll(two, [y])
  {
    hide ScanLine;
    var lines := [p] + ([h] + ([x] + [y]));
    assert lines[0] == p && lines[1..] == ([h] + [x]) + [y];
    Chain(one, [h] + [x], two, [y], ScanAll(two, [y]));
  }

  lemma FourLines(p: string, h: string, x: string, c: char, y: string)
    requires OneLine(p) && OneLine(h) && OneLine(x) && OneLine(y) && IsBreak(c) && c != '\r'
    ensures SplitLines(p + ['\n'] + (h + ['\n'] + (x + [c] + (y + ['\n'])))) == [p] + ([h] + ([x] + [y]))
  {
    hide SplitLines, LineEnd;
    var third := x + [c] + (y + ['\n']);
    assert y + ['\n'] == y + ['\n'] + "";
    SplitAtBreak(y, '\n', "");
    assert SplitLines("") == [] by {
      SplitJoined([]);
    }
    SplitAtBreak(x, c, y + ['\n']);
    SplitAtBreak(h, '\n', third);
    SplitAtBreak(p, '\n', h + ['\n'] + third);
  }

  /** The diff of one file with one edit. */
  function OneEdit(path: string, e: Edit): seq<FileDiff> {
    [FileDiff(path, [], [Change([e], "")])]
  }

  lemma OneEditPrints(path: string, e: Edit)
    ensures Print(OneEdit(path, e)) == [PathLine(path)] + ([HunkHeader(1, 1, [e], "")] + [EditLine(e)])
  {
    hide HunkHeader, EditLine;
    var f := OneEdit(path, e)[0];
    assert [e][1..] == [] && f.script[1..] == [] && OneEdit(path, e)[1..] == [];
    assert EditLines([e]) == [EditLine(e)] + [];
    assert PrintScript(f.script, 1, 1) == PrintHunk(1, 1, [e], "") + [];
  }

  lemma ThreeJoined(p: string, h: string, x: string)
    ensures JoinLines([p] + ([h] + [x])) == p + ['\n'] + (h + ['\n'] + (x + ['\n']))
  {
    var lines := [p] + ([h] + [x]);
    assert lines[1..] == [h] + [x] && ([h] + [x])[1..] == [x] && [x][1..] == [];
    assert JoinLines([x]) == x + "\n" + "";
    assert JoinLines([x]) == x + ['\n'];
    assert JoinLines([h] + [x]) == h + "\n" + JoinLines([x]);
  }

  /** The scan of a hunk with one edit, under the header of another edit of its kind. */
  lemma OneEditScans(path: string, e: Edit, part: Edit)
    requires path != "" && !Ambiguous(part) && (part.Add? || part.Drop?)
    requires (e.Add? <==> part.Add?) && (e.Drop? <==> part.Drop?)
    ensures OneLine(HunkHeader(1, 1, [e], ""))
    ensures ScanAll(Scan(Some(path), 0, []), [HunkHeader(1, 1, [e], "")] + [EditLine(part)])
         == Scan(Some(path), if part.Add? then 2 else 0, if part.Add? then [Hit(path, 1, part.text)] else [])
  {
    hide EditLine, ScanLine, Range, Plain;
    assert [e][1..] == [] && [part][1..] == [];
    assert |OldSide([e])| == |OldSide([part])| && |NewSide([e])| == |NewSide([part])|;
    HunkHeaderIsOneLine(1, 1, [e], "");
    var header := HunkHeader(1, 1, [e], "");
    assert header == HunkHeader(1, 1, [part], "");
    assert EditLines([part]) == [EditLine(part)] + [];
    AloneIsPlain(part);
    var last := HunkYields(Some(path), path, [part], "", 1, 1, 0);
    hide HunkHeader;
    assert PrintHunk(1, 1, [part], "") == [header] + [EditLine(part)];
    assert NewSide([part]) == if part.Add? then [part.text] else [];
    assert EditHits(path, [part], 1) == if part.Add? then [Hit(path, 1, part.text)] else [];
    assert [] + EditHits(path, [part], 1) == if part.Add? then [Hit(path, 1, part.text)] else [];
  }

  lemma AloneIsPlain(e: Edit)
    requires !Ambiguous(e)
    ensures Plain(EditTexts([e]))
  {
    assert [e][1..] == [];
  }

  lemma BrokenEditLines(path: string, e: Edit, x: string, c: char, rest: string)
    requires OneLine(path) && EditLine(e) == x + [c] + rest
    requires OneLine(HunkHeader(1, 1, [e], "")) && OneLine(x) && OneLine(rest) && IsBreak(c) && c != '\r'
    ensures SplitLines(JoinLines(Print(OneEdit(path, e))))
         == [PathLine(path)] + ([HunkHeader(1, 1, [e], "")] + ([x] + [rest]))
  {
    assert OneLine(PathLine(path));
    hide HunkHeader, EditLine, PathLine, IsBreak, OneLine, SplitLines, Print, JoinLines;
    var header := HunkHeader(1, 1, [e], "");
    OneEditPrints(path, e);
    ThreeJoined(PathLine(path), header, EditLine(e));
    assert x + [c] + rest + ['\n'] == x + [c] + (rest + ['\n']);
    FourLines(PathLine(path), header, x, c, rest);
  }

  /** An edit whose line falls into two: the scanner sees the first part as the edit, and then the rest. */
  lemma BrokenEditScans(path: string, e: Edit, part: Edit, c: char, rest: string)
    requires OneLine(path) && Legible(path)
    requires EditLine(e) == EditLine(part) + [c] + rest && (e.Add? <==> part.Add?) && (e.Drop? <==> part.Drop?)
    requires part.Add? || part.Drop?
    requires OneLine(EditLine(part)) && !Ambiguous(part) && IsBreak(c) && c != '\r' && OneLine(rest)
    ensures var hits := if part.Add? then [Hit(path, 1, part.text)] else [];
            var after := Scan(Some(path), if part.Add? then 2 else 0, hits);
            TextScan(OneEdit(path, e)) == Result(ScanAll(after, [rest]))
  {
    hide HunkHeader, EditLine, ScanLine, PathLine, IsBreak, OneLine, SplitLines, Print, JoinLines, Ambiguous;
    OneEditScans(path, e, part);
    BrokenEditLines(path, e, EditLine(part), c, rest);
    PathLineScans(START, path);
    var after := Scan(Some(path), if part.Add? then 2 else 0, if part.Add? then [Hit(path, 1, part.text)] else []);
    FourScan(START, PathLine(path), HunkHeader(1, 1, [e], ""), EditLine(part), rest, Scan(Some(path), 0, []), after);
  }

  /**
    A break inside an added line hides the rest of it: what follows a form
    feed, say, is taken for a context line and never reported.
  */
  lemma BreakHidesTheRest(path: string, a: string, c: char, b: string)
    requires OneLine(path) && Legible(path)
    requires OneLine(a) && !("++ " <= a) && IsBreak(c) && c != '\r'
    requires OneLine(b) && !("+" <= b) && !("@@" <= b)
    ensures TextScan(OneEdit(path, Add(a + [c] + b))) == Some([Hit(path, 1, a)])
  {
    assert EditLine(Add(a + [c] + b)) == EditLine(Add(a)) + [c] + b;
    BrokenEditScans(path, Add(a + [c] + b), Add(a), c, b);
    PlainLineScans(Scan(Some(path), 2, [Hit(path, 1, a)]), b);
  }

  lemma PlusScans(path: string, b: string)
    requires path != "" && !("++ " <= b)
    ensures Result(ScanAll(Scan(Some(path), 0, []), ["+" + b])) == Some([Hit(path, 0, b)])
  {
    EditScans(Some(path), path, Add(b), 0, []);
    assert EditLine(Add(b)) == "+" + b && [] + [Hit(path, 0, b)] == [Hit(path, 0, b)];
    hide ScanLine;
    assert ["+" + b][1..] == [];
  }

  lemma DropAddsNothing(path: string, e: Edit)
    requires e.Drop?
    ensures AllAddedTexts(OneEdit(path, e)) == []
  {
    var f := OneEdit(path, e)[0];
    assert [e][1..] == [] && f.script[1..] == [] && OneEdit(path, e)[1..] == [];
    assert EditTexts([e]) == [] && AddedTexts(f.script) == [];
  }

  /**
    A break inside a removed line can invent an insertion: what follows it
    after a plus is reported, although the diff inserts nothing.
  */
  lemma BreakReportsTheRemoved(path: string, a: string, c: char, b: string)
    requires OneLine(path) && Legible(path)
    requires OneLine(a) && IsBreak(c) && c != '\r' && OneLine(b) && !("++ " <= b)
    ensures var files := OneEdit(path, Drop(a + [c] + ("+" + b)));
            TextScan(files) == Some([Hit(path, 0, b)]) && AllAddedTexts(files) == []
  {
    hide SplitLines, JoinLines, Print, ScanAll, AllAddedTexts;
    var e := Drop(a + [c] + ("+" + b));
    assert EditLine(e) == EditLine(Drop(a)) + [c] + ("+" + b);
    BrokenEditScans(path, e, Drop(a), c, "+" + b);
    PlusScans(path, b);
    DropAddsNothing(path, e);
  }

  // ------------------------------------------------------------- the new file itself

  /** A hit that names its text in a stretch of the new file that starts at line n. */
  predicate Indexes(h: Hit, path: string, n: nat, lines: seq<string>) {
    h.path == path && n <= h.number < n + |lines| && lines[h.number - n] == h.text
  }

  /** A hit in the first or the second of two pieces is one in the whole. */
  lemma IndexesAcross(h: Hit, path: string, n: nat, front: seq<string>, back: seq<string>)
    requires Indexes(h, path, n, front) || Indexes(h, path, n + |front|, back)
    ensures Indexes(h, path, n, front + back)
  {
  }

  lemma IndexesOne(path: string, n: nat, text: string)
    ensures Indexes(Hit(path, n, text), path, n, [text])
  {
  }

  lemma {:induction false} EditHitsIndex(path: string, edits: seq<Edit>, n: nat, k: nat)
    requires k < |EditHits(path, edits, n)|
    ensures Indexes(EditHits(path, edits, n)[k], path, n, NewSide(edits))
    decreases |edits|
  {
    hide Indexes;
    var rest := edits[1..];
    var shown := if edits[0].Keep? || edits[0].Add? then [edits[0].text] else [];
    if !edits[0].Add? {
      EditHitsIndex(path, rest, n + |shown|, k);
    } else if k == 0 {
      IndexesOne(path, n, edits[0].text);
    } else {
      EditHitsIndex(path, rest, n + 1, k - 1);
    }
    IndexesAcross(EditHits(path, edits, n)[k], path, n, shown, NewSide(rest));
  }

  /** Every reported number indexes the reported text in the new file. */
  lemma {:induction false} NumbersIndexNewFile(path: string, script: seq<Segment>, n: nat, k: nat)
    requires k < |Inserted(path, script, n)|
    ensures Indexes(Inserted(path, script, n)[k], path, n, NewFile(script))
    decreases |script|
  {
    hide Indexes, NewSide, EditHits;
    var rest := script[1..];
    var shown := if script[0].Same? then script[0].lines else NewSide(script[0].edits);
    var here := if script[0].Same? then 0 else |EditHits(path, script[0].edits, n)|;
    if k < here {
      EditHitsIndex(path, script[0].edits, n, k);
    } else {
      NumbersIndexNewFile(path, rest, n + |shown|, k - here);
    }
    IndexesAcross(Inserted(path, script, n)[k], path, n, shown, NewFile(rest));
  }

  function Texts(hits: seq<Hit>): seq<string> {
    seq(|hits|, k requires 0 <= k < |hits| => hits[k].text)
  }

  lemma TextOfOne(h: Hit)
    ensures Texts([h]) == [h.text]
  {
  }

  lemma {:induction false} EditHitsAreTexts(path: string, edits: seq<Edit>, n: nat)
    ensures Texts(EditHits(path, edits, n)) == EditTexts(edits)
    decreases |edits|
  {
    if edits != [] {
      hide Texts;
      var first, rest := edits[0], edits[1..];
      EditHitsAreTexts(path, rest, if first.Keep? || first.Add? then n + 1 else n);
      if first.Add? {
        TextOfOne(Hit(path, n, first.text));
        TextsConcat([Hit(path, n, first.text)], EditHits(path, rest, n + 1));
      }
    }
  }

  /** Nothing is missed and nothing added: the texts are those of the script's insertions. */
  lemma {:induction false} InsertedAreAddedTexts(path: string, script: seq<Segment>, n: nat)
    ensures Texts(Inserted(path, script, n)) == AddedTexts(script)
    decreases |script|
  {
    if script == [] {
      assert Texts([]) == [];
    }
    hide EditHits, EditTexts, NewSide, Texts;
    if script == [] {
    } else if script[0].Same? {
      InsertedAreAddedTexts(path, script[1..], n + |script[0].lines|);
    } else {
      var edits := script[0].edits;
      var n' := n + |NewSide(edits)|;
      EditHitsAreTexts(path, edits, n);
      InsertedAreAddedTexts(path, script[1..], n');
      TextsConcat(EditHits(path, edits, n), Inserted(path, script[1..], n'));
    }
  }

  lemma TextsConcat(a: seq<Hit>, b: seq<Hit>)
    ensures Texts(a + b) == Texts(a) + Texts(b)
  {
  }

  // ------------------------------------------------------------------- the matching

  predicate Matches(text: string, patterns: seq<string>, fold: string -> string) {
    exists k :: 0 <= k < |patterns| && Contains(fold(text), fold(patterns[k]))
  }

  function Matching(lines: seq<Hit>, patterns: seq<string>, fold: string -> string): seq<(string, nat)> {
    if lines == [] then []
    else
      var last := lines[|lines| - 1];
      Matching(lines[..|lines| - 1], patterns, fold)
      + (if Matches(last.text, patterns, fold) then [(last.path, last.number)] else [])
  }

  method MatchingLocations(lines: seq<Hit>, patterns: seq<string>, fold: string -> string)
    returns (hits: seq<(string, nat)>)
    ensures hits == Matching(lines, patterns, fold)
  {
    var folded: seq<string> := [];
    for i := 0 to |patterns|
      invariant |folded| == i && forall k :: 0 <= k < i ==> folded[k] == fold(patterns[k])
    {
      folded := folded + [fold(patterns[i])];
    }
    hits := [];
    for i := 0 to |lines|
      invariant hits == Matching(lines[..i], patterns, fold)
    {
      assert lines[..i + 1][..i] == lines[..i];
      var hay := fold(lines[i].text);
      if exists k :: 0 <= k < |folded| && Contains(hay, folded[k]) {
        hits := hits + [(lines[i].path, lines[i].number)];
      }
    }
    assert lines[..|lines|] == lines;
  }

  /** A text matches when some pattern stands in it, both folded. */
  lemma MatchesIff(text: string, patterns: seq<string>, fold: string -> string)
    ensures Matches(text, patterns, fold) <==> exists p, a, b :: p in patterns && fold(text) == a + fold(p) + b
  {
    if Matches(text, patterns, fold) {
      var k :| 0 <= k < |patterns| && Contains(fold(text), fold(patterns[k]));
      ContainsIff(fold(text), fold(patterns[k]));
    }
    if p, a, b :| p in patterns && fold(text) == a + fold(p) + b {
      ContainsIff(fold(text), fold(p));
    }
  }

  /** A location is reported when some line there matches, and only then. */
  lemma {:induction false} MatchingIs(lines: seq<Hit>, patterns: seq<string>, fold: string -> string, at: (string, nat))
    ensures at in Matching(lines, patterns, fold) <==>
            exists k :: 0 <= k < |lines| && Matches(lines[k].text, patterns, fold)
                        && at == (lines[k].path, lines[k].number)
  {
    if lines != [] {
      var before := lines[..|lines| - 1];
      MatchingIs(before, patterns, fold, at);
      assert forall k :: 0 <= k < |before| ==> before[k] == lines[k];
    }
  }

  lemma MatchingIsEmptyIff(lines: seq<Hit>, patterns: seq<string>, fold: string -> string)
    ensures Matching(lines, patterns, fold) == [] <==>
            forall k :: 0 <= k < |lines| ==> !Matches(lines[k].text, patterns, fold)
  {
    var hits := Matching(lines, patterns, fold);
    if hits != [] {
      MatchingIs(lines, patterns, fold, hits[0]);
    }
    forall k | 0 <= k < |lines| && Matches(lines[k].text, patterns, fold)
      ensures hits != []
    {
      MatchingIs(lines, patterns, fold, (lines[k].path, lines[k].number));
    }
  }

  lemma {:induction false} AllInsertedAreAddedTexts(files: seq<FileDiff>)
    ensures Texts(InsertedAll(files)) == AllAddedTexts(files)
  {
    if files != [] {
      InsertedAreAddedTexts(files[0].path, files[0].script, 1);
      AllInsertedAreAddedTexts(files[1..]);
    }
  }

  /** A kept line of the pattern text occurs in the text, after folding. */
  ghost predicate Denied(text: string, lines: seq<string>, fold: string -> string) {
    exists line :: line in lines && Kept(line) && Contains(fold(text), fold(Strip(line)))
  }

  lemma MatchesIffDenied(text: string, lines: seq<string>, fold: string -> string)
    ensures Matches(text, Patterns(lines), fold) <==> Denied(text, lines, fold)
  {
    if Matches(text, Patterns(lines), fold) {
      var line := MatchIsKept(text, lines, fold);
    }
    if line :| line in lines && Kept(line) && Contains(fold(text), fold(Strip(line))) {
      KeptMatches(text, line, lines, fold);
    }
  }

  /** The hit list of the whole check: None is the ValueError of a bad hunk header. */
  function Reported(files: seq<FileDiff>, raw: string, fold: string -> string): Option<seq<(string, nat)>> {
    match TextScan(files)
    case None => None
    case Some(found) => Some(Matching(found, Patterns(SplitLines(raw)), fold))
  }

  /** An inserted line at that place is denied by a line of the pattern text. */
  ghost predicate DeniedAt(files: seq<FileDiff>, raw: string, fold: string -> string, at: (string, nat)) {
    exists h :: h in InsertedAll(files) && at == (h.path, h.number) && Denied(h.text, SplitLines(raw), fold)
  }

  /** The check reports exactly the places of denied insertions. */
  ghost predicate ReportsDenied(files: seq<FileDiff>, raw: string, fold: string -> string) {
    && Reported(files, raw, fold).Some?
    && forall at :: at in Reported(files, raw, fold).value <==> DeniedAt(files, raw, fold, at)
  }

  /** The check is clean exactly when no insertion is denied. */
  ghost predicate CleanIfNoneDenied(files: seq<FileDiff>, raw: string, fold: string -> string) {
    && Reported(files, raw, fold).Some?
    && (Reported(files, raw, fold).value == [] <==>
        forall t :: t in AllAddedTexts(files) ==> !Denied(t, SplitLines(raw), fold))
  }

  lemma ExactScanReports(files: seq<FileDiff>, raw: string, fold: string -> string)
    requires TextScan(files) == Some(InsertedAll(files))
    ensures ReportsDenied(files, raw, fold)
  {
    hide TextScan, Denied, Matches;
    var hits, lines := InsertedAll(files), SplitLines(raw);
    forall at
      ensures at in Matching(hits, Patterns(lines), fold) <==> DeniedAt(files, raw, fold, at)
    {
      MatchingIs(hits, Patterns(lines), fold, at);
      forall h | h in hits
        ensures Matches(h.text, Patterns(lines), fold) <==> Denied(h.text, lines, fold)
      {
        MatchesIffDenied(h.text, lines, fold);
      }
    }
  }

  /** A place is reported at all exactly when some inserted text is denied. */
  lemma DeniedSomewhereIff(files: seq<FileDiff>, raw: string, fold: string -> string)
    ensures (exists at :: DeniedAt(files, raw, fold, at)) <==>
            exists t :: t in AllAddedTexts(files) && Denied(t, SplitLines(raw), fold)
  {
    hide Denied;
    AllInsertedAreAddedTexts(files);
    var hits := InsertedAll(files);
    if at :| DeniedAt(files, raw, fold, at) {
      var h :| h in hits && at == (h.path, h.number) && Denied(h.text, SplitLines(raw), fold);
      var k :| 0 <= k < |hits| && hits[k] == h;
      assert Texts(hits)[k] == h.text && h.text in AllAddedTexts(files);
    }
    if t :| t in AllAddedTexts(files) && Denied(t, SplitLines(raw), fold) {
      var k :| 0 <= k < |hits| && Texts(hits)[k] == t;
      assert hits[k] in hits;
      assert DeniedAt(files, raw, fold, (hits[k].path, hits[k].number));
    }
  }

  lemma ReportsDeniedIsClean(files: seq<FileDiff>, raw: string, fold: string -> string)
    requires ReportsDenied(files, raw, fold)
    ensures CleanIfNoneDenied(files, raw, fold)
  {
    hide Denied, DeniedAt, Reported;
    DeniedSomewhereIff(files, raw, fold);
    var reported := Reported(files, raw, fold).value;
    if reported != [] {
      assert reported[0] in reported;
    }
  }

  /**
    An exact scan is all the check needs. When nothing printed around the
    inserted texts has a break, it is enough that no inserted text is broken or
    starts with "++ ", and that no file with an insertion has a path that ends
    in whitespace.
  */
  lemma ScanReports(files: seq<FileDiff>, raw: string, fold: string -> string)
    requires AllWellFormed(files) && AllFramed(files) && Clean(files) && Unbroken(files) && Named(files)
    ensures ReportsDenied(files, raw, fold) && CleanIfNoneDenied(files, raw, fold)
  {
    TextScanInvertsPrintIff(files);
    ExactScanReports(files, raw, fold);
    ReportsDeniedIsClean(files, raw, fold);
  }

  // ------------------------------------------------------- one folding, every pattern text

  /** What can be a pattern: one stripped line of at least four characters that is no comment. */
  predicate Literal(p: string) {
    OneLine(p) && Trim(p) && |p| >= 4 && p[0] != '#'
  }

  /** Some line of these at that place contains the literal, after folding. */
  predicate HitAt(hits: seq<Hit>, p: string, fold: string -> string, at: (string, nat)) {
    exists k :: 0 <= k < |hits| && at == (hits[k].path, hits[k].number) && Contains(fold(hits[k].text), fold(p))
  }

  predicate HitBy(texts: seq<string>, p: string, fold: string -> string) {
    exists k :: 0 <= k < |texts| && Contains(fold(texts[k]), fold(p))
  }

  lemma LiteralIsPattern(p: string)
    requires Literal(p)
    ensures Patterns(SplitLines(p)) == [p] && SplitLines(p) == [p]
  {
    StripOfTrim(p);
    assert LineEnd(p) == |p|;
    assert [p][..0] == [];
  }

  lemma PatternIsLiteral(raw: string, p: string)
    requires p in Patterns(SplitLines(raw))
    ensures Literal(p)
  {
    var lines := SplitLines(raw);
    PatternsAre(lines, p);
    SplitLinesAreOneLine(raw);
    var k :| 0 <= k < |lines| && Strip(lines[k]) == p;
    StripTrims(lines[k]);
  }

  /** A place is reported exactly when some pattern hits it there. */
  lemma ReportedBy(hits: seq<Hit>, raw: string, fold: string -> string, at: (string, nat))
    ensures at in Matching(hits, Patterns(SplitLines(raw)), fold) <==>
            exists p :: p in Patterns(SplitLines(raw)) && HitAt(hits, p, fold, at)
  {
    var patterns := Patterns(SplitLines(raw));
    MatchingIs(hits, patterns, fold, at);
    if k, j :| 0 <= k < |hits| && at == (hits[k].path, hits[k].number)
               && 0 <= j < |patterns| && Contains(fold(hits[k].text), fold(patterns[j])) {
      assert HitAt(hits, patterns[j], fold, at) && patterns[j] in patterns;
    }
  }

  lemma DeniedBy(files: seq<FileDiff>, raw: string, fold: string -> string, at: (string, nat))
    ensures DeniedAt(files, raw, fold, at) <==>
            exists p :: p in Patterns(SplitLines(raw)) && HitAt(InsertedAll(files), p, fold, at)
  {
    hide Matches, Denied;
    var hits, lines := InsertedAll(files), SplitLines(raw);
    MatchingIs(hits, Patterns(lines), fold, at);
    ReportedBy(hits, raw, fold, at);
    forall h | h in hits
      ensures Matches(h.text, Patterns(lines), fold) <==> Denied(h.text, lines, fold)
    {
      MatchesIffDenied(h.text, lines, fold);
    }
  }

  /** The scan hits the same places with every literal as the insertions do. */
  ghost predicate SameHits(files: seq<FileDiff>, fold: string -> string) {
    && TextScan(files).Some?
    && forall p, at :: Literal(p) ==>
                         (HitAt(TextScan(files).value, p, fold, at) <==> HitAt(InsertedAll(files), p, fold, at))
  }

  /** The same literals occur in reported as in inserted texts. */
  ghost predicate SameLiterals(files: seq<FileDiff>, fold: string -> string) {
    && TextScan(files).Some?
    && forall p :: Literal(p) ==>
                     (HitBy(Texts(TextScan(files).value), p, fold) <==> HitBy(AllAddedTexts(files), p, fold))
  }

  /**
    For each folding: the check reports exactly the denied places, for every
    pattern text, if and only if the scan does not crash and each literal hits
    the same places in the reported as in the inserted lines.
  */
  lemma ReportsDeniedIff(files: seq<FileDiff>, fold: string -> string)
    ensures (forall raw :: ReportsDenied(files, raw, fold)) <==> SameHits(files, fold)
  {
    hide TextScan, DeniedAt, HitAt, Literal;
    if SameHits(files, fold) {
      forall raw, at
        ensures at in Reported(files, raw, fold).value <==> DeniedAt(files, raw, fold, at)
      {
        ReportedBy(TextScan(files).value, raw, fold, at);
        DeniedBy(files, raw, fold, at);
        forall p | p in Patterns(SplitLines(raw))
          ensures Literal(p)
        {
          PatternIsLiteral(raw, p);
        }
      }
    }
    if forall raw :: ReportsDenied(files, raw, fold) {
      assert ReportsDenied(files, "", fold);
      forall p, at | Literal(p)
        ensures HitAt(TextScan(files).value, p, fold, at) <==> HitAt(InsertedAll(files), p, fold, at)
      {
        LiteralIsPattern(p);
        ReportedBy(TextScan(files).value, p, fold, at);
        DeniedBy(files, p, fold, at);
        assert ReportsDenied(files, p, fold);
      }
    }
  }

  lemma HitByIff(hits: seq<Hit>, p: string, fold: string -> string)
    ensures HitBy(Texts(hits), p, fold) <==> exists at :: HitAt(hits, p, fold, at)
  {
    if k :| 0 <= k < |hits| && Contains(fold(Texts(hits)[k]), fold(p)) {
      assert HitAt(hits, p, fold, (hits[k].path, hits[k].number));
    }
    if at :| HitAt(hits, p, fold, at) {
      var k :| 0 <= k < |hits| && at == (hits[k].path, hits[k].number) && Contains(fold(hits[k].text), fold(p));
      assert Texts(hits)[k] == hits[k].text;
    }
  }

  /** The check is clean exactly when no literal of the pattern text occurs in a reported text. */
  lemma CleanBy(files: seq<FileDiff>, raw: string, fold: string -> string)
    requires TextScan(files).Some?
    ensures Reported(files, raw, fold).value == [] <==>
            forall p :: p in Patterns(SplitLines(raw)) ==> !HitBy(Texts(TextScan(files).value), p, fold)
  {
    hide TextScan, HitAt, HitBy, Matches;
    var found, patterns := TextScan(files).value, Patterns(SplitLines(raw));
    var reported := Matching(found, patterns, fold);
    if reported != [] {
      ReportedBy(found, raw, fold, reported[0]);
      var p :| p in patterns && HitAt(found, p, fold, reported[0]);
      HitByIff(found, p, fold);
    }
    if p :| p in patterns && HitBy(Texts(found), p, fold) {
      HitByIff(found, p, fold);
      var at :| HitAt(found, p, fold, at);
      ReportedBy(found, raw, fold, at);
    }
  }

  lemma NoneDeniedBy(files: seq<FileDiff>, raw: string, fold: string -> string)
    ensures (forall t :: t in AllAddedTexts(files) ==> !Denied(t, SplitLines(raw), fold)) <==>
            forall p :: p in Patterns(SplitLines(raw)) ==> !HitBy(AllAddedTexts(files), p, fold)
  {
    var texts, patterns := AllAddedTexts(files), Patterns(SplitLines(raw));
    hide Denied, Patterns;
    forall t | t in texts
      ensures Denied(t, SplitLines(raw), fold) <==> Matches(t, patterns, fold)
    {
      MatchesIffDenied(t, SplitLines(raw), fold);
    }
    if t :| t in texts && Matches(t, patterns, fold) {
      var j :| 0 <= j < |patterns| && Contains(fold(t), fold(patterns[j]));
      var k :| 0 <= k < |texts| && texts[k] == t;
      assert patterns[j] in patterns && HitBy(texts, patterns[j], fold);
    }
    if p :| p in patterns && HitBy(texts, p, fold) {
      var k :| 0 <= k < |texts| && Contains(fold(texts[k]), fold(p));
      var j :| 0 <= j < |patterns| && patterns[j] == p;
      assert texts[k] in texts && Matches(texts[k], patterns, fold);
    }
  }

  /**
    For each folding: the check is clean exactly when nothing inserted is
    denied, for every pattern text, if and only if the scan does not crash and
    each literal occurs in a reported text exactly when it occurs in an
    inserted one.
  */
  lemma CleanIfNoneDeniedIff(files: seq<FileDiff>, fold: string -> string)
    ensures (forall raw :: CleanIfNoneDenied(files, raw, fold)) <==> SameLiterals(files, fold)
  {
    hide TextScan, HitBy, Literal, Denied, Texts, AllAddedTexts;
    if SameLiterals(files, fold) {
      forall raw
        ensures CleanIfNoneDenied(files, raw, fold)
      {
        CleanBy(files, raw, fold);
        NoneDeniedBy(files, raw, fold);
        forall p | p in Patterns(SplitLines(raw))
          ensures Literal(p)
        {
          PatternIsLiteral(raw, p);
        }
      }
    }
    if forall raw :: CleanIfNoneDenied(files, raw, fold) {
      assert CleanIfNoneDenied(files, "", fold);
      forall p | Literal(p)
        ensures HitBy(Texts(TextScan(files).value), p, fold) <==> HitBy(AllAddedTexts(files), p, fold)
      {
        LiteralIsPattern(p);
        CleanBy(files, p, fold);
        NoneDeniedBy(files, p, fold);
        assert CleanIfNoneDenied(files, p, fold);
      }
    }
  }

  // ---------------------------------------------------------------- inputs, end to end

  lemma OneAdded(path: string, text: string)
    ensures AllAddedTexts(OneEdit(path, Add(text))) == [text]
  {
    var e := Add(text);
    var f := OneEdit(path, e)[0];
    assert [e][1..] == [] && f.script[1..] == [] && OneEdit(path, e)[1..] == [];
    assert EditTexts([e]) == [text] && AddedTexts(f.script) == [text];
  }

  lemma OneHitBy(text: string, p: string, fold: string -> string)
    ensures HitBy([text], p, fold) <==> Contains(fold(text), fold(p))
  {
    assert Contains(fold(text), fold(p)) ==> [text][0] == text && HitBy([text], p, fold);
  }

  /** A denied insertion passes as clean when the literal sits behind a break. */
  lemma LiteralBehindBreakIsMissed(path: string, a: string, c: char, b: string, p: string, fold: string -> string)
    requires OneLine(path) && Legible(path) && OneLine(a) && !("++ " <= a) && IsBreak(c) && c != '\r'
    requires OneLine(b) && !("+" <= b) && !("@@" <= b)
    requires Literal(p) && Contains(fold(a + [c] + b), fold(p)) && !Contains(fold(a), fold(p))
    ensures !CleanIfNoneDenied(OneEdit(path, Add(a + [c] + b)), p, fold)
  {
    var files := OneEdit(path, Add(a + [c] + b));
    BreakHidesTheRest(path, a, c, b);
    OneAdded(path, a + [c] + b);
    hide TextScan, AllAddedTexts, HitBy, Contains, Denied, Literal, IsBreak, OneLine;
    TextOfOne(Hit(path, 1, a));
    OneHitBy(a, p, fold);
    OneHitBy(a + [c] + b, p, fold);
    LiteralIsPattern(p);
    CleanBy(files, p, fold);
    NoneDeniedBy(files, p, fold);
  }

  /** The folding that changes nothing. */
  function Unfolded(t: string): string {
    t
  }

  lemma LiteralBeforeBreak(a: string, c: char, p: string)
    requires Literal(p) && IsBreak(c)
    ensures Contains(a + [c], p) <==> Contains(a, p)
  {
    if k :| 0 <= k <= |a + [c]| && p <= (a + [c])[k..] {
      assert p[|p| - 1] == (a + [c])[k + |p| - 1] && !IsBreak(p[|p| - 1]);
      assert p <= a[k..];
    }
    if k :| 0 <= k <= |a| && p <= a[k..] {
      assert p <= (a + [c])[k..];
    }
  }

  /** The other way: a break at the end of an inserted line does no harm, so not every broken text is missed. */
  lemma TrailingBreakIsHarmless(path: string, a: string, c: char)
    requires OneLine(path) && Legible(path) && OneLine(a) && !("++ " <= a) && IsBreak(c) && c != '\r'
    ensures var files := OneEdit(path, Add(a + [c]));
            !Unbroken(files) && forall raw :: CleanIfNoneDenied(files, raw, Unfolded)
  {
    var files := OneEdit(path, Add(a + [c]));
    assert a + [c] + "" == a + [c];
    BreakHidesTheRest(path, a, c, "");
    OneAdded(path, a + [c]);
    assert (a + [c])[|a|] == c && a + [c] in AllAddedTexts(files);
    hide TextScan, AllAddedTexts, HitBy, Contains, Literal;
    TextOfOne(Hit(path, 1, a));
    forall p | Literal(p)
      ensures HitBy([a], p, Unfolded) <==> HitBy([a + [c]], p, Unfolded)
    {
      OneHitBy(a, p, Unfolded);
      OneHitBy(a + [c], p, Unfolded);
      LiteralBeforeBreak(a, c, p);
    }
    assert SameLiterals(files, Unfolded);
    CleanIfNoneDeniedIff(files, Unfolded);
  }

  lemma BlankPathScans(st: Scan)
    requires st.Scan?
    ensures ScanLine(st, PathLine(" ")) == st.(path := Some(""))
  {
    var line := PathLine(" ");
    assert line[4..] == "" + "b/" + " \t";
    StripPadded("", "b/", " \t");
    hide Strip;
    assert Strip(line[4..]) == "b/" && "b/"[2..] == "";
    assert HeaderPath(line) == Some("");
    assert "+++ " <= line;
  }

  lemma NamelessAddScans(n: nat, a: string)
    requires !("++ " <= a)
    ensures ScanLine(Scan(Some(""), n, []), EditLine(Add(a))) == Scan(Some(""), n + 1, [])
  {
    EditLineTests(Add(a));
  }

  lemma BlankNameIsFramed(a: string)
    requires OneLine(a) && !("++ " <= a)
    ensures var files := OneEdit(" ", Add(a));
            AllWellFormed(files) && AllFramed(files) && Clean(files) && Unbroken(files) && AllAddedTexts(files) == [a]
  {
    OneAdded(" ", a);
  }

  /**
    The insertions of a file whose name is one blank are not reported at all,
    although nothing else is wrong with them.
  */
  lemma BlankNameHidesInsertions(a: string)
    requires OneLine(a) && !("++ " <= a)
    ensures var files := OneEdit(" ", Add(a));
            && AllWellFormed(files) && AllFramed(files) && Clean(files) && Unbroken(files)
            && AllAddedTexts(files) == [a] && TextScan(files) == Some([])
  {
    var e := Add(a);
    var files, header := OneEdit(" ", e), HunkHeader(1, 1, [e], "");
    BlankNameIsFramed(a);
    PrintIsOneLines(files);
    SplitJoined(Print(files));
    OneEditPrints(" ", e);
    BlankPathScans(START);
    var named := Scan(Some(""), 0, []);
    assert NewSide([e]) == [a] by {
      assert [e][1..] == [];
    }
    HeaderScans(named, 1, 1, [e], "");
    NamelessAddScans(1, a);
    hide Print, JoinLines, SplitLines, ScanLine, HunkHeader, EditLine, PathLine;
    hide AllFramed, AllWellFormed, Unbroken, Clean;
    ScanCons(START, PathLine(" "), [header] + [EditLine(e)]);
    ScanCons(named, header, [EditLine(e)]);
    ScanCons(Scan(Some(""), 1, []), EditLine(e), []);
    assert [EditLine(e)] + [] == [EditLine(e)];
  }

  /** So a denied insertion of such a file passes as clean. */
  lemma BlankNameHidesDenied(a: string, p: string, fold: string -> string)
    requires OneLine(a) && !("++ " <= a) && Literal(p) && Contains(fold(a), fold(p))
    ensures !CleanIfNoneDenied(OneEdit(" ", Add(a)), p, fold)
  {
    var files := OneEdit(" ", Add(a));
    BlankNameHidesInsertions(a);
    hide TextScan, AllAddedTexts, Contains, Denied, Literal, OneLine;
    OneHitBy(a, p, fold);
    LiteralIsPattern(p);
    CleanBy(files, p, fold);
    NoneDeniedBy(files, p, fold);
  }

  lemma MatchIsKept(text: string, lines: seq<string>, fold: string -> string) returns (line: string)
    requires Matches(text, Patterns(lines), fold)
    ensures line in lines && Kept(line) && Contains(fold(text), fold(Strip(line)))
  {
    var patterns := Patterns(lines);
    var i :| 0 <= i < |patterns| && Contains(fold(text), fold(patterns[i]));
    PatternsAre(lines, patterns[i]);
    assert patterns[i] in patterns;
    var j :| 0 <= j < |lines| && Strip(lines[j]) == patterns[i];
    line := lines[j];
  }

  lemma KeptMatches(text: string, line: string, lines: seq<string>, fold: string -> string)
    requires line in lines && Kept(line) && Contains(fold(text), fold(Strip(line)))
    ensures Matches(text, Patterns(lines), fold)
  {
    PatternsAre(lines, Strip(line));
    var patterns := Patterns(lines);
    var j :| 0 <= j < |lines| && lines[j] == line;
    assert Strip(line) in patterns;
    var i :| 0 <= i < |patterns| && patterns[i] == Strip(line);
  }
}
