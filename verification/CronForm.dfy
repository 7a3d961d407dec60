/** The cron builder of the backup dialog: a simple schedule is rebuilt from its own numbers. */
module CronForm {
  import opened Wrappers
  import opened Text

  // ---------------------------------------------------------------------- builder

  predicate SingleNumber(value: string, lo: nat, hi: nat) {
    IsNumber(value) && |value| <= 2 && lo <= Value(value) <= hi
  }

  /** The fields of a schedule the dialog's selects can show: daily, weekly or monthly at a fixed time. */
  function Rebuilt(fields: seq<string>): Option<seq<string>>
    requires |fields| >= 5
  {
    var minute, hour, dom, month, wd := fields[0], fields[1], fields[2], fields[3], fields[4];
    if month != "*" || !SingleNumber(minute, 0, 59) || !SingleNumber(hour, 0, 23) then None
    else
      var m, h := Decimal(Value(minute)), Decimal(Value(hour));
      if dom == "*" && wd == "*" then Some([m, h, "*", "*", "*"])
      else if dom == "*" && |wd| == 1 && IsNumber(wd) && Value(wd) <= 6 then Some([m, h, "*", "*", Decimal(Value(wd))])
      else if wd == "*" && SingleNumber(dom, 1, 31) then Some([m, h, Decimal(Value(dom)), "*", "*"])
      else None
  }

  /** A schedule that can be shown is printed with single blanks; anything else stays as it was typed. */
  function BuilderSubmitted(cron: string): string {
    var text := Strip(cron);
    var parts := Fields(text);
    if |parts| < 5 || Rebuilt(parts).None? then text else Joined(Rebuilt(parts).value)
  }

  // ---------------------------------------------------------------------- results

  /** The same text, or two ways to write one number. */
  predicate SameField(a: string, b: string) {
    a == b || (IsNumber(a) && IsNumber(b) && Value(a) == Value(b))
  }

  lemma PrintedNumber(value: string, lo: nat, hi: nat)
    requires SingleNumber(value, lo, hi) && hi < 100
    ensures var d := Decimal(Value(value)); SingleNumber(d, lo, hi) && Value(d) == Value(value) && IsWord(d) && d != "*"
    ensures Value(value) <= 9 ==> |Decimal(Value(value))| == 1
  {
    ValueOfDecimal(Value(value));
    DecimalLength(Value(value));
    var d := Decimal(Value(value));
    assert forall k :: 0 <= k < |d| ==> IsDigit(d[k]) && !IsSpace(d[k]);
    assert !IsDigit('*');
  }

  lemma RebuiltMeansTheSame(fields: seq<string>)
    requires |fields| >= 5 && Rebuilt(fields).Some?
    ensures var r := Rebuilt(fields).value;
            && |r| == 5 && Rebuilt(r) == Some(r)
            && forall k :: 0 <= k < 5 ==> SameField(fields[k], r[k]) && IsWord(r[k])
  {
    PrintedNumber(fields[0], 0, 59);
    PrintedNumber(fields[1], 0, 23);
    if fields[2] != "*" {
      PrintedNumber(fields[2], 1, 31);
    } else if fields[4] != "*" {
      PrintedNumber(fields[4], 0, 6);
    }
    assert IsWord("*");
  }

  lemma RebuiltIsReadBack(fields: seq<string>)
    requires |fields| >= 5 && Rebuilt(fields).Some?
    ensures var text := Joined(Rebuilt(fields).value);
            Strip(text) == text && Fields(text) == Rebuilt(fields).value
  {
    RebuiltMeansTheSame(fields);
    JoinedIsTrim(Rebuilt(fields).value);
    StripOfTrim(Joined(Rebuilt(fields).value));
    FieldsOfJoined(Rebuilt(fields).value);
  }

  /** Saving what was saved changes nothing, for every string. */
  lemma BuilderIsIdempotent(cron: string)
    ensures BuilderSubmitted(BuilderSubmitted(cron)) == BuilderSubmitted(cron)
  {
    var text := Strip(cron);
    var parts := Fields(text);
    StripTrims(cron);
    StripOfTrim(text);
    if |parts| >= 5 && Rebuilt(parts).Some? {
      RebuiltIsReadBack(parts);
      RebuiltMeansTheSame(parts);
    }
  }

  /**
    The first five fields keep their text or their number. A field after them
    is lost exactly when the schedule is rebuilt.
  */
  lemma BuilderKeepsFields(cron: string)
    requires |Fields(Strip(cron))| >= 5
    ensures var before, after := Fields(Strip(cron)), Fields(Strip(BuilderSubmitted(cron)));
            && |after| >= 5 && (forall k :: 0 <= k < 5 ==> SameField(before[k], after[k]))
            && (|after| == |before| <==> |before| == 5 || Rebuilt(before).None?)
  {
    var parts := Fields(Strip(cron));
    StripTrims(cron);
    StripOfTrim(Strip(cron));
    if Rebuilt(parts).Some? {
      RebuiltIsReadBack(parts);
      RebuiltMeansTheSame(parts);
    }
  }

  // ------------------------------------------------------ which schedules are rebuilt

  /** A number as it may be typed: its digits, or two of them with a leading zero. */
  predicate Spells(text: string, n: nat) {
    text == Decimal(n) || (n < 10 && text == "0" + Decimal(n))
  }

  lemma SpelledIsSingle(text: string, n: nat, lo: nat, hi: nat)
    requires Spells(text, n) && lo <= n <= hi < 100
    ensures SingleNumber(text, lo, hi) && Value(text) == n && text != "*"
    ensures text == Decimal(n) && n < 10 ==> |text| == 1
  {
    ValueOfDecimal(n);
    DecimalLength(n);
    if text != Decimal(n) {
      assert text[..1] == "0" && text[1] == Decimal(n)[0] && Decimal(n) == [Digit(n)];
      assert Value("0") == 0 && "0"[..0] == "";
    }
  }

  lemma SingleIsSpelled(text: string, lo: nat, hi: nat)
    requires SingleNumber(text, lo, hi) && hi < 100
    ensures Spells(text, Value(text))
    ensures |text| == 1 ==> text == Decimal(Value(text))
  {
    if |text| == 1 || text[0] != '0' {
      DecimalOfValue(text);
    } else {
      DecimalOfValue(text[1..]);
      assert text[..1][..0] == "" && text[1..][..0] == "";
      assert Value(text[..1]) == 0 && Value(text) == DigitValue(text[1]) == Value(text[1..]);
      assert text == "0" + text[1..];
    }
  }

  /** The fields say: at this minute and hour, each day, or on one day of the month, or on one day of the week. */
  predicate Shows(fields: seq<string>, minute: nat, hour: nat, day: Option<nat>, weekday: Option<nat>) {
    && |fields| >= 5
    && Spells(fields[0], minute) && minute <= 59
    && Spells(fields[1], hour) && hour <= 23
    && (if day.None? then fields[2] == "*" else 1 <= day.value <= 31 && Spells(fields[2], day.value))
    && fields[3] == "*"
    && (if weekday.None? then fields[4] == "*" else weekday.value <= 6 && fields[4] == Decimal(weekday.value))
    && (day.None? || weekday.None?)
  }

  function Star(n: Option<nat>): string {
    if n.None? then "*" else Decimal(n.value)
  }

  lemma ShownIsRebuilt(fields: seq<string>, minute: nat, hour: nat, day: Option<nat>, weekday: Option<nat>)
    requires Shows(fields, minute, hour, day, weekday)
    ensures Rebuilt(fields) == Some([Decimal(minute), Decimal(hour), Star(day), "*", Star(weekday)])
  {
    SpelledIsSingle(fields[0], minute, 0, 59);
    SpelledIsSingle(fields[1], hour, 0, 23);
    if day.Some? {
      SpelledIsSingle(fields[2], day.value, 1, 31);
    }
    if weekday.Some? {
      SpelledIsSingle(fields[4], weekday.value, 0, 6);
    }
    hide Decimal, Value, Spells;
  }

  lemma RebuiltIsShown(fields: seq<string>) returns (minute: nat, hour: nat, day: Option<nat>, weekday: Option<nat>)
    requires |fields| >= 5 && Rebuilt(fields).Some?
    ensures Shows(fields, minute, hour, day, weekday)
  {
    minute, hour, day, weekday := Value(fields[0]), Value(fields[1]), None, None;
    SingleIsSpelled(fields[0], 0, 59);
    SingleIsSpelled(fields[1], 0, 23);
    if fields[2] != "*" {
      SingleIsSpelled(fields[2], 1, 31);
      day := Some(Value(fields[2]));
    } else if fields[4] != "*" {
      SingleIsSpelled(fields[4], 0, 6);
      weekday := Some(Value(fields[4]));
    }
    hide Decimal, Value, Spells;
  }

  /**
    A schedule is rebuilt exactly when it shows one minute and hour, and at
    most one of a day of the month and a day of the week. These are printed
    without leading zeros; every other text is only stripped.
  */
  lemma BuilderPrintsWhatItShows(cron: string, minute: nat, hour: nat, day: Option<nat>, weekday: Option<nat>)
    ensures Shows(Fields(Strip(cron)), minute, hour, day, weekday) ==>
              BuilderSubmitted(cron) ==
              Decimal(minute) + " " + Decimal(hour) + " " + Star(day) + " * " + Star(weekday)
    ensures (forall m, h, d, w :: !Shows(Fields(Strip(cron)), m, h, d, w)) ==> BuilderSubmitted(cron) == Strip(cron)
  {
    var fields := Fields(Strip(cron));
    if Shows(fields, minute, hour, day, weekday) {
      ShownIsRebuilt(fields, minute, hour, day, weekday);
      var m, h, d, w := Decimal(minute), Decimal(hour), Star(day), Star(weekday);
      JoinedFive(m, h, d, w);
    }
    if |fields| >= 5 && Rebuilt(fields).Some? {
      var m, h, d, w := RebuiltIsShown(fields);
    }
    hide Rebuilt, Shows, Fields, Strip, Joined;
  }

  lemma JoinedFive(m: string, h: string, d: string, w: string)
    ensures Joined([m, h, d, "*", w]) == m + " " + h + " " + d + " * " + w
  {
    var fields := [m, h, d, "*", w];
    assert fields[1..] == [h, d, "*", w] && fields[1..][1..] == [d, "*", w];
    assert [d, "*", w][1..] == ["*", w] && ["*", w][1..] == [w];
    assert Joined([w]) == w && Joined(["*", w]) == "* " + w;
    assert Joined([d, "*", w]) == d + " * " + w;
  }

  // ------------------------------------------------------------------ a lost field

  /** Every day at three, with a sixth field. */
  const SIX := ["0", "3", "*", "*", "*", "x"]

  lemma SixIsRebuilt()
    ensures Rebuilt(SIX) == Some(SIX[..5])
    ensures forall k :: 0 <= k < 6 ==> IsWord(SIX[k])
  {
    assert Decimal(0) == "0" && Decimal(3) == "3";
    assert SIX[..5] == ["0", "3", "*", "*", "*"];
  }

  /** The input that loses its sixth field: "0 3 * * * x" is saved as "0 3 * * *". */
  lemma SixthFieldIsLost()
    ensures BuilderSubmitted(Joined(SIX)) == Joined(SIX[..5])
    ensures Fields(BuilderSubmitted(Joined(SIX))) == SIX[..5]
  {
    SixIsRebuilt();
    hide Rebuilt, Joined, Fields, Strip;
    FieldsOfJoined(SIX);
    JoinedIsTrim(SIX);
    StripOfTrim(Joined(SIX));
    FieldsOfJoined(SIX[..5]);
  }

  /** The saved form is canonical: schedules that can be shown and have the same fields are saved as the same text. */
  lemma EqualSchedulesPrintAlike(a: string, b: string)
    requires var fa, fb := Fields(Strip(a)), Fields(Strip(b));
             && |fa| == |fb| == 5 && Rebuilt(fa).Some? && Rebuilt(fb).Some?
             && forall k :: 0 <= k < 5 ==> SameField(fa[k], fb[k])
    ensures BuilderSubmitted(a) == BuilderSubmitted(b)
  {
  }

  /** A reading of cron fields in which digits stand for their number; lists, ranges and steps may mean anything. */
  ghost predicate ReadsNumbers(reading: (string, nat) -> bool) {
    forall field, v :: IsNumber(field) ==> (reading(field, v) <==> v == Value(field))
  }

  /** Under every such reading the saved schedule fires at the same minute, hour, day, month and weekday. */
  lemma BuilderKeepsMeaning(cron: string, reading: (string, nat) -> bool, k: nat, v: nat)
    requires |Fields(Strip(cron))| == 5 && ReadsNumbers(reading) && k < 5
    ensures |Fields(Strip(BuilderSubmitted(cron)))| == 5
    ensures reading(Fields(Strip(cron))[k], v) <==> reading(Fields(Strip(BuilderSubmitted(cron)))[k], v)
  {
    BuilderKeepsFields(cron);
    assert SameField(Fields(Strip(cron))[k], Fields(Strip(BuilderSubmitted(cron)))[k]);
  }
}
