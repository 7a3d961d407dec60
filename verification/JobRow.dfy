/**
  The Job row with its JSON details: the worker's status update, the failure
  signal of a copy task, and the predicates that read the control keys.
*/
module JobRow {
  import opened Wrappers
  import opened Life
  import T = Text

  const LOG_CAP := 15

  datatype Value = Text(text: string) | Number(number: int) | Flag(flag: bool) | Texts(texts: seq<string>) | Null

  /** Job details: the log lines and every other key. An absent log is an empty one. */
  datatype Details = Details(log: seq<string>, fields: map<string, Value>)

  /** What a caller merges into the details. */
  datatype Extra = Extra(log: Option<seq<string>>, fields: map<string, Value>)

  datatype Row = Row(life: Life, details: Details)

  predicate Empty(extra: Extra) {
    extra.log.None? && extra.fields == map[]
  }

  // ---------------------------------------------------------------- the log

  /** Append a line unless it repeats the last one. */
  function Noted(lines: seq<string>, line: string): (r: seq<string>) {
    if lines == [] || lines[|lines| - 1] != line then lines + [line] else lines
  }

  function NotedAll(lines: seq<string>, news: seq<string>): seq<string> {
    if news == [] then lines
    else Noted(NotedAll(lines, news[..|news| - 1]), news[|news| - 1])
  }

  function Capped(lines: seq<string>): (r: seq<string>)
    ensures |r| <= LOG_CAP
  {
    if |lines| <= LOG_CAP then lines else lines[|lines| - LOG_CAP..]
  }

  /** What a cap keeps is the end: all of a short log, and the last fifteen lines of a long one. */
  lemma CappedKeepsTheLast(lines: seq<string>)
    ensures var r := Capped(lines);
            && |r| == (if |lines| <= 15 then |lines| else 15)
            && forall k :: 0 <= k < |r| ==> r[k] == lines[|lines| - |r| + k]
  {
  }

  function LogAfter(log: seq<string>, news: seq<string>): seq<string> {
    if news == [] then log else Capped(NotedAll(log, news))
  }

  /** Independent of the fold: keep the entries that differ from the entry before them. */
  function Collapsed(xs: seq<string>): seq<string> {
    if |xs| <= 1 then xs
    else Collapsed(xs[..|xs| - 1]) + (if xs[|xs| - 1] == xs[|xs| - 2] then [] else [xs[|xs| - 1]])
  }

  lemma {:induction false} CollapsedLast(xs: seq<string>)
    requires xs != []
    ensures Collapsed(xs) != [] && Collapsed(xs)[|Collapsed(xs)| - 1] == xs[|xs| - 1]
  {
    if |xs| > 1 {
      CollapsedLast(xs[..|xs| - 1]);
    }
  }

  lemma {:induction false} NotedAllIsCollapsed(xs: seq<string>)
    ensures NotedAll([], xs) == Collapsed(xs)
  {
    if |xs| == 1 {
      assert xs[..0] == [];
    } else if |xs| > 1 {
      NotedAllIsCollapsed(xs[..|xs| - 1]);
      CollapsedLast(xs[..|xs| - 1]);
    }
  }

  lemma {:induction false} NotedAllConcat(lines: seq<string>, a: seq<string>, b: seq<string>)
    ensures NotedAll(lines, a + b) == NotedAll(NotedAll(lines, a), b)
  {
    if b == [] {
      assert a + b == a;
    } else {
      var b' := b[..|b| - 1];
      assert (a + b)[..|a + b| - 1] == a + b';
      NotedAllConcat(lines, a, b');
    }
  }

  lemma CappedNoted(lines: seq<string>, line: string)
    ensures Capped(Noted(Capped(lines), line)) == Capped(Noted(lines, line))
  {
    if |lines| > LOG_CAP {
      var kept := lines[|lines| - LOG_CAP..];
      assert Capped(lines) == kept && |kept| == LOG_CAP && Capped(kept) == kept;
      assert kept[LOG_CAP - 1] == lines[|lines| - 1];
      if lines[|lines| - 1] != line {
        assert Noted(kept, line) == kept + [line] && Noted(lines, line) == lines + [line];
        assert (kept + [line])[1..] == (lines + [line])[|lines| + 1 - LOG_CAP..];
      }
    }
  }

  lemma {:induction false} CappedNotedAll(lines: seq<string>, news: seq<string>)
    ensures Capped(NotedAll(Capped(lines), news)) == Capped(NotedAll(lines, news))
  {
    if news != [] {
      var before := news[..|news| - 1];
      var line := news[|news| - 1];
      CappedNotedAll(lines, before);
      CappedNoted(NotedAll(Capped(lines), before), line);
      CappedNoted(NotedAll(lines, before), line);
    }
  }

  function Flat(batches: seq<seq<string>>): seq<string> {
    if batches == [] then [] else Flat(batches[..|batches| - 1]) + batches[|batches| - 1]
  }

  function LogAfterAll(log: seq<string>, batches: seq<seq<string>>): seq<string> {
    if batches == [] then log
    else LogAfter(LogAfterAll(log, batches[..|batches| - 1]), batches[|batches| - 1])
  }

  /** The stored log after any number of waiting updates is the cap of the whole deduplicated history. */
  lemma {:induction false} LogRefinesHistory(log: seq<string>, batches: seq<seq<string>>)
    ensures LogAfterAll(log, batches) == if Flat(batches) == [] then log else Capped(NotedAll(log, Flat(batches)))
  {
    if batches != [] {
      var before := batches[..|batches| - 1];
      var last := batches[|batches| - 1];
      LogRefinesHistory(log, before);
      if last == [] {
        assert Flat(batches) == Flat(before);
      } else if Flat(before) == [] {
        assert Flat(batches) == last;
      } else {
        CappedNotedAll(NotedAll(log, Flat(before)), last);
        NotedAllConcat(log, Flat(before), last);
      }
    }
  }

  /** From an empty log: the last fifteen of the history with adjacent repeats removed. */
  lemma LogIsLastFifteenDistinct(batches: seq<seq<string>>)
    ensures var log, all := LogAfterAll([], batches), Collapsed(Flat(batches));
            && |log| == (if |all| <= 15 then |all| else 15)
            && log == all[|all| - |log|..]
  {
    LogRefinesHistory([], batches);
    NotedAllIsCollapsed(Flat(batches));
    CappedKeepsTheLast(Collapsed(Flat(batches)));
  }

  /** The line that was just noted is the last one of the log. */
  lemma NotedLineIsLast(log: seq<string>, line: string)
    ensures var r := Capped(Noted(log, line));
            && r != [] && r[|r| - 1] == line
            && forall k :: 0 <= k < |r| - 1 ==> r[k] in log
  {
    CappedKeepsTheLast(Noted(log, line));
  }

  // ------------------------------------------------------------- the updates

  function Waited(d: Details, extra: Extra): Details {
    Details(LogAfter(d.log, extra.log.GetOr([])), d.fields + extra.fields)
  }

  function Merged(d: Details, extra: Extra): Details {
    Details(extra.log.GetOr(d.log), d.fields + extra.fields)
  }

  /** The worker's status update with its merge of details. */
  function Updated(row: Row, st: Status, extra: Extra, now: nat): Row {
    if row.life.status.Cancelled? then row
    else if Terminal(row.life.status) && row.life.finishedAt.Some? && Active(st) then row
    else if st.Pending? && row.life.status.Pending? && !Empty(extra) then
      row.(details := Waited(row.details, extra))
    else Row(Advanced(row.life, st, now), Merged(row.details, extra))
  }

  /** The failure signal: the log line is appended once, and the row is closed as failed. */
  function SignalRow(row: Row, text: string, now: nat): Row {
    if Terminal(row.life.status) then row
    else Row(
           FailedOpen(row.life, now),
           Details(
             Capped(Noted(row.details.log, text)),
             row.details.fields["error" := Text(text)]["current" := Text("failed")]["done" := Flag(true)]))
  }

  /** A cancel or a sweep by the job service. */
  function Marked(row: Row, st: Status, message: string, now: nat): Row {
    var name := Text(StatusName(st));
    var fields := row.details.fields["error" := Text(message)]["current" := name]["status" := name]
                  ["summary" := Text(Prefix(message, 200))]["done" := Flag(true)];
    var flagged :=
      if st.Cancelled? then fields["cancelled" := Flag(true)]["cancel_requested" := Flag(true)] else fields;
    Row(
      row.life.(status := st, finishedAt := Some(now)),
      Details(Capped(row.details.log + [Prefix(message, 240)]), flagged["audit_failed_recorded" := Flag(true)]))
  }

  /** What a cancel request makes of its message. */
  function CancelText(message: string): string {
    var text := Prefix(T.Strip(if message == "" then "Cancelled by user" else message), 240);
    if text == "" then "Cancelled by user" else text
  }

  const PIPELINE_CAP := 40

  /** What a merge brings for the log: one line, or the whole of it. */
  datatype News = One(line: string) | Whole(lines: seq<string>)

  function Piled(lines: seq<string>): (r: seq<string>)
    ensures |r| <= PIPELINE_CAP
  {
    if |lines| <= PIPELINE_CAP then lines else lines[|lines| - PIPELINE_CAP..]
  }

  /**
    The pipeline's own merge: one log line, always appended, or a whole new
    log, under a longer cap. A blank line is no line, and is kept as a key of
    that name.
  */
  function Piped(d: Details, news: News, fields: map<string, Value>): Details {
    match news
    case One("") => Details(d.log, d.fields["log_line" := Text("")] + fields)
    case One(line) => Details(Piled(d.log + [line]), d.fields + fields)
    case Whole(lines) => Details(Piled(lines), d.fields + fields)
  }

  /** The first write of a Move, undo or recover pipeline. */
  function BegunRow(row: Row, line: string, fields: map<string, Value>, now: nat): Row {
    Row(Begun(row.life, now), Piped(row.details, One(line), fields))
  }

  /** Its finish: a terminal row is kept as it is. */
  function FinishedRow(row: Row, st: Status, line: string, fields: map<string, Value>, now: nat): Row {
    if row.life.status.Cancelled? || (Terminal(row.life.status) && row.life.finishedAt.Some?) then row
    else Row(Finished(row.life, st, now), Piped(row.details, One(line), fields))
  }

  function Prefix(s: string, n: nat): string {
    if |s| <= n then s else s[..n]
  }

  function StatusName(st: Status): string {
    match st
    case Pending => "pending"
    case Running => "running"
    case Success => "success"
    case Failed => "failed"
    case Cancelled => "cancelled"
  }

  /** Every status has a name of its own. */
  lemma StatusNamesDiffer(a: Status, b: Status)
    ensures StatusName(a) == StatusName(b) <==> a == b
  {
    var first, other := StatusName(a)[0], StatusName(b)[0];
  }

  /** The merge of details never changes what happens to the status. */
  lemma UpdatedLife(row: Row, st: Status, extra: Extra, now: nat)
    ensures Updated(row, st, extra, now).life == Advanced(row.life, st, now)
  {
  }

  /** An update that is not refused sets exactly the keys it brings. */
  lemma UpdateSetsItsKeys(row: Row, st: Status, extra: Extra, now: nat, key: string)
    ensures var after := Updated(row, st, extra, now).details;
            var refused := row.life.status.Cancelled?
                           || (Terminal(row.life.status) && row.life.finishedAt.Some? && Active(st));
            Field(after, key) == if !refused && key in extra.fields then extra.fields[key] else Field(row.details, key)
  {
  }

  /** Which updates are refused, what the others write, and what they do to the log. */
  lemma UpdateWrites(row: Row, st: Status, extra: Extra, now: nat)
    requires Active(row.life.status)
    ensures var after := Updated(row, st, extra, now);
            && after.life.status == st
            && (Terminal(st) ==> after.life.finishedAt == Some(now))
            && (!(st.Pending? && row.life.status.Pending?) ==> after.details.log == extra.log.GetOr(row.details.log))
            && (st.Pending? && extra.log.Some? && |extra.log.value| == 1 ==>
                  after.details.log != [] && after.details.log[|after.details.log| - 1] == extra.log.value[0])
  {
    if st.Pending? && extra.log.Some? && |extra.log.value| == 1 {
      var line := extra.log.value[0];
      assert extra.log.value == [line] && [line][..0] == [];
      NotedLineIsLast(row.details.log, line);
      assert NotedAll(row.details.log, [line]) == Noted(row.details.log, line);
    }
  }

  /** The failure signal on an open row, with the stored texts written out. */
  lemma SignalWrites(row: Row, text: string, now: nat)
    requires Active(row.life.status)
    ensures var after := SignalRow(row, text, now);
            && after.life == Life(Failed, row.life.startedAt, Some(now))
            && after.details.log != [] && after.details.log[|after.details.log| - 1] == text
            && after.details.fields == row.details.fields +
                 map["error" := Text(text), "current" := Text("failed"), "done" := Flag(true)]
  {
    NotedLineIsLast(row.details.log, text);
  }

  /** A cancel, and a failure set by the job service: the row is closed and the log ends with the message. */
  lemma MarkWrites(row: Row, st: Status, message: string, now: nat)
    ensures var after := Marked(row, st, message, now);
            && after.life == Life(st, row.life.startedAt, Some(now))
            && after.details.log != []
            && after.details.log[|after.details.log| - 1] == (if |message| <= 240 then message else message[..240])
            && (forall k :: 0 <= k < |after.details.log| - 1 ==> after.details.log[k] in row.details.log)
  {
    CappedKeepsTheLast(row.details.log + [Prefix(message, 240)]);
  }

  /** A cancel's message is stripped and cut, and a blank one replaced. */
  lemma CancelTextIs(message: string)
    ensures T.Strip(message) == "" ==> CancelText(message) == "Cancelled by user"
    ensures T.Strip(message) != "" ==>
              CancelText(message) == (var t := T.Strip(message); if |t| <= 240 then t else t[..240])
    ensures 0 < |CancelText(message)| <= 240
  {
    T.StripOfTrim("Cancelled by user");
    hide T.IsSpace;
  }

  /** Its keys, with the stored texts written out. */
  lemma MarkWritesKeys(row: Row, st: Status, message: string, now: nat, key: string)
    requires st in {Failed, Cancelled}
    ensures var name := if st.Cancelled? then "cancelled" else "failed";
            Field(Marked(row, st, message, now).details, key) ==
            match key
            case "error" => Text(message)
            case "current" => Text(name)
            case "status" => Text(name)
            case "summary" => Text(if |message| <= 200 then message else message[..200])
            case "done" => Flag(true)
            case "audit_failed_recorded" => Flag(true)
            case "cancelled" => if st.Cancelled? then Flag(true) else Field(row.details, key)
            case "cancel_requested" => if st.Cancelled? then Flag(true) else Field(row.details, key)
            case _ => Field(row.details, key)
  {
    hide Capped;
  }

  /** The pipeline's log keeps its last forty lines. */
  lemma PipedKeepsTheLast(d: Details, news: News, fields: map<string, Value>)
    ensures var all := if news.Whole? then news.lines else if news.line == "" then d.log else d.log + [news.line];
            var log := Piped(d, news, fields).log;
            && (news == One("") ==> log == d.log)
            && (news != One("") ==>
                  |log| == (if |all| <= 40 then |all| else 40) && log == all[|all| - |log|..])
            && (forall key :: key in fields ==> Field(Piped(d, news, fields), key) == fields[key])
  {
  }

  /** The finish of an open row writes the status it is called with. */
  lemma FinishWrites(row: Row, st: Status, line: string, fields: map<string, Value>, now: nat)
    requires Active(row.life.status)
    ensures var after := FinishedRow(row, st, line, fields, now);
            && after.life == Life(st, row.life.startedAt, Some(now))
            && (line != "" ==> after.details.log != [] && after.details.log[|after.details.log| - 1] == line)
            && (forall key :: key in fields ==> Field(after.details, key) == fields[key])
  {
    PipedKeepsTheLast(row.details, One(line), fields);
  }

  lemma NoteTwice(log: seq<string>, line: string)
    ensures LogAfter(LogAfter(log, [line]), [line]) == LogAfter(log, [line])
  {
    assert [line][..0] == [];
    assert NotedAll(log, [line]) == Noted(log, line);
    var once := LogAfter(log, [line]);
    assert once[|once| - 1] == line;
    assert NotedAll(once, [line]) == Noted(once, line);
  }

  /** Repeating a waiting update changes nothing after the first. */
  lemma RepeatedWaitIsIdempotent(row: Row, line: string, fields: map<string, Value>, now: nat, later: nat)
    requires row.life.status.Pending?
    ensures var extra := Extra(Some([line]), fields);
            var once := Updated(row, Pending, extra, now);
            Updated(once, Pending, extra, later) == once && |once.details.log| <= LOG_CAP
  {
    NoteTwice(row.details.log, line);
    hide NotedAll, Noted;
    var extra := Extra(Some([line]), fields);
    assert !Empty(extra);
    assert (row.details.fields + fields) + fields == row.details.fields + fields;
  }

  // -------------------------------------------------------- the control keys

  const CONTROL_KEYS: set<string> :=
    {"destination_id", "scope", "direct_after", "direct_host", "herder_archive", "user_id"}

  function Field(d: Details, key: string): Value {
    if key in d.fields then d.fields[key] else Null
  }

  function Controls(d: Details): map<string, Value> {
    map key | key in CONTROL_KEYS && key in d.fields :: d.fields[key]
  }

  predicate Uncontrolled(extra: Extra) {
    extra.fields.Keys !! CONTROL_KEYS
  }

  lemma SameControlsSameField(d: Details, e: Details, key: string)
    requires Controls(d) == Controls(e) && key in CONTROL_KEYS
    ensures Field(d, key) == Field(e, key)
  {
    assert key in Controls(d) <==> key in Controls(e);
    if key in Controls(d) {
      assert Controls(d)[key] == Controls(e)[key];
    }
  }

  lemma UpdateKeepsControls(row: Row, st: Status, extra: Extra, now: nat)
    requires Uncontrolled(extra)
    ensures Controls(Updated(row, st, extra, now).details) == Controls(row.details)
  {
  }

  lemma SignalKeepsControls(row: Row, text: string, now: nat)
    ensures Controls(SignalRow(row, text, now).details) == Controls(row.details)
  {
  }

  lemma MarkKeepsControls(row: Row, st: Status, message: string, now: nat)
    ensures Controls(Marked(row, st, message, now).details) == Controls(row.details)
  {
  }

  // ------------------------------------------------------------ the row class

  /** The stored row, changed in place by the functions above. */
  class Job {
    var status: Status
    var startedAt: Option<nat>
    var finishedAt: Option<nat>
    var log: seq<string>
    var fields: map<string, Value>
    const jobType: string

    ghost function Now(): Row
      reads this
    {
      Row(Life(status, startedAt, finishedAt), Details(log, fields))
    }

    constructor (jobType: string, fields: map<string, Value>)
      ensures Now() == Row(FRESH, Details([], fields)) && this.jobType == jobType
    {
      this.jobType := jobType;
      this.fields := fields;
      status, startedAt, finishedAt, log := Pending, None, None, [];
    }

    /** Append new lines, skipping repeats, and keep the last fifteen. */
    method Note(news: seq<string>)
      modifies this`log
      ensures log == LogAfter(old(log), news)
    {
      if |news| > 0 {
        var lines := log;
        for i := 0 to |news|
          invariant lines == NotedAll(log, news[..i])
          invariant log == old(log)
        {
          assert news[..i + 1][..i] == news[..i];
          if |lines| == 0 || lines[|lines| - 1] != news[i] {
            lines := lines + [news[i]];
          }
        }
        assert news[..|news|] == news;
        log := if |lines| <= LOG_CAP then lines else lines[|lines| - LOG_CAP..];
      }
    }

    method UpdateStatus(st: Status, extra: Extra, now: nat)
      modifies this
      ensures Now() == Updated(old(Now()), st, extra, now)
    {
      if status == Cancelled {
        return;
      }
      if (status == Success || status == Failed) && finishedAt.Some? && (st == Running || st == Pending) {
        return;
      }
      var some := extra.log.Some? || extra.fields != map[];
      if st == Pending && status == Pending && some {
        fields := fields + extra.fields;
        if extra.log.Some? {
          Note(extra.log.value);
        }
        return;
      }
      status := st;
      if st == Running && startedAt == None {
        startedAt := Some(now);
      }
      if some {
        fields := fields + extra.fields;
        if extra.log.Some? {
          log := extra.log.value;
        }
      }
      if st == Success || st == Failed || st == Cancelled {
        finishedAt := Some(now);
      }
    }

    /** The copy task died outside its own body. */
    method FailReplicate(text: string, now: nat) returns (failed: bool)
      modifies this
      ensures failed <==> jobType == "backup_replicate" && Active(old(status))
      ensures Now() == if failed then SignalRow(old(Now()), text, now) else old(Now())
      ensures failed ==> status == Failed && finishedAt == Some(now) && log != [] && log[|log| - 1] == text
    {
      NotedLineIsLast(log, text);
      if jobType != "backup_replicate" {
        return false;
      }
      if status == Success || status == Failed || status == Cancelled {
        return false;
      }
      var lines := log;
      if |lines| == 0 || lines[|lines| - 1] != text {
        lines := lines + [text];
      }
      log := if |lines| <= LOG_CAP then lines else lines[|lines| - LOG_CAP..];
      assert log == Capped(Noted(old(log), text));
      hide Capped, Noted;
      fields := fields["error" := Text(text)];
      fields := fields["current" := Text("failed")];
      fields := fields["done" := Flag(true)];
      status := Failed;
      finishedAt := Some(now);
      return true;
    }

    method Begin(line: string, more: map<string, Value>, now: nat)
      modifies this
      ensures Now() == BegunRow(old(Now()), line, more, now)
      ensures status == Running && startedAt == Some(now)
    {
      status := Running;
      startedAt := Some(now);
      AppendPiped(One(line), more);
    }

    method Finish(st: Status, line: string, more: map<string, Value>, now: nat)
      modifies this
      ensures Now() == FinishedRow(old(Now()), st, line, more, now)
      ensures !old(status).Cancelled? && (Active(old(status)) || old(finishedAt).None?) ==>
                status == st && finishedAt == Some(now)
    {
      if status == Cancelled {
        return;
      }
      var alreadyDone := (status == Success || status == Failed) && finishedAt.Some?;
      if !alreadyDone {
        status := st;
        finishedAt := Some(now);
        AppendPiped(One(line), more);
      }
    }

    method AppendPiped(news: News, more: map<string, Value>)
      modifies this`log, this`fields
      ensures Details(log, fields) == Piped(Details(old(log), old(fields)), news, more)
    {
      if news.Whole? {
        log := news.lines;
      } else if news.line == "" {
        fields := fields["log_line" := Text("")];
      } else {
        log := log + [news.line];
      }
      if news.Whole? || news.line != "" {
        log := if |log| <= PIPELINE_CAP then log else log[|log| - PIPELINE_CAP..];
      }
      fields := fields + more;
    }

    /** A user cancel, refused on a terminal row. */
    method Cancel(message: string, now: nat) returns (cancelled: bool)
      modifies this
      ensures cancelled <==> Active(old(status))
      ensures Now() == if cancelled then Marked(old(Now()), Cancelled, CancelText(message), now) else old(Now())
      ensures Now().life == Stopped(old(Now()).life, now)
      ensures cancelled ==> status == Cancelled && finishedAt == Some(now)
      ensures cancelled ==> log != [] && log[|log| - 1] == CancelText(message)
    {
      if status != Pending && status != Running {
        return false;
      }
      CancelTextIs(message);
      hide CancelText;
      MarkTerminal(Cancelled, CancelText(message), now);
      return true;
    }

    /** The write shared by cancels, stops and sweeps. */
    method MarkTerminal(st: Status, message: string, now: nat)
      modifies this
      ensures Now() == Marked(old(Now()), st, message, now)
      ensures status == st && startedAt == old(startedAt) && finishedAt == Some(now)
      ensures log != [] && log[|log| - 1] == (if |message| <= 240 then message else message[..240])
    {
      status := st;
      finishedAt := Some(now);
      fields := fields["error" := Text(message)]["current" := Text(StatusName(st))];
      fields := fields["status" := Text(StatusName(st))]["summary" := Text(Prefix(message, 200))]["done" := Flag(true)];
      if st == Cancelled {
        fields := fields["cancelled" := Flag(true)]["cancel_requested" := Flag(true)];
      }
      fields := fields["audit_failed_recorded" := Flag(true)];
      var lines := log + [Prefix(message, 240)];
      log := if |lines| <= LOG_CAP then lines else lines[|lines| - LOG_CAP..];
    }
  }
}
