/**
  The task bodies themselves, one uninterrupted delivery at a time: the row and
  the lock table are changed in place, and every key taken is given back on the
  way out. Each body is then shown to be a run of the step system.
*/
module Tasks {
  import opened Wrappers
  import opened Life
  import R = JobRow
  import opened ServerLocks
  import opened Workers
  import opened WorkerRuns

  /** What the foreign work of a backup comes to, or the write of its running audit row. */
  datatype Outcome =
    | Returned(ok: bool, error: string, summary: R.Value)
    | Raised(transient: bool, error: string)
    | AuditRaised(transient: bool, error: string)

  /**
    How a Move, undo or recover pipeline ends: by its own finish, or by an
    exception, which is recorded by a finish or, when that fails, by an update.
  */
  datatype Ending = Done(ok: bool, snippet: string) | Broke(error: string, finishFails: bool)

  /**
    What such a pipeline writes at its start, at its end, and for a row found
    running. The summary is the line that a finish makes of its snippet.
  */
  datatype Pipeline = Pipeline(doing: string, line: string, ending: Ending, restarted: string, summary: string)

  /** How a delivery ends for the broker. */
  datatype End = Ended | Retry(wait: nat)

  const SERVER_WAIT := "Waiting for another backup on this server to finish…"
  const SERVER_TIMEOUT := "Timed out waiting for another backup on this server to finish"
  const HOSTS_WAIT := "Waiting for a backup or Move on the source or destination host…"
  const HOSTS_TIMEOUT := "Timed out waiting for a backup or Move on the source or destination host"

  const SERVER_GONE := R.Extra(None, map["error" := R.Text("Server not found")])

  /** What the running update writes: the chosen source, or Null for all, and the time as text. */
  datatype Start = Start(source: R.Value, at: string)

  function Starting(b: Start): R.Extra {
    R.Extra(None, map["current" := R.Text("starting"), "source_filter" := b.source, "started_at" := R.Text(b.at)])
  }

  function Waiting(line: string): R.Extra {
    R.Extra(Some([line]), map["current" := R.Text("waiting_for_server")])
  }

  function Failure(error: string, line: string): R.Extra {
    R.Extra(Some([line]), map["error" := R.Text(error), "current" := R.Text("failed")])
  }

  /** The terminal update. A returned failure keeps its whole text and the summary; a raised one is cut. */
  function BackupEnded(o: Outcome): R.Extra {
    match o
    case Returned(true, _, summary) => R.Extra(None, map["current" := R.Text("completed"), "result_summary" := summary])
    case Returned(false, error, summary) =>
      var extra := Failure(error, "Backup failed: " + R.Prefix(error, 240));
      extra.(fields := extra.fields["result_summary" := summary])
    case _ => Failure(R.Prefix(o.error, 800), "Backup failed: " + R.Prefix(o.error, 240))
  }

  // ---------------------------------------------------------------------- backups

  /** A backup's row after one delivery. */
  function BackupRow(row: R.Row, found: bool, free: bool, retries: nat, b: Start, o: Outcome, cancel: Option<string>,
                     now: nat): R.Row {
    if !found then R.Updated(row, Failed, SERVER_GONE, now)
    else if Terminal(row.life.status) then row
    else if !free then
      if retries >= LOCK_MAX_RETRIES then R.Updated(row, Failed, Failure(SERVER_TIMEOUT, SERVER_TIMEOUT), now)
      else R.Updated(row, Pending, Waiting(SERVER_WAIT), now)
    else
      var running := R.Updated(row, Running, Starting(b), now);
      if cancel.Some? then R.Marked(running, Cancelled, R.CancelText(cancel.value), now)
      else R.Updated(running, if o.Returned? && o.ok then Success else Failed, BackupEnded(o), now)
  }

  /** Its status part. */
  function BackupLife(l: Life, found: bool, free: bool, retries: nat, o: Outcome, cancelled: bool, now: nat): Life {
    if !found then Advanced(l, Failed, now)
    else if Terminal(l.status) then l
    else if !free then Advanced(l, if retries >= LOCK_MAX_RETRIES then Failed else Pending, now)
    else
      var running := Advanced(l, Running, now);
      if cancelled then Stopped(running, now)
      else Advanced(running, if o.Returned? && o.ok then Success else Failed, now)
  }

  lemma BackupRowLife(row: R.Row, found: bool, free: bool, retries: nat, b: Start, o: Outcome, cancel: Option<string>,
                      now: nat)
    ensures BackupRow(row, found, free, retries, b, o, cancel, now).life
         == BackupLife(row.life, found, free, retries, o, cancel.Some?, now)
  {
    hide R.Waited, R.Merged, BackupEnded, Starting, Failure;
  }

  function BackupEnd(l: Life, found: bool, free: bool, retries: nat, o: Outcome, cancelled: bool): End {
    if !found || Terminal(l.status) then Ended
    else if !free then if retries >= LOCK_MAX_RETRIES then Ended else Retry(LOCK_WAIT)
    else if o.Raised? && o.transient && !cancelled then Retry(TRANSIENT_WAIT) else Ended
  }

  /** The last stored line. */
  predicate EndsWith(log: seq<string>, line: string) {
    log != [] && log[|log| - 1] == line
  }

  /** An open row whose host is taken waits twenty seconds for each of 180 retries, and then fails. */
  lemma BackupWaitsOrFails(row: R.Row, retries: nat, b: Start, o: Outcome, cancel: Option<string>, now: nat)
    requires Active(row.life.status)
    ensures var after := BackupRow(row, true, false, retries, b, o, cancel, now);
            var end := BackupEnd(row.life, true, false, retries, o, cancel.Some?);
            if retries < 180 then
              && end == Retry(20) && after.life.status == Pending && after.life.finishedAt == row.life.finishedAt
              && R.Field(after.details, "current") == R.Text("waiting_for_server")
              && EndsWith(after.details.log, "Waiting for another backup on this server to finish…")
            else
              && end == Ended && after.life == Life(Failed, row.life.startedAt, Some(now))
              && R.Field(after.details, "current") == R.Text("failed")
              && R.Field(after.details, "error") ==
                 R.Text("Timed out waiting for another backup on this server to finish")
              && after.details.log == ["Timed out waiting for another backup on this server to finish"]
  {
    var st, extra := if retries < 180 then Pending else Failed,
      if retries < 180 then Waiting(SERVER_WAIT) else Failure(SERVER_TIMEOUT, SERVER_TIMEOUT);
    R.UpdatedLife(row, st, extra, now);
    R.UpdateWrites(row, st, extra, now);
    R.UpdateSetsItsKeys(row, st, extra, now, "current");
    R.UpdateSetsItsKeys(row, st, extra, now, "error");
    WritesOfAnOpenRow(row.life, st, now);
    hide R.Updated;
  }

  /** A missing server fails an open row at once, and a closed row is skipped. */
  lemma BackupEndsAtOnce(row: R.Row, free: bool, retries: nat, b: Start, o: Outcome, cancel: Option<string>, now: nat)
    ensures BackupEnd(row.life, false, free, retries, o, cancel.Some?) == Ended
    ensures var after := BackupRow(row, false, free, retries, b, o, cancel, now);
            Active(row.life.status) ==>
              && after.life == Life(Failed, row.life.startedAt, Some(now))
              && R.Field(after.details, "error") == R.Text("Server not found")
    ensures Terminal(row.life.status) ==>
              && BackupRow(row, true, free, retries, b, o, cancel, now) == row
              && BackupEnd(row.life, true, free, retries, o, cancel.Some?) == Ended
  {
    R.UpdatedLife(row, Failed, SERVER_GONE, now);
    R.UpdateSetsItsKeys(row, Failed, SERVER_GONE, now, "error");
    hide R.Updated;
  }

  /** The text a failure is stored under: whole when it was returned, cut when it was raised. */
  function StoredError(o: Outcome): string {
    if o.Returned? || |o.error| <= 800 then o.error else o.error[..800]
  }

  /**
    A backup that works shows Success exactly when its work returned with
    success, and is retried, after 30 seconds, exactly when that work raised a
    transient error.
  */
  lemma BackupShowsItsOutcome(row: R.Row, retries: nat, b: Start, o: Outcome, now: nat)
    requires Active(row.life.status)
    ensures BackupRow(row, true, true, retries, b, o, None, now).life ==
            Life(if o.Returned? && o.ok then Success else Failed, Some(row.life.startedAt.GetOr(now)), Some(now))
    ensures BackupEnd(row.life, true, true, retries, o, false) ==
            if o.Raised? && o.transient then Retry(30) else Ended
  {
    var running := R.Updated(row, Running, Starting(b), now);
    var st, extra := if o.Returned? && o.ok then Success else Failed, BackupEnded(o);
    R.UpdatedLife(row, Running, Starting(b), now);
    WritesOfAnOpenRow(row.life, Running, now);
    WritesOfAnOpenRow(running.life, st, now);
    R.UpdatedLife(running, st, extra, now);
    hide R.Updated, Advanced, BackupEnded, Starting;
  }

  /** The details it leaves, with the stored texts written out. */
  lemma BackupStoresItsOutcome(row: R.Row, retries: nat, b: Start, o: Outcome, now: nat)
    requires Active(row.life.status)
    ensures var d := BackupRow(row, true, true, retries, b, o, None, now).details;
            && R.Field(d, "source_filter") == b.source && R.Field(d, "started_at") == R.Text(b.at)
            && if o.Returned? && o.ok then
                 R.Field(d, "current") == R.Text("completed") && R.Field(d, "result_summary") == o.summary
               else
                 && R.Field(d, "current") == R.Text("failed") && R.Field(d, "error") == R.Text(StoredError(o))
                 && d.log == ["Backup failed: " + (if |o.error| <= 240 then o.error else o.error[..240])]
                 && (o.Returned? ==> R.Field(d, "result_summary") == o.summary)
  {
    var first, extra := Starting(b), BackupEnded(o);
    var running := R.Updated(row, Running, first, now);
    var st := if o.Returned? && o.ok then Success else Failed;
    R.UpdateWrites(row, Running, first, now);
    R.UpdateWrites(running, st, extra, now);
    BothUpdatesStore(row, first, st, extra, now, "source_filter");
    BothUpdatesStore(row, first, st, extra, now, "started_at");
    BothUpdatesStore(row, first, st, extra, now, "current");
    BothUpdatesStore(row, first, st, extra, now, "error");
    BothUpdatesStore(row, first, st, extra, now, "result_summary");
    CutIsPrefix(o.error, 240);
    CutIsPrefix(o.error, 800);
    hide R.Updated, R.Field, R.Prefix;
  }

  /** A key after the running and the terminal update of an open row. */
  lemma BothUpdatesStore(row: R.Row, first: R.Extra, st: Status, extra: R.Extra, now: nat, key: string)
    requires Active(row.life.status) && Terminal(st)
    ensures R.Field(R.Updated(R.Updated(row, Running, first, now), st, extra, now).details, key) ==
            if key in extra.fields then extra.fields[key]
            else if key in first.fields then first.fields[key]
            else R.Field(row.details, key)
  {
    var running := R.Updated(row, Running, first, now);
    R.UpdateWrites(row, Running, first, now);
    R.UpdateSetsItsKeys(row, Running, first, now, key);
    R.UpdateSetsItsKeys(running, st, extra, now, key);
    hide R.Updated, R.Field;
  }

  lemma CutIsPrefix(s: string, n: nat)
    ensures R.Prefix(s, n) == if |s| <= n then s else s[..n]
  {
  }

  /** A cancel while it works is what the row shows, and the delivery is not retried. */
  lemma CancelledBackupStaysCancelled(row: R.Row, retries: nat, b: Start, o: Outcome, message: string, now: nat)
    requires Active(row.life.status)
    ensures var after := BackupRow(row, true, true, retries, b, o, Some(message), now);
            && after.life.status == Cancelled && after.life.finishedAt == Some(now)
            && R.Field(after.details, "error") == R.Text(R.CancelText(message))
            && EndsWith(after.details.log, R.CancelText(message))
    ensures BackupEnd(row.life, true, true, retries, o, true) == Ended
  {
    var running := R.Updated(row, Running, Starting(b), now);
    var text := R.CancelText(message);
    R.CancelTextIs(message);
    R.MarkWrites(running, Cancelled, text, now);
    R.MarkWritesKeys(running, Cancelled, text, now, "error");
    hide R.Updated, R.Marked, R.CancelText;
  }

  /** The status and the end of a delivery that found its server and an open row. */
  predicate BackupShows(st: Status, end: End, free: bool, retries: nat, o: Outcome, cancelled: bool) {
    if !free then
      if retries < 180 then end == Retry(20) && st == Pending else end == Ended && st == Failed
    else if cancelled then end == Ended && st == Cancelled
    else
      && st == (if o.Returned? && o.ok then Success else Failed)
      && end == (if o.Raised? && o.transient then Retry(30) else Ended)
  }

  lemma BackupStatus(row: R.Row, free: bool, retries: nat, b: Start, o: Outcome, cancel: Option<string>, now: nat)
    requires Active(row.life.status)
    ensures BackupShows(BackupRow(row, true, free, retries, b, o, cancel, now).life.status,
                        BackupEnd(row.life, true, free, retries, o, cancel.Some?), free, retries, o, cancel.Some?)
  {
    hide BackupRow, BackupEnd, EndsWith, R.Field;
    if !free {
      BackupWaitsOrFails(row, retries, b, o, cancel, now);
    } else if cancel.Some? {
      CancelledBackupStaysCancelled(row, retries, b, o, cancel.value, now);
    } else {
      BackupShowsItsOutcome(row, retries, b, o, now);
    }
  }

  /**
    One delivery of a backup, with the cancel of a user while it works. The
    keys in force at the end are those in force before.
  */
  method BackupServer(store: LockStore, job: R.Job, host: Host, holder: nat, retries: nat, found: bool, b: Start,
                      o: Outcome, cancel: Option<string>, now: nat, ttl: nat)
    returns (end: End)
    requires store.Valid()
    modifies store, job
    ensures store.Valid() && InForce(store.locks, now) == old(InForce(store.locks, now))
    ensures var free := old(Free(store.locks, host, now));
            job.Now() == BackupRow(old(job.Now()), found, free, retries, b, o, cancel, now)
    ensures end == BackupEnd(old(job.Now().life), found, old(Free(store.locks, host, now)), retries, o, cancel.Some?)
    ensures found && Active(old(job.status)) ==>
              BackupShows(job.status, end, old(Free(store.locks, host, now)), retries, o, cancel.Some?)
  {
    hide R.Updated, InForce, Released, Failure, BackupEnded, Starting, Waiting, BackupShows, R.Marked, R.CancelText;
    if found && Active(job.status) {
      BackupStatus(job.Now(), Free(store.locks, host, now), retries, b, o, cancel, now);
    }
    if !found {
      job.UpdateStatus(Failed, SERVER_GONE, now);
      return Ended;
    }
    if job.status != Pending && job.status != Running {
      return Ended;
    }
    var token := store.TryAcquire(host, holder, now, ttl);
    if token.None? {
      if retries >= LOCK_MAX_RETRIES {
        job.UpdateStatus(Failed, Failure(SERVER_TIMEOUT, SERVER_TIMEOUT), now);
        return Ended;
      }
      job.UpdateStatus(Pending, Waiting(SERVER_WAIT), now);
      return Retry(LOCK_WAIT);
    }
    ReleaseUndoesAcquire(old(store.locks), host, token.value, now, now + Effective(ttl));
    R.UpdatedLife(job.Now(), Running, Starting(b), now);
    job.UpdateStatus(Running, Starting(b), now);
    if cancel.Some? {
      var _ := job.Cancel(cancel.value, now);
    }
    if job.status == Cancelled {
      var _ := store.Release(host, token.value);
      return Ended;
    }
    if o.Returned? && o.ok {
      job.UpdateStatus(Success, BackupEnded(o), now);
    } else {
      job.UpdateStatus(Failed, BackupEnded(o), now);
    }
    var _ := store.Release(host, token.value);
    return if o.Raised? && o.transient then Retry(TRANSIENT_WAIT) else Ended;
  }

  // ---------------------------------------------------------- Moves, undo, recover

  function FinishFields(st: Status, snippet: string, summary: string): map<string, R.Value> {
    map["current" := R.Null, "status" := R.Text(R.StatusName(st)), "summary" := R.Text(summary),
        "result_snippet" := R.Text(R.Prefix(snippet, 1500)), "done" := R.Flag(true)]
  }

  function FinishLine(st: Status, summary: string): string {
    "[" + R.StatusName(st) + "] " + summary
  }

  function BeginFields(doing: string): map<string, R.Value> {
    map["current" := R.Text(doing), "done" := R.Flag(false)]
  }

  /** The status and the snippet that a finish is called with. */
  function Ends(e: Ending): (Status, string) {
    match e
    case Done(ok, snippet) => (if ok then Success else Failed, snippet)
    case Broke(error, _) => (Failed, R.Prefix(error, 800))
  }

  function PipelineFinished(row: R.Row, st: Status, snippet: string, summary: string, now: nat): R.Row {
    R.FinishedRow(row, st, FinishLine(st, summary), FinishFields(st, snippet, summary), now)
  }

  /** The row at the end of a pipeline that worked. */
  function PipelineEnded(row: R.Row, p: Pipeline, now: nat): R.Row {
    if p.ending.Broke? && p.ending.finishFails then
      R.Updated(row, Failed, Failure(R.Prefix(p.ending.error, 800), R.Prefix(p.ending.error, 240)), now)
    else PipelineFinished(row, Ends(p.ending).0, Ends(p.ending).1, p.summary, now)
  }

  /** The row of a Move, undo or recover after one delivery. */
  function MoveRow(row: R.Row, free: bool, retries: nat, p: Pipeline, cancel: Option<string>, now: nat): R.Row {
    if Terminal(row.life.status) then row
    else if row.life.status.Running? then PipelineFinished(row, Failed, p.restarted, p.summary, now)
    else if !free then
      if retries >= LOCK_MAX_RETRIES then R.Updated(row, Failed, Failure(HOSTS_TIMEOUT, HOSTS_TIMEOUT), now)
      else R.Updated(row, Pending, Waiting(HOSTS_WAIT), now)
    else
      var begun := R.BegunRow(row, p.line, BeginFields(p.doing), now);
      PipelineEnded(if cancel.Some? then R.Marked(begun, Cancelled, R.CancelText(cancel.value), now) else begun, p, now)
  }

  /** Its status part. */
  function MoveLife(l: Life, free: bool, retries: nat, e: Ending, cancelled: bool, now: nat): Life {
    if Terminal(l.status) then l
    else if l.status.Running? then Finished(l, Failed, now)
    else if !free then Advanced(l, if retries >= LOCK_MAX_RETRIES then Failed else Pending, now)
    else
      var begun := if cancelled then Stopped(Begun(l, now), now) else Begun(l, now);
      EndedLife(begun, e, now)
  }

  function EndedLife(l: Life, e: Ending, now: nat): Life {
    if e.Broke? && e.finishFails then Advanced(l, Failed, now)
    else Finished(l, if e.Done? && e.ok then Success else Failed, now)
  }

  lemma MoveRowLife(row: R.Row, free: bool, retries: nat, p: Pipeline, cancel: Option<string>, now: nat)
    ensures MoveRow(row, free, retries, p, cancel, now).life
         == MoveLife(row.life, free, retries, p.ending, cancel.Some?, now)
  {
    hide R.Waited, R.Merged, R.Piped, Failure, R.Prefix;
  }

  function MoveEnd(l: Life, free: bool, retries: nat): End {
    if l.status.Pending? && !free && retries < LOCK_MAX_RETRIES then Retry(LOCK_WAIT) else Ended
  }

  /** A pending row with a host taken waits twenty seconds for each of 180 retries, and then fails. */
  lemma MoveWaitsOrFails(row: R.Row, retries: nat, p: Pipeline, cancel: Option<string>, now: nat)
    requires row.life.status.Pending?
    ensures var after, end := MoveRow(row, false, retries, p, cancel, now), MoveEnd(row.life, false, retries);
            if retries < 180 then
              && end == Retry(20) && after.life == row.life
              && R.Field(after.details, "current") == R.Text("waiting_for_server")
              && EndsWith(after.details.log, "Waiting for a backup or Move on the source or destination host…")
            else
              && end == Ended && after.life == Life(Failed, row.life.startedAt, Some(now))
              && R.Field(after.details, "current") == R.Text("failed")
              && R.Field(after.details, "error") ==
                 R.Text("Timed out waiting for a backup or Move on the source or destination host")
  {
    var st, extra := if retries < 180 then Pending else Failed,
      if retries < 180 then Waiting(HOSTS_WAIT) else Failure(HOSTS_TIMEOUT, HOSTS_TIMEOUT);
    R.UpdatedLife(row, st, extra, now);
    R.UpdateWrites(row, st, extra, now);
    R.UpdateSetsItsKeys(row, st, extra, now, "current");
    R.UpdateSetsItsKeys(row, st, extra, now, "error");
    WritesOfAnOpenRow(row.life, st, now);
    hide R.Updated;
  }

  /** A row found running is failed, with the restart message, and a closed one is skipped. */
  lemma MoveIsNotWorkedAgain(row: R.Row, free: bool, retries: nat, p: Pipeline, cancel: Option<string>, now: nat)
    requires !row.life.status.Pending?
    ensures MoveEnd(row.life, free, retries) == Ended
    ensures var after := MoveRow(row, free, retries, p, cancel, now);
            if row.life.status.Running? then
              && after.life == Life(Failed, row.life.startedAt, Some(now))
              && R.Field(after.details, "result_snippet") ==
                 R.Text(if |p.restarted| <= 1500 then p.restarted else p.restarted[..1500])
              && EndsWith(after.details.log, "[failed] " + p.summary)
            else after == row
  {
    if row.life.status.Running? {
      R.FinishWrites(row, Failed, FinishLine(Failed, p.summary), FinishFields(Failed, p.restarted, p.summary), now);
      hide R.FinishedRow, R.Prefix;
      assert "result_snippet" in FinishFields(Failed, p.restarted, p.summary);
      CutIsPrefix(p.restarted, 1500);
    }
  }

  /** A Move, undo or recover that works shows Success exactly when its pipeline finished with success. */
  lemma MoveShowsItsOutcome(row: R.Row, retries: nat, p: Pipeline, now: nat)
    requires row.life.status.Pending?
    ensures MoveRow(row, true, retries, p, None, now).life ==
            Life(if p.ending.Done? && p.ending.ok then Success else Failed, Some(now), Some(now))
    ensures MoveEnd(row.life, true, retries) == Ended
  {
    MoveRowLife(row, true, retries, p, None, now);
    var begun := Begun(row.life, now);
    WritesOfAnOpenRow(begun, if p.ending.Done? && p.ending.ok then Success else Failed, now);
    hide MoveRow, Finished, Advanced;
  }

  /** The details it leaves, with the stored texts written out. */
  lemma MoveStoresItsOutcome(row: R.Row, retries: nat, p: Pipeline, now: nat)
    requires row.life.status.Pending? && p.ending.Done?
    ensures var d := MoveRow(row, true, retries, p, None, now).details;
            && R.Field(d, "status") == R.Text(if p.ending.ok then "success" else "failed")
            && R.Field(d, "summary") == R.Text(p.summary) && R.Field(d, "done") == R.Flag(true)
            && R.Field(d, "current") == R.Null
            && EndsWith(d.log, (if p.ending.ok then "[success] " else "[failed] ") + p.summary)
  {
    var begun := R.BegunRow(row, p.line, BeginFields(p.doing), now);
    var st := if p.ending.ok then Success else Failed;
    var fields, line := FinishFields(st, p.ending.snippet, p.summary), FinishLine(st, p.summary);
    FinishTexts(st, p.ending.snippet, p.summary);
    R.FinishWrites(begun, st, line, fields, now);
    hide R.FinishedRow, R.BegunRow, R.Prefix, R.Field, FinishFields, FinishLine;
  }

  lemma FinishTexts(st: Status, snippet: string, summary: string)
    requires st in {Success, Failed}
    ensures var f := FinishFields(st, snippet, summary);
            && f.Keys == {"current", "status", "summary", "result_snippet", "done"}
            && f["status"] == R.Text(if st.Success? then "success" else "failed") && f["current"] == R.Null
            && f["summary"] == R.Text(summary) && f["done"] == R.Flag(true)
            && f["result_snippet"] == R.Text(if |snippet| <= 1500 then snippet else snippet[..1500])
    ensures FinishLine(st, summary) == (if st.Success? then "[success] " else "[failed] ") + summary
    ensures FinishLine(st, summary) != ""
  {
    CutIsPrefix(snippet, 1500);
    hide R.Prefix;
  }

  /** What its first write leaves. */
  lemma PipelineStarts(row: R.Row, p: Pipeline, now: nat)
    ensures var begun := R.BegunRow(row, p.line, BeginFields(p.doing), now);
            && begun.life == Life(Running, Some(now), row.life.finishedAt)
            && R.Field(begun.details, "current") == R.Text(p.doing)
            && R.Field(begun.details, "done") == R.Flag(false)
            && (p.line != "" ==> EndsWith(begun.details.log, p.line))
  {
    R.PipedKeepsTheLast(row.details, R.One(p.line), BeginFields(p.doing));
    assert "current" in BeginFields(p.doing) && "done" in BeginFields(p.doing);
    hide R.Piped, R.Field;
  }

  /** An exception of the pipeline is stored cut, by the finish or by the update in its place. */
  lemma MoveStoresItsError(row: R.Row, retries: nat, p: Pipeline, now: nat)
    requires row.life.status.Pending? && p.ending.Broke?
    ensures var d, e := MoveRow(row, true, retries, p, None, now).details, p.ending.error;
            var stored := R.Text(if |e| <= 800 then e else e[..800]);
            if p.ending.finishFails then
              && R.Field(d, "error") == stored && R.Field(d, "current") == R.Text("failed")
              && R.Field(d, "done") == R.Flag(false) && d.log == [if |e| <= 240 then e else e[..240]]
            else R.Field(d, "result_snippet") == stored && R.Field(d, "status") == R.Text("failed")
  {
    var begun, e := R.BegunRow(row, p.line, BeginFields(p.doing), now), p.ending.error;
    var extra := Failure(R.Prefix(e, 800), R.Prefix(e, 240));
    var fields := FinishFields(Failed, R.Prefix(e, 800), p.summary);
    R.UpdateSetsItsKeys(begun, Failed, extra, now, "current");
    R.UpdateSetsItsKeys(begun, Failed, extra, now, "error");
    R.UpdateSetsItsKeys(begun, Failed, extra, now, "done");
    R.UpdateWrites(begun, Failed, extra, now);
    PipelineStarts(row, p, now);
    CutIsPrefix(e, 240);
    R.FinishWrites(begun, Failed, FinishLine(Failed, p.summary), fields, now);
    CutIsPrefix(e, 800);
    CutIsPrefix(R.Prefix(e, 800), 1500);
    hide R.FinishedRow, R.BegunRow, R.Updated, R.Prefix;
    assert "result_snippet" in fields && "status" in fields;
  }

  /** A cancel while it works is what the row shows, whatever the pipeline still writes. */
  lemma CancelledMoveStaysCancelled(row: R.Row, retries: nat, p: Pipeline, message: string, now: nat)
    requires row.life.status.Pending?
    ensures var after := MoveRow(row, true, retries, p, Some(message), now);
            && after.life == Life(Cancelled, Some(now), Some(now))
            && R.Field(after.details, "error") == R.Text(R.CancelText(message))
    ensures MoveEnd(row.life, true, retries) == Ended
  {
    var begun := R.BegunRow(row, p.line, BeginFields(p.doing), now);
    var text := R.CancelText(message);
    R.CancelTextIs(message);
    R.MarkWrites(begun, Cancelled, text, now);
    R.MarkWritesKeys(begun, Cancelled, text, now, "error");
    assert begun.life.startedAt == Some(now);
    hide R.BegunRow, R.Marked, R.CancelText;
  }

  /** The status and the end of a delivery that found a pending row. */
  predicate MoveShows(st: Status, end: End, free: bool, retries: nat, e: Ending, cancelled: bool) {
    if !free then
      if retries < 180 then end == Retry(20) && st == Pending else end == Ended && st == Failed
    else
      && end == Ended
      && st == (if cancelled then Cancelled else if e.Done? && e.ok then Success else Failed)
  }

  lemma MoveStatus(row: R.Row, free: bool, retries: nat, p: Pipeline, cancel: Option<string>, now: nat)
    requires row.life.status.Pending?
    ensures MoveShows(MoveRow(row, free, retries, p, cancel, now).life.status,
                      MoveEnd(row.life, free, retries), free, retries, p.ending, cancel.Some?)
  {
    hide MoveRow, MoveEnd, EndsWith, R.Field;
    if !free {
      MoveWaitsOrFails(row, retries, p, cancel, now);
    } else if cancel.Some? {
      CancelledMoveStaysCancelled(row, retries, p, cancel.value, now);
    } else {
      MoveShowsItsOutcome(row, retries, p, now);
    }
  }

  /**
    One delivery of a Move, an undo or a recover task, with the cancel of a
    user while it works. A row found running is failed, not worked again.
  */
  method MigrateTask(store: LockStore, job: R.Job, a: Host, b: Host, holder: nat, retries: nat, p: Pipeline,
                     cancel: Option<string>, now: nat, ttl: nat)
    returns (end: End)
    requires store.Valid()
    modifies store, job
    ensures store.Valid() && InForce(store.locks, now) == old(InForce(store.locks, now))
    ensures var free := old(Free(store.locks, a, now) && Free(store.locks, b, now));
            && job.Now() == MoveRow(old(job.Now()), free, retries, p, cancel, now)
            && end == MoveEnd(old(job.Now().life), free, retries)
    ensures var free := old(Free(store.locks, a, now) && Free(store.locks, b, now));
            old(job.status).Pending? ==> MoveShows(job.status, end, free, retries, p.ending, cancel.Some?)
  {
    if job.status == Pending {
      MoveStatus(job.Now(), Free(store.locks, a, now) && Free(store.locks, b, now), retries, p, cancel, now);
    }
    hide R.Updated, R.FinishedRow, InForce, DualReleased, BothTaken, Failure, Waiting, FinishFields, BeginFields;
    hide R.Prefix, MoveShows, R.CancelText;
    if job.status != Pending && job.status != Running {
      return Ended;
    }
    if job.status == Running {
      job.Finish(Failed, FinishLine(Failed, p.summary), FinishFields(Failed, p.restarted, p.summary), now);
      return Ended;
    }
    ghost var before := store.locks;
    var tokens := store.TryAcquireDual(a, b, holder, now, ttl);
    if tokens.None? {
      if retries >= LOCK_MAX_RETRIES {
        job.UpdateStatus(Failed, Failure(HOSTS_TIMEOUT, HOSTS_TIMEOUT), now);
        return Ended;
      }
      job.UpdateStatus(Pending, Waiting(HOSTS_WAIT), now);
      return Retry(LOCK_WAIT);
    }
    job.Begin(p.line, BeginFields(p.doing), now);
    if cancel.Some? {
      var _ := job.Cancel(cancel.value, now);
    }
    if p.ending.Broke? && p.ending.finishFails {
      job.UpdateStatus(Failed, Failure(R.Prefix(p.ending.error, 800), R.Prefix(p.ending.error, 240)), now);
    } else {
      var (st, snippet) := Ends(p.ending);
      job.Finish(st, FinishLine(st, p.summary), FinishFields(st, snippet, p.summary), now);
    }
    DualReleaseUndoesAcquire(before, a, tokens.value.0, b, tokens.value.1, now, now + Effective(ttl));
    store.ReleaseDual(a, tokens.value.0, b, tokens.value.1);
    return Ended;
  }

  // ------------------------------------------------------ the bodies as runs of steps

  /** Every action is a step of this job's worker, or its cancel when there is one. */
  predicate OnlyWork(acts: seq<Action>, id: JobId, cancelled: bool) {
    forall k :: 0 <= k < |acts| ==> (acts[k].Work? && acts[k].id == id) || (cancelled && acts[k] == Action.Cancel(id))
  }

  /** The broker's view of a job whose delivery ended that way. */
  predicate EndsAs(before: Job, after: Job, end: End) {
    match end
    case Ended => after.mail.Acked? && after.retries == before.retries
    case Retry(wait) =>
      after.mail.Queued? && after.retries == before.retries + 1 && after.past.waited == before.past.waited + wait
  }

  /** One worker step that leaves the lock table alone. */
  lemma Goes(c: Config, s: State, acts: seq<Action>, base: State, id: JobId, cancelled: bool, job: Job, ch: Choice)
    returns (next: seq<Action>, stepped: Job)
    requires Legal(c, s, acts) && Exec(c, s, acts) == With(base, id, job) && OnlyWork(acts, id, cancelled)
    requires Allowed(job, ch) && !Trying(job)
    requires !job.mail.pc.BackingOff? && (job.mail.pc.Leaving? ==> job.mail.pc.left == 0)
    ensures stepped == Stepped(job, ch, false, base.now)
    ensures Legal(c, s, next) && Exec(c, s, next) == With(base, id, stepped) && OnlyWork(next, id, cancelled)
  {
    next, stepped := Steps(c, s, acts, base, id, job, ch);
  }

  /** From the finally block of a task that holds nothing to the end of its delivery. */
  lemma Quits(c: Config, s: State, acts: seq<Action>, base: State, id: JobId, cancelled: bool, job: Job)
    returns (next: seq<Action>, done: Job)
    requires Legal(c, s, acts) && Exec(c, s, acts) == With(base, id, job) && OnlyWork(acts, id, cancelled)
    requires job.mail.Live? && job.mail.pc.Leaving? && job.mail.pc.left == 0
    ensures Legal(c, s, next) && Exec(c, s, next) == With(base, id, done) && OnlyWork(next, id, cancelled)
    ensures done.life == job.life
    ensures EndsAs(job, done, if job.mail.pc.next.Again? then Retry(TRANSIENT_WAIT) else Ended)
  {
    hide Wanted, GiveBack, Legal, Exec, With, OnlyWork;
    next, done := Goes(c, s, acts, base, id, cancelled, job, Go);
    if job.mail.pc.next.Again? {
      next, done := Goes(c, s, next, base, id, cancelled, done, Go);
    }
  }

  /** One key given back. */
  lemma GivesBack(c: Config, s: State, acts: seq<Action>, base: State, id: JobId, cancelled: bool, job: Job)
    returns (next: seq<Action>, after: State, done: Job)
    requires Legal(c, s, acts) && Exec(c, s, acts) == With(base, id, job) && OnlyWork(acts, id, cancelled)
    requires job.mail.Live? && job.mail.pc.Leaving? && 0 < job.mail.pc.left <= KeyCount(job.task)
    ensures var host, token := NextBack(job.task, job.mail.pc.left), Token(id, job.past.deliveries);
            after == base.(locks := Released(base.locks, host, token))
    ensures done == Left(job)
    ensures Legal(c, s, next) && Exec(c, s, next) == With(after, id, done) && OnlyWork(next, id, cancelled)
  {
    next := Then(c, s, acts, Work(id, Go));
    after := base.(locks := Released(base.locks, NextBack(job.task, job.mail.pc.left), Token(id, job.past.deliveries)));
    done := Left(job);
  }

  /** The cancel of a user. */
  lemma CancelArrives(c: Config, s: State, acts: seq<Action>, base: State, id: JobId, cancelled: bool, job: Job)
    returns (next: seq<Action>, done: Job)
    requires Legal(c, s, acts) && Exec(c, s, acts) == With(base, id, job) && OnlyWork(acts, id, cancelled)
    requires cancelled && Active(job.life.status)
    ensures done == job.(life := Stopped(job.life, base.now))
    ensures Legal(c, s, next) && Exec(c, s, next) == With(base, id, done) && OnlyWork(next, id, cancelled)
  {
    next := Then(c, s, acts, Action.Cancel(id));
    done := job.(life := Stopped(job.life, base.now));
  }

  /** A backup whose audit or work raised, up to the finally block. */
  lemma BackupRaises(c: Config, s: State, acts: seq<Action>, base: State, id: JobId, cancelled: bool,
                job: Job, transient: bool)
    returns (next: seq<Action>, done: Job)
    requires Legal(c, s, acts) && Exec(c, s, acts) == With(base, id, job) && OnlyWork(acts, id, cancelled)
    requires job.task.Backup? && job.mail.Live? && (job.mail.pc.Marked? || job.mail.pc.Working?)
    ensures Legal(c, s, next) && Exec(c, s, next) == With(base, id, done) && OnlyWork(next, id, cancelled)
    ensures SameDelivery(job, done) && done.life == Advanced(job.life, Failed, base.now)
    ensures var again := job.mail.pc.Working? && transient && !job.life.status.Cancelled?;
            done.mail.pc == Leaving(1, if again then Again else Ack)
  {
    assert KeyCount(job.task) == 1;
    hide Wanted, GiveBack, Legal, Exec, With, OnlyWork, Advanced;
    AdvancedKeepsCancel(job.life, Failed, base.now);
    next, done := Goes(c, s, acts, base, id, cancelled, job, Choice.Raised(transient));
    next, done := Goes(c, s, next, base, id, cancelled, done, if job.life.status.Cancelled? then Choice.Stop else Go);
  }

  lemma AdvancedKeepsCancel(l: Life, st: Status, now: nat)
    ensures l.status.Cancelled? ==> Advanced(l, st, now) == l
  {
  }

  /** A backup whose work returned, up to the finally block. */
  lemma BackupRecords(c: Config, s: State, acts: seq<Action>, base: State, id: JobId, cancelled: bool,
                job: Job, ok: bool)
    returns (next: seq<Action>, done: Job)
    requires Legal(c, s, acts) && Exec(c, s, acts) == With(base, id, job) && OnlyWork(acts, id, cancelled)
    requires job.task.Backup? && job.mail.Live? && job.mail.pc.Working?
    ensures Legal(c, s, next) && Exec(c, s, next) == With(base, id, done) && OnlyWork(next, id, cancelled)
    ensures SameDelivery(job, done) && done.life == Advanced(job.life, if ok then Success else Failed, base.now)
    ensures done.mail.pc == Leaving(1, Ack)
  {
    assert KeyCount(job.task) == 1;
    hide Wanted, GiveBack, Legal, Exec, With, OnlyWork, Advanced;
    AdvancedKeepsCancel(job.life, if ok then Success else Failed, base.now);
    next, done := Goes(c, s, acts, base, id, cancelled, job, Choice.Returned(ok));
    next, done := Goes(c, s, next, base, id, cancelled, done, Go);
    if !job.life.status.Cancelled? {
      next, done := Goes(c, s, next, base, id, cancelled, done, Go);
      next, done := Goes(c, s, next, base, id, cancelled, done, Go);
    }
  }

  /** A backup that has its key, up to the finally block. */
  lemma BackupWorks(c: Config, s: State, acts: seq<Action>, base: State, id: JobId, cancelled: bool,
                job: Job, o: Outcome)
    returns (next: seq<Action>, done: Job)
    requires Legal(c, s, acts) && Exec(c, s, acts) == With(base, id, job) && OnlyWork(acts, id, cancelled)
    requires job.task.Backup? && job.mail.Live? && job.mail.pc.Marking? && Active(job.life.status)
    ensures Legal(c, s, next) && Exec(c, s, next) == With(base, id, done) && OnlyWork(next, id, cancelled)
    ensures SameDelivery(job, done)
    ensures done.life == BackupLife(job.life, true, true, job.retries, o, cancelled, base.now)
    ensures done.mail.pc == Leaving(1, if o.Raised? && o.transient && !cancelled then Again else Ack)
  {
    hide Wanted, GiveBack, Legal, Exec, With, OnlyWork;
    next, done := Goes(c, s, acts, base, id, cancelled, job, Go);
    if cancelled {
      next, done := CancelArrives(c, s, next, base, id, cancelled, done);
    }
    if o.AuditRaised? {
      next, done := BackupRaises(c, s, next, base, id, cancelled, done, o.transient);
    } else {
      next, done := Goes(c, s, next, base, id, cancelled, done, Go);
      if o.Raised? {
        next, done := BackupRaises(c, s, next, base, id, cancelled, done, o.transient);
      } else {
        next, done := BackupRecords(c, s, next, base, id, cancelled, done, o.ok);
      }
    }
  }

  /** A task that found a host taken, up to its end. */
  lemma WaitsOrGivesUp(c: Config, s: State, acts: seq<Action>, base: State, id: JobId, cancelled: bool, job: Job)
    returns (next: seq<Action>, done: Job)
    requires Legal(c, s, acts) && Exec(c, s, acts) == With(base, id, job) && OnlyWork(acts, id, cancelled)
    requires job.mail.Live? && job.mail.pc.Busy?
    ensures Legal(c, s, next) && Exec(c, s, next) == With(base, id, done) && OnlyWork(next, id, cancelled)
    ensures done.life == Advanced(job.life, if job.retries >= LOCK_MAX_RETRIES then Failed else Pending, base.now)
    ensures EndsAs(job, done, if job.retries >= LOCK_MAX_RETRIES then Ended else Retry(LOCK_WAIT))
  {
    hide Wanted, GiveBack, Legal, Exec, With, OnlyWork;
    next, done := Goes(c, s, acts, base, id, cancelled, job, Go);
    next, done := Goes(c, s, next, base, id, cancelled, done, Go);
    if job.retries >= LOCK_MAX_RETRIES {
      next, done := Quits(c, s, next, base, id, cancelled, done);
    } else {
      next, done := Goes(c, s, next, base, id, cancelled, done, Go);
    }
  }

  /** A backup that goes for its host, to the end of the delivery. */
  lemma BackupTakes(c: Config, s: State, acts: seq<Action>, base: State, id: JobId, cancelled: bool,
                job: Job, o: Outcome)
    returns (next: seq<Action>, after: State, done: Job)
    requires Legal(c, s, acts) && Exec(c, s, acts) == With(base, id, job) && OnlyWork(acts, id, cancelled)
    requires job.task.Backup? && job.mail.Live? && job.mail.pc == Acquiring(0) && Active(job.life.status)
    ensures Legal(c, s, next) && Exec(c, s, next) == With(after, id, done) && OnlyWork(next, id, cancelled)
    ensures var free := Free(base.locks, job.task.host, base.now);
            && done.life == BackupLife(job.life, true, free, job.retries, o, cancelled, base.now)
            && EndsAs(job, done, BackupEnd(job.life, true, free, job.retries, o, cancelled))
            && InForce(after.locks, base.now) == InForce(base.locks, base.now)
  {
    hide Stepped, InForce, Legal, Exec, With;
    var host, token, until := job.task.host, Token(id, job.past.deliveries), base.now + Effective(c.lockTtl);
    next, after, done := Tries(c, s, acts, base, id, job);
    assert OnlyWork(next, id, cancelled);
    hide OnlyWork;
    TriedAt(job, Free(base.locks, host, base.now), base.now);
    if !Free(base.locks, host, base.now) {
      next, done := WaitsOrGivesUp(c, s, next, after, id, cancelled, done);
    } else {
      next, done := BackupWorks(c, s, next, after, id, cancelled, done, o);
      next, after, done := GivesBack(c, s, next, after, id, cancelled, done);
      ReleaseUndoesAcquire(base.locks, host, token, base.now, until);
      next, done := Quits(c, s, next, after, id, cancelled, done);
    }
  }

  /**
    The body of a backup refines the step system: from the start of a delivery
    there is a run of the worker's own steps, and the cancel if one arrives, with
    the same effect on the row,
    the same end for the broker, and the same keys in force as before.
  */
  lemma BackupServerRefines(c: Config, s: State, id: JobId, found: bool, o: Outcome, cancelled: bool)
    returns (acts: seq<Action>)
    requires id in s.jobs && s.jobs[id].task.Backup? && s.jobs[id].mail.Live? && s.jobs[id].mail.pc.Look?
    ensures Legal(c, s, acts) && OnlyWork(acts, id, cancelled) && id in Exec(c, s, acts).jobs
    ensures var job, after := s.jobs[id], Exec(c, s, acts);
            var free := Free(s.locks, job.task.host, s.now);
            && after.jobs[id].life == BackupLife(job.life, found, free, job.retries, o, cancelled, s.now)
            && EndsAs(job, after.jobs[id], BackupEnd(job.life, found, free, job.retries, o, cancelled))
            && InForce(after.locks, s.now) == InForce(s.locks, s.now)
  {
    var base, job := s, s.jobs[id];
    assert Exec(c, s, []) == With(base, id, job) && OnlyWork([], id, cancelled);
    hide Stepped, OnlyWork, InForce, Legal, Exec;
    acts, job := Goes(c, s, [], base, id, cancelled, job, if found then Go else Missing);
    LookedAt(s.jobs[id], if found then Go else Missing, s.now);
    if !found {
      acts, job := Goes(c, s, acts, base, id, cancelled, job, Go);
      RecordedAt(s.jobs[id], Failed, s.now);
      acts, job := Quits(c, s, acts, base, id, cancelled, job);
    } else if Terminal(job.life.status) {
      acts, job := Quits(c, s, acts, base, id, cancelled, job);
    } else {
      acts, base, job := BackupTakes(c, s, acts, base, id, cancelled, job, o);
    }
  }

  /** The first steps of a delivery, by name. */
  lemma LookedAt(job: Job, ch: Choice, now: nat)
    requires Allowed(job, ch) && job.mail.pc.Look?
    ensures Stepped(job, ch, false, now) == Looked(job, ch)
  {
  }

  lemma TriedAt(job: Job, free: bool, now: nat)
    requires job.mail.Live? && job.mail.pc.Acquiring?
    ensures Stepped(job, Go, free, now) == Tried(job, free)
  {
  }

  lemma RecordedAt(job: Job, st: Status, now: nat)
    requires job.mail.Live?
    ensures Stepped(At(job, Recording(st, false)), Go, false, now)
         == At(job, Leaving(0, Ack)).(life := Advanced(job.life, st, now))
  {
  }

  /** A Move that has both keys, up to the finally block. */
  lemma MoveWorks(c: Config, s: State, acts: seq<Action>, base: State, id: JobId, cancelled: bool, job: Job, e: Ending)
    returns (next: seq<Action>, done: Job)
    requires Legal(c, s, acts) && Exec(c, s, acts) == With(base, id, job) && OnlyWork(acts, id, cancelled)
    requires job.task.Move? && job.mail.Live? && job.mail.pc.Marking?
    ensures Legal(c, s, next) && Exec(c, s, next) == With(base, id, done) && OnlyWork(next, id, cancelled)
    ensures var begun := Begun(job.life, base.now);
            && SameDelivery(job, done)
            && done.life == EndedLife(if cancelled then Stopped(begun, base.now) else begun, e, base.now)
    ensures done.mail.pc == Leaving(KeyCount(job.task), Ack)
  {
    hide Wanted, GiveBack, Legal, Exec, With, OnlyWork, Stopped, Finished, Advanced;
    next, done := Goes(c, s, acts, base, id, cancelled, job, Go);
    if cancelled {
      next, done := CancelArrives(c, s, next, base, id, cancelled, done);
    }
    var outcome := if e.Done? then Choice.Returned(e.ok) else Choice.Raised(false);
    next, done := Goes(c, s, next, base, id, cancelled, done, outcome);
    next, done := Goes(c, s, next, base, id, cancelled, done, if e.Broke? && e.finishFails then Go else ByFinish);
  }

  /** A Move that goes for its hosts, to the end of the delivery. */
  lemma MoveTakes(c: Config, s: State, acts: seq<Action>, base: State, id: JobId, cancelled: bool, job: Job, e: Ending)
    returns (next: seq<Action>, after: State, done: Job)
    requires Legal(c, s, acts) && Exec(c, s, acts) == With(base, id, job) && OnlyWork(acts, id, cancelled)
    requires job.task.Move? && job.task.source != job.task.dest
    requires job.mail.Live? && job.mail.pc == Acquiring(0) && job.life.status.Pending?
    ensures Legal(c, s, next) && Exec(c, s, next) == With(after, id, done) && OnlyWork(next, id, cancelled)
    ensures var free := Free(base.locks, job.task.source, base.now) && Free(base.locks, job.task.dest, base.now);
            && done.life == MoveLife(job.life, free, job.retries, e, cancelled, base.now)
            && EndsAs(job, done, MoveEnd(job.life, free, job.retries))
            && InForce(after.locks, base.now) == InForce(base.locks, base.now)
  {
    hide Stepped, InForce, Legal, Exec, With;
    var token, until := Token(id, job.past.deliveries), base.now + Effective(c.lockTtl);
    var a, b := job.task.source, job.task.dest;
    next, after, done := AcquireRefinesDualLock(c, s, acts, base, id, job);
    assert OnlyWork(next, id, cancelled);
    hide OnlyWork;
    if Free(base.locks, a, base.now) && Free(base.locks, b, base.now) {
      next, done := MoveWorks(c, s, next, after, id, cancelled, done, e);
      next, after, done := GivesBack(c, s, next, after, id, cancelled, done);
      next, after, done := GivesBack(c, s, next, after, id, cancelled, done);
      DualReleaseUndoesAcquire(base.locks, a, token, b, token, base.now, until);
      next, done := Quits(c, s, next, after, id, cancelled, done);
    } else {
      next, done := WaitsOrGivesUp(c, s, next, after, id, cancelled, done);
    }
  }

  /** The body of a Move refines the step system in the same way. */
  lemma MigrateTaskRefines(c: Config, s: State, id: JobId, e: Ending, cancelled: bool) returns (acts: seq<Action>)
    requires id in s.jobs && s.jobs[id].task.Move? && s.jobs[id].task.source != s.jobs[id].task.dest
    requires s.jobs[id].mail.Live? && s.jobs[id].mail.pc.Look?
    ensures Legal(c, s, acts) && OnlyWork(acts, id, cancelled) && id in Exec(c, s, acts).jobs
    ensures var job, after := s.jobs[id], Exec(c, s, acts);
            var free := Free(s.locks, job.task.source, s.now) && Free(s.locks, job.task.dest, s.now);
            && after.jobs[id].life == MoveLife(job.life, free, job.retries, e, cancelled, s.now)
            && EndsAs(job, after.jobs[id], MoveEnd(job.life, free, job.retries))
            && InForce(after.locks, s.now) == InForce(s.locks, s.now)
  {
    var base, job := s, s.jobs[id];
    assert Exec(c, s, []) == With(base, id, job) && OnlyWork([], id, cancelled);
    hide Stepped, OnlyWork, InForce, Legal, Exec;
    acts, job := Goes(c, s, [], base, id, cancelled, job, Go);
    LookedAt(s.jobs[id], Go, s.now);
    if Terminal(job.life.status) {
      acts, job := Quits(c, s, acts, base, id, cancelled, job);
    } else if job.life.status.Running? {
      acts, job := Goes(c, s, acts, base, id, cancelled, job, ByFinish);
      FinishedAt(s.jobs[id], Failed, s.now);
      acts, job := Quits(c, s, acts, base, id, cancelled, job);
    } else {
      acts, base, job := MoveTakes(c, s, acts, base, id, cancelled, job, e);
    }
  }

  lemma FinishedAt(job: Job, st: Status, now: nat)
    requires job.mail.Live? && job.task.Move?
    ensures Stepped(At(job, Recording(st, false)), ByFinish, false, now)
         == At(job, Leaving(0, Ack)).(life := Finished(job.life, st, now))
  {
  }
}
