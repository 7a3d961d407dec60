/**
  Copy jobs to a destination. A folder copy that was queued with a direct half
  starts one direct copy when it ends: from its finally block, or, when its
  process died, from the failure signal. A step is one database call or one
  foreign call of one job, a cancel, a death, the failure signal, a failure
  set by the job service on an open row (no worker, or its message could not
  be published), or the removal of a destination.
*/
module Copies {
  import opened Wrappers
  import opened Life
  import opened JobRow
  import T = Text

  type JobId = nat

  // ------------------------------------------------------------- reading details

  /** The archive name, blank when the key is missing or empty. */
  function Archive(d: Details): string {
    match Field(d, "herder_archive")
    case Text(t) => T.Strip(t)
    case Null => ""
    case Number(n) => if n == 0 then "" else T.Decimal(if n < 0 then -n else n)
    case Flag(b) => if b then "True" else ""
    case Texts(ts) => if ts == [] then "" else "[]"
  }

  function DestinationId(d: Details): int {
    match Field(d, "destination_id")
    case Number(n) => n
    case _ => 0
  }

  /** The task body's test for a folder copy with a direct half. */
  predicate BodyFollows(d: Details) {
    Field(d, "direct_after") == Flag(true) && Archive(d) == "" && Field(d, "direct_host") != Flag(true)
  }

  /** The failure signal's test, in its own order, with its own check of the destination. */
  predicate SignalFollows(d: Details, destinations: set<int>) {
    if Field(d, "direct_after") != Flag(true) then false
    else if Field(d, "direct_host") == Flag(true) then false
    else if Archive(d) != "" then false
    else if DestinationId(d) == 0 then false
    else DestinationId(d) in destinations
  }

  function IfText(v: Value): Value {
    if v.Text? then v else Null
  }

  function IfNumber(v: Value): Value {
    if v.Number? || v.Flag? then v else Null
  }

  /** The details of the direct copy's own row. A scope that is no text and a user that is no number are dropped. */
  function DirectDetails(d: Details): Details {
    Details([], map[
      "destination_id" := Number(DestinationId(d)),
      "scope" := IfText(Field(d, "scope")),
      "user_id" := IfNumber(Field(d, "user_id")),
      "direct_host" := Flag(true)])
  }

  const COPYING := Extra(None, map["current" := Text("copying")])
  const MISSING := Extra(None, map["error" := Text("Destination missing"), "current" := Text("failed")])

  function DoneExtra(copied: seq<string>): Extra {
    Extra(None, map["current" := Text("completed"), "copied" := Texts(copied)])
  }

  function FailedExtra(error: string): Extra {
    Extra(None, map["error" := Text(error), "current" := Text("failed")])
  }

  // --------------------------------------------------------------------- the job

  datatype Pc =
    | Look                                            // read the row and the destination
    | Marking(found: bool, seen: Details)             // write "running", with the details read before
    | NoDestination                                   // write "failed"
    | Copying(follow: bool)                           // the foreign copy
    | Recording(st: Status, extra: Extra, follow: bool)
    | Handling(error: string, follow: bool)           // the exception handler
    | Closing(follow: bool)                           // the finally block
    | Following                                       // the row was read and is not cancelled
    | Ended                                           // the body is over
    | Dead                                            // the process is gone, or the error left the task
    | Signalled                                       // the failure signal closed the row
    | Over

  /** Why a job with a direct half started none. */
  datatype Reason = Skipped | CancelSeen | DestinationGone | CutShort | Swept

  datatype CopyJob = CopyJob(
    row: Row,
    made: Details,            // the details the row was created with
    pc: Pc,
    parent: Option<JobId>,
    children: set<JobId>,
    calls: nat,               // calls of the follow-up enqueue
    good: bool,               // the copy returned with success
    escaped: bool,            // an exception left the handler
    why: Option<Reason>)

  datatype State = State(now: nat, destinations: set<int>, jobs: map<JobId, CopyJob>)

  function NewJob(d: Details, parent: Option<JobId>): CopyJob {
    CopyJob(Row(FRESH, d), d, Look, parent, {}, 0, false, false, None)
  }

  datatype Choice =
    | Go
    | Copied(copied: seq<string>)
    | Refused(error: string)
    | Raised(error: string)
    | Escaped

  /**
    Up to the finally block an error may leave the task past its handler: one
    that the handler does not catch, or one of its own.
  */
  predicate Allowed(job: CopyJob, ch: Choice) {
    match job.pc
    case Copying(_) => ch.Copied? || ch.Refused? || ch.Raised? || ch.Escaped?
    case Closing(_) => ch.Go?
    case Following => ch.Go?
    case Ended => ch.Go?
    case Signalled => ch.Go?
    case Dead => false
    case Over => false
    case _ => ch.Go? || ch.Escaped?
  }

  function Because(job: CopyJob, reason: Reason): CopyJob {
    if BodyFollows(job.made) && job.calls == 0 && job.why.None? then job.(why := Some(reason)) else job
  }

  /** The row after a step: four of the steps write it. */
  function RowAfter(job: CopyJob, ch: Choice, now: nat): Row {
    if ch.Escaped? then job.row
    else
      match job.pc
      case Marking(_, _) => Updated(job.row, Running, COPYING, now)
      case NoDestination => Updated(job.row, Failed, MISSING, now)
      case Recording(st, extra, _) => Updated(job.row, st, extra, now)
      case Handling(error, _) => Updated(job.row, Failed, FailedExtra(error), now)
      case _ => job.row
  }

  function Looked(job: CopyJob, destinations: set<int>): CopyJob {
    if Terminal(job.row.life.status) then Because(job, Skipped).(pc := Closing(false))
    else if DestinationId(job.row.details) in destinations then job.(pc := Marking(true, job.row.details))
    else Because(job, DestinationGone).(pc := Marking(false, job.row.details))
  }

  /** What the body has noted about the direct half so far. */
  predicate Follows(pc: Pc) {
    match pc
    case Copying(follow) => follow
    case Recording(_, _, follow) => follow
    case Handling(_, follow) => follow
    case _ => false
  }

  function CopyEnded(job: CopyJob, ch: Choice): CopyJob
    requires job.pc.Copying?
  {
    var follow := job.pc.follow;
    match ch
    case Copied(copied) => job.(good := true, pc := Recording(Success, DoneExtra(copied), follow))
    case Refused(error) => job.(pc := Recording(Failed, FailedExtra(error), follow))
    case Raised(error) => job.(pc := Handling(error, follow))
    case _ => job
  }

  function Closed(job: CopyJob): CopyJob
    requires job.pc.Closing?
  {
    if !job.pc.follow then job.(pc := Ended)
    else if job.row.life.status.Cancelled? then Because(job, CancelSeen).(pc := Ended)
    else job.(pc := Following)
  }

  /** Everything but the row after a step. */
  function Moved(job: CopyJob, ch: Choice, destinations: set<int>): CopyJob
    requires Allowed(job, ch)
  {
    if ch.Escaped? then job.(escaped := true, pc := Closing(Follows(job.pc)))
    else
      match job.pc
      case Look => Looked(job, destinations)
      case Marking(found, seen) => job.(pc := if found then Copying(BodyFollows(seen)) else NoDestination)
      case NoDestination => job.(pc := Closing(false))
      case Copying(_) => CopyEnded(job, ch)
      case Recording(_, _, follow) => job.(pc := Closing(follow))
      case Handling(_, follow) => job.(pc := Closing(follow))
      case Closing(_) => Closed(job)
      case Following =>
        if DestinationId(job.row.details) in destinations then job.(calls := job.calls + 1, pc := Ended)
        else Because(job, DestinationGone).(pc := Ended)
      case Ended => job.(pc := if job.escaped then Dead else Over)
      case Signalled =>
        if SignalFollows(job.row.details, destinations) then job.(calls := job.calls + 1, pc := Over)
        else Because(job, DestinationGone).(pc := Over)
  }

  function Stepped(job: CopyJob, ch: Choice, destinations: set<int>, now: nat): CopyJob
    requires Allowed(job, ch)
  {
    Moved(job, ch, destinations).(row := RowAfter(job, ch, now))
  }

  /** A death between the terminal write and the follow-up loses it. */
  function Killed(job: CopyJob): CopyJob {
    (if (job.pc == Closing(true) || job.pc.Following?) && Terminal(job.row.life.status)
        && !job.row.life.status.Cancelled? then Because(job, CutShort) else job)
    .(pc := Dead)
  }

  /** The failure signal: it closes an open row, and leaves a terminal one alone. */
  function SignalHandled(job: CopyJob, text: string, now: nat): CopyJob {
    if Terminal(job.row.life.status) then
      Because(job, if job.row.life.status.Cancelled? then CancelSeen else Swept).(pc := Over)
    else job.(row := SignalRow(job.row, text, now), pc := Signalled)
  }

  // ------------------------------------------------------------------ the system

  /** A follow-up call may create the direct row, or find that there is nothing to create. */
  datatype Action =
    | Create(id: JobId, details: Details)
    | Work(id: JobId, ch: Choice, child: Option<JobId>)
    | Cancel(id: JobId, message: string)
    | Kill(id: JobId)
    | FailureSignal(id: JobId, text: string)
    | Sweep(id: JobId, message: string)
    | Remove(destination: int)

  /** The step that calls the follow-up enqueue. */
  predicate Calls(s: State, job: CopyJob) {
    || (job.pc.Following? && DestinationId(job.row.details) in s.destinations)
    || (job.pc.Signalled? && SignalFollows(job.row.details, s.destinations))
  }

  predicate Enabled(s: State, a: Action) {
    match a
    case Create(id, _) => id !in s.jobs
    case Work(id, ch, child) =>
      && id in s.jobs && Allowed(s.jobs[id], ch)
      && (child.Some? ==> Calls(s, s.jobs[id]) && child.value !in s.jobs)
    case Cancel(id, _) => id in s.jobs && Active(s.jobs[id].row.life.status)
    case Kill(id) => id in s.jobs && s.jobs[id].pc !in {Dead, Signalled, Over}
    case FailureSignal(id, _) => id in s.jobs && s.jobs[id].pc.Dead?
    case Sweep(id, _) => id in s.jobs && Active(s.jobs[id].row.life.status)
    case Remove(_) => true
  }

  /** The state with one job replaced, and the direct row it may have started. */
  function With(s: State, id: JobId, job: CopyJob, child: Option<(JobId, Details)>): State {
    if child.None? then s.(now := s.now + 1, jobs := s.jobs[id := job])
    else
      s.(now := s.now + 1,
      jobs := s.jobs[id := job.(children := job.children + {child.value.0})]
              [child.value.0 := NewJob(child.value.1, Some(id))])
  }

  function Do(s: State, a: Action): State
    requires Enabled(s, a)
  {
    match a
    case Create(id, d) => With(s, id, NewJob(d, None), None)
    case Work(id, ch, child) =>
      With(s, id, Stepped(s.jobs[id], ch, s.destinations, s.now),
           if child.None? then None else Some((child.value, DirectDetails(s.jobs[id].row.details))))
    case Cancel(id, message) =>
      With(s, id, s.jobs[id].(row := Marked(s.jobs[id].row, Cancelled, message, s.now)), None)
    case Kill(id) => With(s, id, Killed(s.jobs[id]), None)
    case FailureSignal(id, text) => With(s, id, SignalHandled(s.jobs[id], text, s.now), None)
    case Sweep(id, message) =>
      With(s, id, s.jobs[id].(row := Marked(s.jobs[id].row, Failed, message, s.now)), None)
    case Remove(destination) => s.(now := s.now + 1, destinations := s.destinations - {destination})
  }

  predicate Legal(s: State, acts: seq<Action>)
    decreases |acts|
  {
    acts != [] ==> Enabled(s, acts[0]) && Legal(Do(s, acts[0]), acts[1..])
  }

  function Exec(s: State, acts: seq<Action>): State
    requires Legal(s, acts)
    decreases |acts|
  {
    if acts == [] then s else Exec(Do(s, acts[0]), acts[1..])
  }

  function Init(destinations: set<int>): State {
    State(0, destinations, map[])
  }
}
