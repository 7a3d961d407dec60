/**
  The jobs that take the host mutex: backups (one host) and Moves with their
  undo and recover tasks (two hosts). Each job owns one broker message. A step
  of the system is one database call, one lock call, one broker call, or an
  event around the workers: time passing, a cancel, a worker death.
*/
module Workers {
  import opened Wrappers
  import opened Life
  import opened ServerLocks

  type JobId = nat

  const LOCK_MAX_RETRIES := 180
  const LOCK_WAIT := 20
  const TRANSIENT_WAIT := 30
  const TASK_TIME_LIMIT := 7200

  /** The hard time limit of a task and the configured life of a lock, in seconds. */
  datatype Config = Config(limit: nat, lockTtl: nat)

  datatype Task = Backup(host: Host) | Move(source: Host, dest: Host)

  /** Keys in the order they are taken. */
  function Wanted(t: Task): seq<Host> {
    match t
    case Backup(h) => [h]
    case Move(a, b) => Ascending(a, b)
  }

  /** Keys in the order they are given back. */
  function GiveBack(t: Task): seq<Host> {
    match t
    case Backup(h) => [h]
    case Move(a, b) => if a == b then [a] else [a, b]
  }

  /** What follows once every key is back. */
  datatype Next = Ack | Again

  /** Where a live delivery stands. */
  datatype Pc =
    | Look                                          // read the server and the row
    | Acquiring(got: nat)                           // take the next key
    | BackingOff                                    // give back the first key of two
    | Busy                                          // a host is taken
    | MarkWaiting                                   // write "pending" before the retry
    | Marking                                       // write "running"
    | Marked                                        // the running audit row
    | Working                                       // the work section
    | Reviewing(ok: bool)                           // read the row again after a backup
    | Recording(st: Status, keys: bool)             // write the terminal status, with or without the keys
    | Aftermath                                     // audit and alerts after a backup
    | Handling(started: bool, transient: bool)      // the exception handler of a backup
    | Leaving(left: nat, next: Next)                // the finally block, or the early release: keys still to give back
    | Requeuing(wait: nat)                          // publish the retry

  datatype Mail =
    | Queued
    | Live(pc: Pc, since: nat)
    | Lost                                          // the worker died, the message is not acknowledged
    | Acked

  /** What has happened to a job so far. */
  datatype Past = Past(
    deliveries: nat,
    redeliveries: nat,
    killed: set<nat>,        // deliveries that ended with a worker death
    runs: nat,               // entries into the work section
    won: bool,               // the last work returned with success
    transients: nat,         // retries after started work
    waited: nat,             // seconds of countdown published
    grabs: nat,              // keys taken
    drops: nat,              // keys given back
    orphaned: nat)           // keys left behind by a death

  const NOTHING := Past(0, 0, {}, 0, false, 0, 0, 0, 0, 0)

  /** A job: its task, the status part of its row, its message with the retry count, and its past. */
  datatype Job = Job(task: Task, life: Life, mail: Mail, retries: nat, past: Past)

  datatype State = State(now: nat, locks: Locks, jobs: map<JobId, Job>)

  const INIT := State(0, map[], map[])

  function NewJob(t: Task): Job {
    Job(t, FRESH, Queued, 0, NOTHING)
  }

  predicate Touches(t: Task, host: Host) {
    match t
    case Backup(h) => host == h
    case Move(a, b) => host == a || host == b
  }

  function KeyCount(t: Task): nat {
    |GiveBack(t)|
  }

  /** The next key that the finally block gives back. */
  function NextBack(t: Task, left: nat): Host
    requires 0 < left <= KeyCount(t)
  {
    GiveBack(t)[KeyCount(t) - left]
  }

  /** Of two keys the first goes back first. */
  predicate StillHeld(t: Task, left: nat, host: Host) {
    if left == KeyCount(t) then Touches(t, host) else left == 1 && KeyCount(t) == 2 && host == GiveBack(t)[1]
  }

  /** From the last acquire to the first release; the work itself is inside. */
  predicate InSection(job: Job) {
    job.mail.Live? &&
    match job.mail.pc
    case Marking => true
    case Marked => true
    case Working => true
    case Reviewing(_) => true
    case Recording(_, keys) => keys
    case Aftermath => true
    case Handling(_, _) => true
    case _ => false
  }

  /** The keys a delivery holds: the first of two, all of them, or those not yet given back. */
  predicate Holds(job: Job, host: Host) {
    job.mail.Live? &&
    match job.mail.pc
    case Acquiring(got) => got > 0 && host == Wanted(job.task)[0]
    case BackingOff => host == Wanted(job.task)[0]
    case Leaving(left, _) => StillHeld(job.task, left, host)
    case _ => InSection(job) && Touches(job.task, host)
  }

  function HeldCount(job: Job): nat {
    if !job.mail.Live? then 0
    else
      match job.mail.pc
      case Acquiring(got) => got
      case BackingOff => 1
      case Leaving(left, _) => left
      case _ => if InSection(job) then KeyCount(job.task) else 0
  }

  // ------------------------------------------------------- one worker's step

  /** The outcome of a step that the program does not decide. */
  datatype Choice =
    | Go
    | Missing                    // the server row is gone
    | Stop                       // a fresh read saw a row that is no longer active
    | Returned(ok: bool)
    | Raised(transient: bool)
    | ByFinish                   // the terminal write is the pipeline's own finish call

  predicate Allowed(job: Job, ch: Choice) {
    job.mail.Live? &&
    match job.mail.pc
    case Look => ch.Go? || (ch.Missing? && job.task.Backup?)
    case Busy => ch.Go? || (ch.Stop? && job.task.Backup? && Terminal(job.life.status))
    case Marked => ch.Go? || ch.Raised?
    case Working => ch.Returned? || ch.Raised?
    case Recording(_, _) => ch.Go? || (ch.ByFinish? && job.task.Move?)
    case Aftermath => ch.Go? || ch.Raised?
    case Handling(_, _) => ch.Go? || (ch.Stop? && job.life.status.Cancelled?)
    case _ => ch.Go?
  }

  function At(job: Job, pc: Pc): Job
    requires job.mail.Live?
  {
    job.(mail := Live(pc, job.mail.since))
  }

  /** The first read. A backup skips a row that is not active. A Move also fails a row that is already running. */
  function Looked(job: Job, ch: Choice): Job
    requires job.mail.Live?
  {
    if ch.Missing? then At(job, Recording(Failed, false))
    else if Terminal(job.life.status) then At(job, Leaving(0, Ack))
    else if job.task.Move? && job.life.status.Running? then At(job, Recording(Failed, false))
    else At(job, Acquiring(0))
  }

  function Tried(job: Job, free: bool): Job
    requires job.mail.Live? && job.mail.pc.Acquiring?
  {
    var got := job.mail.pc.got;
    if free then
      At(job, if got + 1 == |Wanted(job.task)| then Marking else Acquiring(got + 1))
      .(past := job.past.(grabs := job.past.grabs + 1))
    else if got == 0 then At(job, Busy)
    else At(job, BackingOff)
  }

  function FoundBusy(job: Job, ch: Choice): Job
    requires job.mail.Live?
  {
    if ch.Stop? then At(job, Leaving(0, Ack))
    else if job.retries >= LOCK_MAX_RETRIES then At(job, Recording(Failed, false))
    else At(job, MarkWaiting)
  }

  /** A backup updates the row as any worker does. A Move overwrites it and is then at work. */
  function MarkedRunning(job: Job, now: nat): Job
    requires job.mail.Live?
  {
    if job.task.Backup? then At(job, Marked).(life := Advanced(job.life, Running, now))
    else At(job, Working).(life := Begun(job.life, now), past := job.past.(runs := job.past.runs + 1))
  }

  function Worked(job: Job, ch: Choice): Job
    requires job.mail.Live?
  {
    var ok := ch.Returned? && ch.ok;
    if job.task.Move? then At(job, Recording(if ok then Success else Failed, true)).(past := job.past.(won := ok))
    else if ch.Raised? then At(job, Handling(true, ch.transient)).(past := job.past.(won := false))
    else At(job, Reviewing(ok)).(past := job.past.(won := ok))
  }

  function Recorded(job: Job, ch: Choice, now: nat): Job
    requires job.mail.Live? && job.mail.pc.Recording?
  {
    var pc := job.mail.pc;
    var written :=
      job.(life := if ch.ByFinish? then Finished(job.life, pc.st, now) else Advanced(job.life, pc.st, now));
    At(written,
       if job.task.Backup? && pc.keys then Aftermath
       else Leaving(if pc.keys then KeyCount(job.task) else 0, Ack))
  }

  function Handled(job: Job, ch: Choice, now: nat): Job
    requires job.mail.Live? && job.mail.pc.Handling?
  {
    var pc := job.mail.pc;
    if ch.Stop? then At(job, Leaving(KeyCount(job.task), Ack))
    else
      At(job.(life := Advanced(job.life, Failed, now)),
         Leaving(KeyCount(job.task), if pc.started && pc.transient then Again else Ack))
  }

  function Left(job: Job): Job
    requires job.mail.Live? && job.mail.pc.Leaving?
  {
    var pc := job.mail.pc;
    if pc.left > 0 then At(job, Leaving(pc.left - 1, pc.next)).(past := job.past.(drops := job.past.drops + 1))
    else if pc.next.Again? then At(job, Requeuing(TRANSIENT_WAIT))
    else job.(mail := Acked)
  }

  function Requeued(job: Job): Job
    requires job.mail.Live? && job.mail.pc.Requeuing?
  {
    var wait := job.mail.pc.wait;
    var past := job.past.(waited := job.past.waited + wait,
                          transients := job.past.transients + (if wait == TRANSIENT_WAIT then 1 else 0));
    job.(mail := Queued, retries := job.retries + 1, past := past)
  }

  /** The job after a step of its worker. `free` says whether the key it tries for is free. */
  function Stepped(job: Job, ch: Choice, free: bool, now: nat): Job
    requires Allowed(job, ch)
  {
    match job.mail.pc
    case Look => Looked(job, ch)
    case Acquiring(_) => Tried(job, free)
    case BackingOff => At(job, Busy).(past := job.past.(drops := job.past.drops + 1))
    case Busy => FoundBusy(job, ch)
    case MarkWaiting => At(job, Requeuing(LOCK_WAIT)).(life := Advanced(job.life, Pending, now))
    case Marking => MarkedRunning(job, now)
    case Marked =>
      if ch.Raised? then At(job, Handling(false, ch.transient))
      else At(job, Working).(past := job.past.(runs := job.past.runs + 1))
    case Working => Worked(job, ch)
    case Reviewing(ok) =>
      if job.life.status.Cancelled? then At(job, Leaving(KeyCount(job.task), Ack))
      else At(job, Recording(if ok then Success else Failed, true))
    case Recording(_, _) => Recorded(job, ch, now)
    case Aftermath =>
      if ch.Raised? then At(job, Handling(true, ch.transient)) else At(job, Leaving(KeyCount(job.task), Ack))
    case Handling(_, _) => Handled(job, ch, now)
    case Leaving(_, _) => Left(job)
    case Requeuing(_) => Requeued(job)
  }

  // ---------------------------------------------------------- the whole system

  datatype Action =
    | Create(id: JobId, task: Task)
    | Deliver(id: JobId)
    | Work(id: JobId, ch: Choice)
    | Flush(id: JobId)               // progress written while a backup works
    | Tick(d: nat)
    | Cancel(id: JobId)
    | Discard(id: JobId)             // the broker drops a revoked message
    | Kill(id: JobId, acked: bool)   // the worker dies; a hard time limit acknowledges
    | Redeliver(id: JobId)
    | Halt(id: JobId)                // the stop request for a backup, whatever its status
    | Fail(id: JobId)                // the job service fails an open row: no worker, too old, or replaced

  function TokenOf(s: State, id: JobId): Token
    requires id in s.jobs
  {
    Token(id, s.jobs[id].past.deliveries)
  }

  /** The key a delivery tries for next. */
  predicate Trying(job: Job) {
    job.mail.Live? && job.mail.pc.Acquiring? && job.mail.pc.got < |Wanted(job.task)|
  }

  function NextKey(job: Job): Host
    requires Trying(job)
  {
    Wanted(job.task)[job.mail.pc.got]
  }

  predicate KeyFree(s: State, job: Job) {
    Trying(job) && Free(s.locks, NextKey(job), s.now)
  }

  /** The lock table after a step of a job's worker. */
  function LocksAfter(c: Config, s: State, id: JobId): Locks
    requires id in s.jobs && s.jobs[id].mail.Live?
  {
    var job := s.jobs[id];
    var pc := job.mail.pc;
    var token := TokenOf(s, id);
    if KeyFree(s, job) then s.locks[NextKey(job) := Key(token, s.now + Effective(c.lockTtl))]
    else if pc.BackingOff? then Released(s.locks, Wanted(job.task)[0], token)
    else if pc.Leaving? && 0 < pc.left <= KeyCount(job.task) then Released(s.locks, NextBack(job.task, pc.left), token)
    else s.locks
  }

  function With(s: State, id: JobId, job: Job): State {
    s.(jobs := s.jobs[id := job])
  }

  /** From the start of the work to the terminal write, a backup may flush its progress. */
  predicate Progressing(pc: Pc) {
    pc.Working? || pc.Reviewing? || (pc.Recording? && pc.keys) || pc.Handling?
  }

  predicate Enabled(c: Config, s: State, a: Action) {
    match a
    case Create(id, _) => id !in s.jobs
    case Tick(d) => forall id :: id in s.jobs && s.jobs[id].mail.Live? ==> s.now + d < s.jobs[id].mail.since + c.limit
    case Deliver(id) => id in s.jobs && s.jobs[id].mail.Queued? && c.limit > 0
    case Work(id, ch) => id in s.jobs && Allowed(s.jobs[id], ch)
    case Flush(id) =>
      id in s.jobs && s.jobs[id].task.Backup? && s.jobs[id].mail.Live? && Progressing(s.jobs[id].mail.pc)
    case Cancel(id) => id in s.jobs && Active(s.jobs[id].life.status)
    case Discard(id) => id in s.jobs && s.jobs[id].mail.Queued? && s.jobs[id].life.status in {Cancelled, Failed}
    case Kill(id, _) => id in s.jobs && s.jobs[id].mail.Live?
    case Redeliver(id) => id in s.jobs && s.jobs[id].mail.Lost?
    case Halt(id) => id in s.jobs && s.jobs[id].task.Backup?
    case Fail(id) => id in s.jobs && Active(s.jobs[id].life.status)
  }

  function Do(c: Config, s: State, a: Action): State
    requires Enabled(c, s, a)
  {
    match a
    case Create(id, t) => With(s, id, NewJob(t))
    case Tick(d) => s.(now := s.now + d)
    case Deliver(id) =>
      var job := s.jobs[id];
      With(s, id, job.(mail := Live(Look, s.now), past := job.past.(deliveries := job.past.deliveries + 1)))
    case Work(id, ch) =>
      With(s.(locks := LocksAfter(c, s, id)), id, Stepped(s.jobs[id], ch, KeyFree(s, s.jobs[id]), s.now))
    case Flush(id) => With(s, id, s.jobs[id].(life := Flushed(s.jobs[id].life, s.now)))
    case Cancel(id) => With(s, id, s.jobs[id].(life := Stopped(s.jobs[id].life, s.now)))
    case Discard(id) => With(s, id, s.jobs[id].(mail := Acked))
    case Kill(id, acked) =>
      var job := s.jobs[id];
      var past := job.past.(killed := job.past.killed + {job.past.deliveries},
                            orphaned := job.past.orphaned + HeldCount(job));
      With(s, id, job.(mail := if acked then Acked else Lost, past := past))
    case Redeliver(id) =>
      var job := s.jobs[id];
      With(s, id, job.(mail := Queued, past := job.past.(redeliveries := job.past.redeliveries + 1)))
    case Halt(id) => With(s, id, s.jobs[id].(life := Halted(s.jobs[id].life, s.now)))
    case Fail(id) => With(s, id, s.jobs[id].(life := FailedOpen(s.jobs[id].life, s.now)))
  }

  predicate Legal(c: Config, s: State, acts: seq<Action>)
    decreases |acts|
  {
    acts != [] ==> Enabled(c, s, acts[0]) && Legal(c, Do(c, s, acts[0]), acts[1..])
  }

  function Exec(c: Config, s: State, acts: seq<Action>): State
    requires Legal(c, s, acts)
    decreases |acts|
  {
    if acts == [] then s else Exec(c, Do(c, s, acts[0]), acts[1..])
  }
}
