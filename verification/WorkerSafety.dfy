/** What every reachable state of the worker system keeps: the job invariant and the lock invariant. */
module WorkerSafety {
  import opened Wrappers
  import opened Life
  import opened ServerLocks
  import opened Workers

  /** A lock must outlast every delivery that may hold it. */
  predicate Sound(c: Config) {
    c.limit <= Effective(c.lockTtl)
  }

  // ------------------------------------------------------------ the job invariant

  /** Values a program counter can carry. */
  predicate PcShape(t: Task, pc: Pc) {
    match pc
    case Acquiring(got) => got < KeyCount(t)
    case BackingOff => KeyCount(t) == 2
    case Recording(st, _) => st.Success? || st.Failed?
    case Leaving(left, next) => left <= KeyCount(t) && (next.Again? ==> t.Backup?)
    case Requeuing(wait) => wait == LOCK_WAIT || (wait == TRANSIENT_WAIT && t.Backup?)
    case Marked => t.Backup?
    case Reviewing(_) => t.Backup?
    case Aftermath => t.Backup?
    case Handling(_, _) => t.Backup?
    case _ => true
  }

  /** After the row was read as active and before the work section. */
  predicate BeforeWork(pc: Pc) {
    pc.Acquiring? || pc.BackingOff? || pc.Busy? || pc.MarkWaiting? || pc.Marking? || pc.Marked?
    || (pc.Requeuing? && pc.wait == LOCK_WAIT)
  }

  /** The retry of a backup that fails in the work section. */
  predicate RetryAfterWork(pc: Pc) {
    (pc.Requeuing? && pc.wait == TRANSIENT_WAIT) || (pc.Leaving? && pc.next.Again?)
  }

  predicate JobShape(c: Config, now: nat, job: Job) {
    && (job.mail.Live? ==> job.mail.since <= now < job.mail.since + c.limit && PcShape(job.task, job.mail.pc))
    && (Terminal(job.life.status) ==> job.life.finishedAt.Some?)
    && (forall k :: k in job.past.killed ==> k <= job.past.deliveries)
    && (job.mail.Live? ==> job.past.deliveries !in job.past.killed)
    && (job.mail.Lost? ==> job.past.deliveries in job.past.killed)
  }

  /** How often a job was delivered, retried and at work. */
  predicate Tally(job: Job) {
    Counts(job) && (job.mail.Live? ==> TallyLive(job, job.mail.pc))
  }

  predicate Counts(job: Job) {
    && job.past.deliveries <= job.retries + job.past.redeliveries + (if job.mail.Queued? then 0 else 1)
    && job.past.transients <= job.retries <= LOCK_MAX_RETRIES + job.past.transients
    && job.past.transients <= 1
    && (job.past.transients == 1 ==> job.task.Backup? && Terminal(job.life.status))
    && job.past.waited == LOCK_WAIT * (job.retries - job.past.transients) + TRANSIENT_WAIT * job.past.transients
  }

  /** Every key taken is given back once, left behind by a death, or still held. */
  predicate Ledger(job: Job) {
    job.past.grabs == job.past.drops + job.past.orphaned + HeldCount(job)
  }

  predicate TallyLive(job: Job, pc: Pc) {
    && (BeforeWork(pc) ==> job.past.transients == 0)
    && (pc.MarkWaiting? || (pc.Requeuing? && pc.wait == LOCK_WAIT) ==> job.retries < LOCK_MAX_RETRIES)
    && (RetryAfterWork(pc) ==> job.past.transients == 0 && Terminal(job.life.status))
    && (!pc.Look? && !(pc.Leaving? && pc.next.Ack?) && !pc.Recording? ==> job.past.transients == 0)
    && (pc.Recording? && pc.keys ==> job.past.transients == 0)
  }

  /** A backup enters the work section at most once for each death it is redelivered after. */
  predicate BackupRuns(job: Job) {
    && job.past.runs <= job.past.redeliveries + 1
    && (job.mail.Queued? && Active(job.life.status) ==> job.past.runs <= job.past.redeliveries)
    && (job.mail.Live? && job.mail.pc.Look? && Active(job.life.status) ==> job.past.runs <= job.past.redeliveries)
    && (job.mail.Live? && BeforeWork(job.mail.pc) ==> job.past.runs <= job.past.redeliveries)
  }

  /** A Move enters it at most once, and never again once its row has left "pending". */
  predicate MoveRuns(job: Job) {
    && job.past.runs <= 1
    && (job.life.status.Pending? ==> job.past.runs == 0)
    && (job.mail.Live? && BeforeWork(job.mail.pc) ==>
          job.past.runs == 0 && job.life.status in {Pending, Cancelled, Failed})
  }

  /** A row shows success only after work that returned with success. */
  predicate Outcome(job: Job) {
    && (job.life.status.Success? ==> job.past.won && job.past.runs > 0)
    && (job.mail.Live? && job.mail.pc.Reviewing? ==> job.mail.pc.ok == job.past.won && job.past.runs > 0)
    && (job.mail.Live? && BeforeWork(job.mail.pc) ==> !job.life.status.Success?)
    && (job.mail.Live? && job.mail.pc.Working? ==> job.past.runs > 0 && !job.life.status.Success?)
    && (job.mail.Live? && job.mail.pc.Recording? ==>
          if !job.mail.pc.keys then job.mail.pc.st.Failed?
          else job.past.runs > 0 && (job.mail.pc.st.Success? <==> job.past.won))
  }

  predicate JobInv(c: Config, now: nat, job: Job) {
    && JobShape(c, now, job) && Tally(job) && Ledger(job) && Outcome(job)
    && (if job.task.Backup? then BackupRuns(job) else MoveRuns(job))
  }

  lemma SameHosts(t: Task)
    ensures 1 <= KeyCount(t) == |Wanted(t)| <= 2
    ensures forall host :: Touches(t, host) <==> host == GiveBack(t)[0] || (KeyCount(t) == 2 && host == GiveBack(t)[1])
    ensures forall host :: Touches(t, host) <==> host == Wanted(t)[0] || (KeyCount(t) == 2 && host == Wanted(t)[1])
    ensures KeyCount(t) == 2 ==> GiveBack(t)[0] != GiveBack(t)[1] && Wanted(t)[0] != Wanted(t)[1]
  {
  }

  lemma StepKeepsShape(c: Config, now: nat, job: Job, ch: Choice, free: bool)
    requires JobShape(c, now, job) && Allowed(job, ch)
    ensures JobShape(c, now, Stepped(job, ch, free, now))
  {
    SameHosts(job.task);
  }

  lemma StepKeepsCounts(c: Config, now: nat, job: Job, ch: Choice, free: bool)
    requires JobShape(c, now, job) && Tally(job) && Allowed(job, ch)
    ensures Counts(Stepped(job, ch, free, now))
  {
    hide Wanted, GiveBack, KeyCount;
  }

  lemma StepKeepsTallyLive(c: Config, now: nat, job: Job, ch: Choice, free: bool)
    requires JobShape(c, now, job) && Tally(job) && Allowed(job, ch)
    ensures var next := Stepped(job, ch, free, now); next.mail.Live? ==> TallyLive(next, next.mail.pc)
  {
    assert job.past.transients == 0 || Terminal(job.life.status);
    hide Wanted, GiveBack, KeyCount, Counts;
  }

  lemma StepKeepsTally(c: Config, now: nat, job: Job, ch: Choice, free: bool)
    requires JobShape(c, now, job) && Tally(job) && Allowed(job, ch)
    ensures Tally(Stepped(job, ch, free, now))
  {
    hide Stepped, Counts, TallyLive, JobShape;
    StepKeepsCounts(c, now, job, ch, free);
    StepKeepsTallyLive(c, now, job, ch, free);
  }

  lemma StepKeepsLedger(c: Config, now: nat, job: Job, ch: Choice, free: bool)
    requires JobShape(c, now, job) && Ledger(job) && Allowed(job, ch)
    ensures Ledger(Stepped(job, ch, free, now))
  {
    SameHosts(job.task);
    hide Wanted, GiveBack;
  }

  lemma StepKeepsOutcome(c: Config, now: nat, job: Job, ch: Choice, free: bool)
    requires JobShape(c, now, job) && Outcome(job) && Allowed(job, ch)
    ensures Outcome(Stepped(job, ch, free, now))
  {
    SameHosts(job.task);
    hide Wanted, GiveBack;
  }

  lemma StepKeepsRuns(c: Config, now: nat, job: Job, ch: Choice, free: bool)
    requires JobShape(c, now, job) && Tally(job) && Allowed(job, ch)
    requires if job.task.Backup? then BackupRuns(job) else MoveRuns(job)
    ensures var next := Stepped(job, ch, free, now);
            if job.task.Backup? then BackupRuns(next) else MoveRuns(next)
  {
    hide Wanted, GiveBack;
  }

  // ----------------------------------------------------------- the lock invariant

  /** A key held by a delivery is stored under its token, and lasts at least the lock's life from its start. */
  predicate Backed(c: Config, s: State, id: JobId, host: Host)
    requires id in s.jobs && s.jobs[id].mail.Live?
  {
    && host in s.locks
    && s.locks[host].token == TokenOf(s, id)
    && s.locks[host].until >= s.jobs[id].mail.since + Effective(c.lockTtl)
  }

  /** A stored key belongs to the live delivery that holds it, or to one that died. */
  predicate Accounted(s: State, host: Host)
    requires host in s.locks
  {
    var token := s.locks[host].token;
    && token.holder in s.jobs
    && (token.serial in s.jobs[token.holder].past.killed
        || (token.serial == s.jobs[token.holder].past.deliveries && Holds(s.jobs[token.holder], host)))
  }

  /** What every reachable state keeps, however long a lock lasts. */
  ghost predicate JobsInv(c: Config, s: State) {
    && (forall id :: id in s.jobs ==> JobInv(c, s.now, s.jobs[id]))
    && (forall host :: host in s.locks ==> Accounted(s, host))
  }

  /** And what it also keeps when a lock outlasts every delivery. */
  ghost predicate Inv(c: Config, s: State) {
    && JobsInv(c, s)
    && (forall id, host :: id in s.jobs && Holds(s.jobs[id], host) ==> Backed(c, s, id, host))
  }

  /** The key a step gives back, if any. */
  function Dropped(job: Job): Option<Host> {
    if !job.mail.Live? then None
    else if job.mail.pc.BackingOff? then Some(Wanted(job.task)[0])
    else if job.mail.pc.Leaving? && 0 < job.mail.pc.left <= KeyCount(job.task) then
      Some(NextBack(job.task, job.mail.pc.left))
    else None
  }

  lemma TryHeld(c: Config, now: nat, job: Job, ch: Choice, free: bool, host: Host)
    requires JobShape(c, now, job) && Allowed(job, ch) && job.mail.pc.Acquiring?
    ensures Trying(job) && !Holds(job, NextKey(job))
    ensures Holds(Stepped(job, ch, free, now), host) <==> Holds(job, host) || (free && host == NextKey(job))
  {
    SameHosts(job.task);
    hide Wanted, GiveBack;
  }

  lemma DropHeld(c: Config, now: nat, job: Job, ch: Choice, free: bool, host: Host)
    requires JobShape(c, now, job) && Allowed(job, ch) && Dropped(job).Some?
    ensures Holds(job, Dropped(job).value)
    ensures Holds(Stepped(job, ch, free, now), host) <==> Holds(job, host) && host != Dropped(job).value
  {
    SameHosts(job.task);
    hide Wanted, GiveBack;
  }

  lemma KeepHeld(c: Config, now: nat, job: Job, ch: Choice, free: bool, host: Host)
    requires JobShape(c, now, job) && Allowed(job, ch) && !job.mail.pc.Acquiring? && Dropped(job).None?
    ensures Holds(Stepped(job, ch, free, now), host) <==> Holds(job, host)
  {
    SameHosts(job.task);
    hide Wanted, GiveBack;
  }

  /** One step changes the held keys exactly as it changes the lock table. */
  lemma StepHeld(c: Config, now: nat, job: Job, ch: Choice, free: bool, host: Host)
    requires JobShape(c, now, job) && Allowed(job, ch)
    ensures Trying(job) ==> !Holds(job, NextKey(job))
    ensures Dropped(job).Some? ==> Holds(job, Dropped(job).value)
    ensures Holds(Stepped(job, ch, free, now), host) <==>
            (Holds(job, host) && Dropped(job) != Some(host)) || (Trying(job) && free && host == NextKey(job))
  {
    if job.mail.pc.Acquiring? {
      TryHeld(c, now, job, ch, free, host);
    } else if Dropped(job).Some? {
      DropHeld(c, now, job, ch, free, host);
    } else {
      KeepHeld(c, now, job, ch, free, host);
    }
  }

  /** A step keeps the number of the delivery, its start, and the deaths so far. */
  lemma StepKeepsIdentity(job: Job, ch: Choice, free: bool, now: nat)
    requires Allowed(job, ch)
    ensures var next := Stepped(job, ch, free, now);
            && next.past.deliveries == job.past.deliveries && next.past.killed == job.past.killed
            && (next.mail.Live? ==> next.mail.since == job.mail.since)
  {
  }

  lemma HoldsIsLive(job: Job, host: Host)
    requires Holds(job, host)
    ensures job.mail.Live?
  {
  }

  lemma WorkKeepsBacked(c: Config, s: State, id: JobId, ch: Choice)
    requires Sound(c) && Inv(c, s) && Enabled(c, s, Work(id, ch))
    ensures var s' := Do(c, s, Work(id, ch));
            forall i, host :: i in s'.jobs && Holds(s'.jobs[i], host) ==> Backed(c, s', i, host)
  {
    hide Stepped, Wanted, GiveBack, Tally, Ledger, Outcome, BackupRuns, MoveRuns, PcShape;
    var s' := Do(c, s, Work(id, ch));
    var job := s.jobs[id];
    assert JobInv(c, s.now, job);
    StepKeepsIdentity(job, ch, KeyFree(s, job), s.now);
    forall i, host | i in s'.jobs && Holds(s'.jobs[i], host)
      ensures Backed(c, s', i, host)
    {
      StepHeld(c, s.now, job, ch, KeyFree(s, job), host);
      HoldsIsLive(s'.jobs[i], host);
      if i == id {
        if !(KeyFree(s, job) && host == NextKey(job)) {
          assert Holds(job, host) && Backed(c, s, id, host);
          if KeyFree(s, job) {
            StepHeld(c, s.now, job, ch, true, NextKey(job));
          }
        }
      } else {
        assert s'.jobs[i] == s.jobs[i];
        assert JobInv(c, s.now, s.jobs[i]) && Backed(c, s, i, host);
      }
    }
  }

  lemma WorkKeepsAccounted(c: Config, s: State, id: JobId, ch: Choice)
    requires JobsInv(c, s) && Enabled(c, s, Work(id, ch))
    ensures var s' := Do(c, s, Work(id, ch));
            forall host :: host in s'.locks ==> Accounted(s', host)
  {
    hide Stepped, Wanted, GiveBack, Tally, Ledger, Outcome, BackupRuns, MoveRuns, PcShape;
    var s' := Do(c, s, Work(id, ch));
    var job := s.jobs[id];
    assert JobInv(c, s.now, job);
    StepKeepsIdentity(job, ch, KeyFree(s, job), s.now);
    forall host | host in s'.locks
      ensures Accounted(s', host)
    {
      StepHeld(c, s.now, job, ch, KeyFree(s, job), host);
      if !(KeyFree(s, job) && host == NextKey(job)) {
        assert host in s.locks && s'.locks[host] == s.locks[host] && Accounted(s, host);
      }
    }
  }

  lemma WorkKeepsJobs(c: Config, s: State, id: JobId, ch: Choice)
    requires JobsInv(c, s) && Enabled(c, s, Work(id, ch))
    ensures JobsInv(c, Do(c, s, Work(id, ch)))
  {
    WorkKeepsAccounted(c, s, id, ch);
    var job := s.jobs[id];
    assert JobInv(c, s.now, job);
    StepKeepsShape(c, s.now, job, ch, KeyFree(s, job));
    StepKeepsTally(c, s.now, job, ch, KeyFree(s, job));
    StepKeepsLedger(c, s.now, job, ch, KeyFree(s, job));
    StepKeepsOutcome(c, s.now, job, ch, KeyFree(s, job));
    StepKeepsRuns(c, s.now, job, ch, KeyFree(s, job));
  }

  /** What a write from outside the task may do to the row. */
  predicate Outside(job: Job, l: Life) {
    && (Terminal(l.status) ==> l.finishedAt.Some?)
    && (Terminal(job.life.status) ==> Terminal(l.status))
    && (l.status.Success? ==> job.life.status.Success?)
    && (l.status.Pending? ==> job.life.status.Pending?)
    && (l.status.Running? && job.task.Move? ==> job.life.status.Running?)
  }

  lemma OutsideKeepsJob(c: Config, now: nat, job: Job, l: Life)
    requires JobInv(c, now, job) && Outside(job, l)
    ensures JobInv(c, now, job.(life := l))
  {
    hide Wanted, GiveBack;
    assert HeldCount(job.(life := l)) == HeldCount(job);
    hide HeldCount, PcShape;
  }

  predicate TouchesRow(a: Action) {
    a.Flush? || a.Cancel? || a.Halt? || a.Fail?
  }

  lemma RowEventKeepsJob(c: Config, s: State, a: Action)
    requires JobsInv(c, s) && Enabled(c, s, a) && TouchesRow(a)
    ensures JobInv(c, s.now, Do(c, s, a).jobs[a.id])
  {
    hide PcShape, Tally, Ledger, Outcome, BackupRuns, MoveRuns;
    var job, after := s.jobs[a.id], Do(c, s, a).jobs[a.id];
    assert JobInv(c, s.now, job);
    OutsideKeepsJob(c, s.now, job, after.life);
    assert after == job.(life := after.life);
  }

  lemma MailEventKeepsJob(c: Config, s: State, a: Action)
    requires JobsInv(c, s) && Enabled(c, s, a)
    requires a.Deliver? || a.Discard? || a.Kill? || a.Redeliver?
    ensures JobInv(c, s.now, Do(c, s, a).jobs[a.id])
  {
    hide Wanted, GiveBack;
    assert JobInv(c, s.now, s.jobs[a.id]);
  }

  /** Time, cancels, stops, deaths and redeliveries keep the job invariant too. */
  lemma EventKeepsJobs(c: Config, s: State, a: Action)
    requires JobsInv(c, s) && Enabled(c, s, a) && !a.Work?
    ensures var s' := Do(c, s, a);
            forall id :: id in s'.jobs ==> JobInv(c, s'.now, s'.jobs[id])
  {
    if a.Tick? {
      forall id | id in s.jobs
        ensures JobInv(c, s.now + a.d, s.jobs[id])
      {
        assert JobInv(c, s.now, s.jobs[id]);
      }
    } else if TouchesRow(a) {
      RowEventKeepsJob(c, s, a);
    } else if !a.Create? {
      MailEventKeepsJob(c, s, a);
    }
  }

  lemma EventKeepsAccounted(c: Config, s: State, a: Action)
    requires JobsInv(c, s) && Enabled(c, s, a) && !a.Work?
    ensures var s' := Do(c, s, a);
            forall host :: host in s'.locks ==> Accounted(s', host)
  {
    hide Wanted, GiveBack, Tally, Ledger, Outcome, BackupRuns, MoveRuns, PcShape;
    var s' := Do(c, s, a);
    forall host | host in s'.locks
      ensures Accounted(s', host)
    {
      assert Accounted(s, host);
      assert JobInv(c, s.now, s.jobs[s.locks[host].token.holder]);
    }
  }

  lemma EventKeepsBacked(c: Config, s: State, a: Action)
    requires Inv(c, s) && Enabled(c, s, a) && !a.Work?
    ensures var s' := Do(c, s, a);
            forall id, host :: id in s'.jobs && Holds(s'.jobs[id], host) ==> Backed(c, s', id, host)
  {
    hide Wanted, GiveBack, JobInv;
    var s' := Do(c, s, a);
    forall id, host | id in s'.jobs && Holds(s'.jobs[id], host)
      ensures Backed(c, s', id, host)
    {
      assert id in s.jobs && Holds(s.jobs[id], host) && Backed(c, s, id, host);
    }
  }

  lemma StepKeepsJobs(c: Config, s: State, a: Action)
    requires JobsInv(c, s) && Enabled(c, s, a)
    ensures JobsInv(c, Do(c, s, a))
  {
    hide JobInv, Accounted;
    if a.Work? {
      WorkKeepsJobs(c, s, a.id, a.ch);
    } else {
      EventKeepsJobs(c, s, a);
      EventKeepsAccounted(c, s, a);
    }
  }

  lemma StepKeepsInv(c: Config, s: State, a: Action)
    requires Sound(c) && Inv(c, s) && Enabled(c, s, a)
    ensures Inv(c, Do(c, s, a))
  {
    hide JobsInv, Holds, Backed;
    StepKeepsJobs(c, s, a);
    if a.Work? {
      WorkKeepsBacked(c, s, a.id, a.ch);
    } else {
      EventKeepsBacked(c, s, a);
    }
  }

  lemma {:induction false} RunKeepsJobs(c: Config, s: State, acts: seq<Action>)
    requires JobsInv(c, s) && Legal(c, s, acts)
    ensures JobsInv(c, Exec(c, s, acts))
    decreases |acts|
  {
    if acts != [] {
      StepKeepsJobs(c, s, acts[0]);
      RunKeepsJobs(c, Do(c, s, acts[0]), acts[1..]);
    }
  }

  lemma {:induction false} RunKeepsInv(c: Config, s: State, acts: seq<Action>)
    requires Sound(c) && Inv(c, s) && Legal(c, s, acts)
    ensures Inv(c, Exec(c, s, acts))
    decreases |acts|
  {
    if acts != [] {
      StepKeepsInv(c, s, acts[0]);
      RunKeepsInv(c, Do(c, s, acts[0]), acts[1..]);
    }
  }
}
