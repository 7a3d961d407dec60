/** Results about whole runs of the worker system, from the empty state. */
module WorkerRuns {
  import opened Wrappers
  import opened Life
  import opened ServerLocks
  import opened Workers
  import opened WorkerSafety

  // -------------------------------------------------------------- building runs

  lemma {:induction false} Concat(c: Config, s: State, a: seq<Action>, b: seq<Action>)
    requires Legal(c, s, a) && Legal(c, Exec(c, s, a), b)
    ensures Legal(c, s, a + b) && Exec(c, s, a + b) == Exec(c, Exec(c, s, a), b)
    decreases |a|
  {
    if a == [] {
      assert a + b == b;
    } else {
      assert (a + b)[1..] == a[1..] + b;
      Concat(c, Do(c, s, a[0]), a[1..], b);
    }
  }

  /** Extends a legal run by one enabled action. */
  lemma Then(c: Config, s: State, acts: seq<Action>, a: Action) returns (next: seq<Action>)
    requires Legal(c, s, acts) && Enabled(c, Exec(c, s, acts), a)
    ensures next == acts + [a]
    ensures Legal(c, s, next) && Exec(c, s, next) == Do(c, Exec(c, s, acts), a)
  {
    next := acts + [a];
    var t := Exec(c, s, acts);
    assert [a][1..] == [];
    assert Legal(c, Do(c, t, a), []);
    assert Legal(c, t, [a]) && Exec(c, t, [a]) == Do(c, t, a);
    Concat(c, s, acts, [a]);
  }

  lemma InitInv(c: Config)
    ensures Inv(c, INIT)
  {
  }

  lemma Reachable(c: Config, acts: seq<Action>)
    requires Legal(c, INIT, acts)
    ensures JobsInv(c, Exec(c, INIT, acts))
    ensures Sound(c) ==> Inv(c, Exec(c, INIT, acts))
  {
    InitInv(c);
    RunKeepsJobs(c, INIT, acts);
    if Sound(c) {
      RunKeepsInv(c, INIT, acts);
    }
  }

  // ------------------------------------------------------------ mutual exclusion

  lemma SectionHoldsEveryHost(c: Config, now: nat, job: Job, host: Host)
    requires JobInv(c, now, job) && InSection(job) && Touches(job.task, host)
    ensures Holds(job, host)
  {
  }

  ghost predicate Exclusive(s: State) {
    forall i, j, host ::
      i in s.jobs && j in s.jobs && i != j && InSection(s.jobs[i]) && InSection(s.jobs[j])
      && Touches(s.jobs[i].task, host)
      ==> !Touches(s.jobs[j].task, host)
  }

  lemma OneHolder(c: Config, s: State, i: JobId, j: JobId, host: Host)
    requires Inv(c, s) && i in s.jobs && j in s.jobs
    requires Holds(s.jobs[i], host) && Holds(s.jobs[j], host)
    ensures i == j
  {
    assert Backed(c, s, i, host) && Backed(c, s, j, host);
  }

  lemma InvExcludes(c: Config, s: State)
    requires Inv(c, s)
    ensures Exclusive(s)
  {
    forall i, j, host | i in s.jobs && j in s.jobs && i != j && InSection(s.jobs[i]) && InSection(s.jobs[j])
                        && Touches(s.jobs[i].task, host)
      ensures !Touches(s.jobs[j].task, host)
    {
      assert JobInv(c, s.now, s.jobs[i]) && JobInv(c, s.now, s.jobs[j]);
      SectionHoldsEveryHost(c, s.now, s.jobs[i], host);
      if Touches(s.jobs[j].task, host) {
        SectionHoldsEveryHost(c, s.now, s.jobs[j], host);
        OneHolder(c, s, i, j, host);
      }
    }
  }

  /** A new backup whose host is free gets to its work section at once. */
  lemma BackupGetsToWork(c: Config, s: State, id: JobId, host: Host) returns (acts: seq<Action>)
    requires c.limit > 0 && id !in s.jobs && Free(s.locks, host, s.now)
    ensures Legal(c, s, acts)
    ensures var t := Exec(c, s, acts);
            var key := Key(Token(id, 1), s.now + Effective(c.lockTtl));
            t == With(s.(locks := s.locks[host := key]), id, AtWork(host, s.now))
  {
    acts := Arrives(c, s, id, Backup(host));
    var base, job := s, Delivered(NewJob(Backup(host)), s.now);
    acts, job := Steps(c, s, acts, base, id, job, Go);
    acts, base, job := Tries(c, s, acts, base, id, job);
    acts, job := Steps(c, s, acts, base, id, job, Go);
    acts, job := Steps(c, s, acts, base, id, job, Go);
  }

  /** A backup in its first delivery that has just begun its work. */
  function AtWork(host: Host, now: nat): Job {
    NewJob(Backup(host)).(life := Life(Running, Some(now), None), mail := Live(Working, now),
    past := NOTHING.(deliveries := 1, runs := 1, grabs := 1))
  }

  function Delivered(job: Job, now: nat): Job {
    job.(mail := Live(Look, now), past := job.past.(deliveries := job.past.deliveries + 1))
  }

  /** A new job whose message is delivered. */
  lemma Arrives(c: Config, s: State, id: JobId, t: Task) returns (acts: seq<Action>)
    requires c.limit > 0 && id !in s.jobs
    ensures Legal(c, s, acts) && Exec(c, s, acts) == With(s, id, Delivered(NewJob(t), s.now))
    ensures acts == [Create(id, t), Deliver(id)]
  {
    acts := Then(c, s, [], Create(id, t));
    acts := Then(c, s, acts, Deliver(id));
  }

  /** One worker step that leaves the lock table alone, seen from a base state that differs only in this job. */
  lemma Steps(c: Config, s: State, acts: seq<Action>, base: State, id: JobId, job: Job, ch: Choice)
    returns (next: seq<Action>, stepped: Job)
    requires Legal(c, s, acts) && Exec(c, s, acts) == With(base, id, job)
    requires Allowed(job, ch) && !Trying(job)
    requires !job.mail.pc.BackingOff? && (job.mail.pc.Leaving? ==> job.mail.pc.left == 0)
    ensures next == acts + [Work(id, ch)] && stepped == Stepped(job, ch, false, base.now)
    ensures Legal(c, s, next) && Exec(c, s, next) == With(base, id, stepped)
  {
    next := Then(c, s, acts, Work(id, ch));
    stepped := Stepped(job, ch, false, base.now);
  }

  /** One acquire, seen from the same base state: the key is taken when it is free. */
  lemma Tries(c: Config, s: State, acts: seq<Action>, base: State, id: JobId, job: Job)
    returns (next: seq<Action>, after: State, tried: Job)
    requires Legal(c, s, acts) && Exec(c, s, acts) == With(base, id, job)
    requires Trying(job)
    ensures var free := Free(base.locks, NextKey(job), base.now);
            && after == (if free then
                          base.(locks := base.locks[NextKey(job) :=
                                           Key(Token(id, job.past.deliveries), base.now + Effective(c.lockTtl))])
                        else base)
            && tried == Stepped(job, Go, free, base.now)
    ensures next == acts + [Work(id, Go)] && Legal(c, s, next) && Exec(c, s, next) == With(after, id, tried)
  {
    var free := Free(base.locks, NextKey(job), base.now);
    next := Then(c, s, acts, Work(id, Go));
    after := if free then
      base.(locks := base.locks[NextKey(job) := Key(Token(id, job.past.deliveries), base.now + Effective(c.lockTtl))])
    else base;
    tried := Stepped(job, Go, free, base.now);
  }

  /** When a task may outlive its lock, two backups of one host can be at work together. */
  lemma LongTaskOverlaps(c: Config) returns (acts: seq<Action>)
    requires !Sound(c)
    ensures Legal(c, INIT, acts) && !Exclusive(Exec(c, INIT, acts))
  {
    var first := BackupGetsToWork(c, INIT, 0, 0);
    var s := Exec(c, INIT, first);
    first := Then(c, INIT, first, Tick(Effective(c.lockTtl)));
    s := Exec(c, INIT, first);
    var second := BackupGetsToWork(c, s, 1, 0);
    acts := first + second;
    Concat(c, INIT, first, second);
    var t := Exec(c, INIT, acts);
    assert InSection(t.jobs[0]) && InSection(t.jobs[1]) && Touches(t.jobs[0].task, 0) && Touches(t.jobs[1].task, 0);
  }

  /** Mutual exclusion holds over every run exactly when a lock lasts as long as a task may run. */
  lemma MutualExclusionIff(c: Config)
    ensures (forall acts :: Legal(c, INIT, acts) ==> Exclusive(Exec(c, INIT, acts)))
            <==> c.limit <= Effective(c.lockTtl)
  {
    if Sound(c) {
      forall acts | Legal(c, INIT, acts)
        ensures Exclusive(Exec(c, INIT, acts))
      {
        Reachable(c, acts);
        InvExcludes(c, Exec(c, INIT, acts));
      }
    } else {
      var acts := LongTaskOverlaps(c);
      assert Legal(c, INIT, acts);
    }
  }

  /** The shipped limits, 7200 seconds both, meet the condition with no second to spare. */
  lemma DefaultsAreSound()
    ensures TASK_TIME_LIMIT == 7200 && DEFAULT_TTL == 7200 && Sound(Config(TASK_TIME_LIMIT, DEFAULT_TTL))
    ensures !Sound(Config(TASK_TIME_LIMIT, DEFAULT_TTL - 1)) && !Sound(Config(31, 0)) && Sound(Config(30, 0))
  {
  }

  // ------------------------------------------------------------ lock conservation

  /**
    In every reachable state a stored key belongs to a live delivery that holds
    it or to one that died, and a job's ledger balances. When locks outlast
    deliveries, the key of every holder is also in force under its own token.
  */
  lemma LockConservation(c: Config, acts: seq<Action>)
    requires Legal(c, INIT, acts)
    ensures var s := Exec(c, INIT, acts);
            && (Sound(c) ==>
                  forall id, host :: id in s.jobs && Holds(s.jobs[id], host) ==>
                                       host in InForce(s.locks, s.now) && s.locks[host].token == TokenOf(s, id))
            && (forall host :: host in s.locks ==>
                                 var token := s.locks[host].token;
                                 && token.holder in s.jobs
                                 && (token.serial in s.jobs[token.holder].past.killed
                                     || (token == TokenOf(s, token.holder) && Holds(s.jobs[token.holder], host))))
            && (forall id :: id in s.jobs ==>
                               var past := s.jobs[id].past;
                               past.grabs == past.drops + past.orphaned + HeldCount(s.jobs[id]))
  {
    Reachable(c, acts);
    var s := Exec(c, INIT, acts);
    forall id, host | Sound(c) && id in s.jobs && Holds(s.jobs[id], host)
      ensures host in InForce(s.locks, s.now) && s.locks[host].token == TokenOf(s, id)
    {
      assert JobInv(c, s.now, s.jobs[id]) && Backed(c, s, id, host);
    }
    forall host | host in s.locks
      ensures var token := s.locks[host].token;
              && token.holder in s.jobs
              && (token.serial in s.jobs[token.holder].past.killed
                  || (token == TokenOf(s, token.holder) && Holds(s.jobs[token.holder], host)))
    {
      assert Accounted(s, host);
    }
    forall id | id in s.jobs
      ensures s.jobs[id].past.grabs == s.jobs[id].past.drops + s.jobs[id].past.orphaned + HeldCount(s.jobs[id])
    {
      assert JobInv(c, s.now, s.jobs[id]);
    }
  }

  /**
    A delivery that ended in any way but a death has left no key: not by a
    return, not by a lock wait, not by an exception, not by the retry after
    work. So no waiting job holds a host.
  */
  lemma ExitLeavesNoKey(c: Config, acts: seq<Action>, id: JobId)
    requires Legal(c, INIT, acts)
    requires var s := Exec(c, INIT, acts);
             id in s.jobs && !s.jobs[id].mail.Live? && s.jobs[id].past.deliveries !in s.jobs[id].past.killed
    ensures var s := Exec(c, INIT, acts);
            forall host :: host in s.locks ==> s.locks[host].token != TokenOf(s, id)
  {
    Reachable(c, acts);
    var s := Exec(c, INIT, acts);
    forall host | host in s.locks
      ensures s.locks[host].token != TokenOf(s, id)
    {
      assert Accounted(s, host);
    }
  }

  lemma KeyHasOwner(s: State, host: Host)
    requires host in s.locks && Accounted(s, host)
    ensures var holder := s.locks[host].token.holder;
            holder in s.jobs && (s.jobs[holder].mail.Live? || s.jobs[holder].past.killed != {})
  {
  }

  predicate Quiet(s: State) {
    forall id :: id in s.jobs ==> !s.jobs[id].mail.Live? && s.jobs[id].past.killed == {}
  }

  /** With no delivery live and none ever killed, every host is free. */
  lemma QuietMeansFree(c: Config, acts: seq<Action>)
    requires Legal(c, INIT, acts) && Quiet(Exec(c, INIT, acts))
    ensures Exec(c, INIT, acts).locks == map[]
  {
    Reachable(c, acts);
    var s := Exec(c, INIT, acts);
    if s.locks != map[] {
      assert s.locks.Keys != {};
      var host :| host in s.locks;
      KeyHasOwner(s, host);
    }
  }

  /** What the inside of one delivery leaves alone. */
  predicate SameDelivery(job: Job, done: Job) {
    && done.task == job.task && done.retries == job.retries && done.past.waited == job.past.waited
    && done.past.deliveries == job.past.deliveries
    && job.mail.Live? && done.mail.Live? && done.mail.since == job.mail.since
  }

  /** The first key of two given back, because the second is taken. */
  lemma BacksOff(c: Config, s: State, acts: seq<Action>, base: State, id: JobId, job: Job)
    returns (next: seq<Action>, after: State, done: Job)
    requires Legal(c, s, acts) && Exec(c, s, acts) == With(base, id, job)
    requires job.mail.Live? && job.mail.pc.BackingOff?
    ensures after == base.(locks := Released(base.locks, Wanted(job.task)[0], Token(id, job.past.deliveries)))
    ensures SameDelivery(job, done) && done.life == job.life && done.mail.pc.Busy?
    ensures next == acts + [Work(id, Go)] && Legal(c, s, next) && Exec(c, s, next) == With(after, id, done)
  {
    next := Then(c, s, acts, Work(id, Go));
    after := base.(locks := Released(base.locks, Wanted(job.task)[0], Token(id, job.past.deliveries)));
    done := Stepped(job, Go, false, base.now);
  }

  /**
    Left alone, the key-by-key acquire of a Move does what the dual lock call
    promises: both keys when both hosts are free, and otherwise no change to
    the keys in force.
  */
  lemma AcquireRefinesDualLock(c: Config, s: State, acts: seq<Action>, base: State, id: JobId, job: Job)
    returns (next: seq<Action>, after: State, done: Job)
    requires Legal(c, s, acts) && Exec(c, s, acts) == With(base, id, job)
    requires job.mail.Live? && job.mail.pc == Acquiring(0) && job.task.Move? && job.task.source != job.task.dest
    ensures acts <= next && (forall k :: |acts| <= k < |next| ==> next[k] == Work(id, Go))
    ensures Legal(c, s, next) && Exec(c, s, next) == With(after, id, done)
    ensures SameDelivery(job, done) && done.life == job.life
    ensures var task, token := job.task, Token(id, job.past.deliveries);
            var until := base.now + Effective(c.lockTtl);
            && after == base.(locks := after.locks)
            && if Free(base.locks, task.source, base.now) && Free(base.locks, task.dest, base.now) then
                 && done.mail.pc == Marking
                 && after.locks == BothTaken(base.locks, task.source, token, task.dest, token, until)
               else
                 done.mail.pc == Busy && InForce(after.locks, base.now) == InForce(base.locks, base.now)
  {
    hide Legal, Exec, With, InForce;
    var token, until := Token(id, job.past.deliveries), base.now + Effective(c.lockTtl);
    var first, second := Wanted(job.task)[0], Wanted(job.task)[1];
    next, after, done := Tries(c, s, acts, base, id, job);
    if Free(base.locks, first, base.now) {
      next, after, done := Tries(c, s, next, after, id, done);
      if Free(base.locks, second, base.now) {
        assert BothTaken(base.locks, first, token, second, token, until)
            == BothTaken(base.locks, second, token, first, token, until);
      } else {
        next, after, done := BacksOff(c, s, next, after, id, done);
        ReleaseUndoesAcquire(base.locks, first, token, base.now, until);
      }
    }
  }

  // ----------------------------------------------------------------- run counts

  /**
    A backup runs at most once plus once for each redelivery after a death. It
    is delivered at most 182 times plus those redeliveries, and all its
    countdowns together stay within 180 lock waits and one retry after work.
  */
  lemma BackupBounds(c: Config, acts: seq<Action>, id: JobId)
    requires Legal(c, INIT, acts)
    requires id in Exec(c, INIT, acts).jobs && Exec(c, INIT, acts).jobs[id].task.Backup?
    ensures var job := Exec(c, INIT, acts).jobs[id];
            && job.past.runs <= 1 + job.past.redeliveries
            && job.past.deliveries <= 182 + job.past.redeliveries
            && job.past.waited <= 180 * 20 + 30
  {
    Reachable(c, acts);
    assert JobInv(c, Exec(c, INIT, acts).now, Exec(c, INIT, acts).jobs[id]);
  }

  /** Success is never shown for work that failed, raised, or did not happen. */
  lemma SuccessIsEarned(c: Config, acts: seq<Action>, id: JobId)
    requires Legal(c, INIT, acts)
    requires id in Exec(c, INIT, acts).jobs && Exec(c, INIT, acts).jobs[id].life.status.Success?
    ensures Exec(c, INIT, acts).jobs[id].past.won && Exec(c, INIT, acts).jobs[id].past.runs > 0
  {
    Reachable(c, acts);
    assert JobInv(c, Exec(c, INIT, acts).now, Exec(c, INIT, acts).jobs[id]);
  }

  /**
    And success that was earned is shown: where the terminal status is written
    after the work, an open row gets Success if the work returned with success
    and Failed if not.
  */
  lemma EarnedSuccessIsShown(c: Config, acts: seq<Action>, id: JobId, ch: Choice)
    requires Legal(c, INIT, acts)
    requires var s := Exec(c, INIT, acts);
             && Enabled(c, s, Work(id, ch)) && s.jobs[id].mail.pc.Recording? && s.jobs[id].mail.pc.keys
             && Active(s.jobs[id].life.status)
    ensures var s := Exec(c, INIT, acts);
            var job, after := s.jobs[id], Do(c, s, Work(id, ch)).jobs[id];
            && job.past.runs > 0
            && after.life == Life(if job.past.won then Success else Failed, job.life.startedAt, Some(s.now))
  {
    Reachable(c, acts);
    var s := Exec(c, INIT, acts);
    assert JobInv(c, s.now, s.jobs[id]);
    RecordedShows(c, s.now, s.jobs[id], ch, KeyFree(s, s.jobs[id]));
    hide JobInv;
  }

  lemma RecordedShows(c: Config, now: nat, job: Job, ch: Choice, free: bool)
    requires JobInv(c, now, job) && Allowed(job, ch) && job.mail.pc.Recording? && job.mail.pc.keys
    requires Active(job.life.status)
    ensures job.past.runs > 0
    ensures Stepped(job, ch, free, now).life ==
            Life(if job.past.won then Success else Failed, job.life.startedAt, Some(now))
  {
    WritesOfAnOpenRow(job.life, job.mail.pc.st, now);
    hide Advanced, Finished, Tally, Ledger, BackupRuns, MoveRuns, GiveBack;
  }

  /**
    What the events around the workers write: a cancel and a stop make the row
    cancelled, the job service makes it failed, and a flush makes a pending one
    running. None of them touches anything else.
  */
  lemma EventsWriteOneRow(c: Config, s: State, a: Action, id: JobId)
    requires Enabled(c, s, a) && a in {Action.Cancel(id), Action.Halt(id), Action.Fail(id), Action.Flush(id)}
    ensures var l := s.jobs[id].life;
            Do(c, s, a) == With(s, id, s.jobs[id].(life :=
              if a.Flush? then
                if Terminal(l.status) then l else Life(Running, Some(l.startedAt.GetOr(s.now)), l.finishedAt)
              else Life(if a.Fail? then Failed else Cancelled, l.startedAt, Some(s.now))))
    ensures a.Flush? ==> InSection(s.jobs[id])
  {
  }

  /** When they may strike. */
  lemma EventsAreEnabledIff(c: Config, s: State, id: JobId, acked: bool)
    requires id in s.jobs
    ensures var job := s.jobs[id];
            var open := job.life.status == Pending || job.life.status == Running;
            && (Enabled(c, s, Action.Cancel(id)) <==> open)
            && (Enabled(c, s, Action.Fail(id)) <==> open)
            && (Enabled(c, s, Action.Halt(id)) <==> job.task.Backup?)
            && (Enabled(c, s, Kill(id, acked)) <==> job.mail.Live?)
            && (Enabled(c, s, Discard(id)) <==> job.mail == Queued && !open && job.life.status != Success)
            && (Enabled(c, s, Redeliver(id)) <==> job.mail == Lost)
  {
  }

  /** A backup whose host is taken and whose row was closed meanwhile may read that and leave for good. */
  lemma ClosedWaiterMayLeave(job: Job, now: nat)
    requires job.task.Backup? && job.mail.Live? && job.mail.pc.Busy? && Terminal(job.life.status)
    ensures Allowed(job, Stop)
    ensures var left := Stepped(job, Stop, false, now);
            Allowed(left, Go) && Stepped(left, Go, false, now) == job.(mail := Acked)
  {
  }

  /** An error after a backup's terminal write fails its row, a successful one included, unless it was cancelled. */
  lemma LateErrorFailsTheRow(job: Job, transient: bool, now: nat)
    requires job.task.Backup? && job.mail.Live? && job.mail.pc.Aftermath? && !job.life.status.Cancelled?
    ensures Allowed(job, Raised(transient))
    ensures var handling := Stepped(job, Raised(transient), false, now);
            && Allowed(handling, Go)
            && Stepped(handling, Go, false, now) ==
               job.(life := Life(Failed, job.life.startedAt, Some(now)),
                    mail := Live(Leaving(1, if transient then Again else Ack), job.mail.since))
  {
  }

  /** A backup flushes its progress in its section, from the start of the work to the aftermath. */
  lemma FlushIsEnabledIff(c: Config, s: State, id: JobId)
    ensures Enabled(c, s, Action.Flush(id)) <==>
            && id in s.jobs && s.jobs[id].task.Backup? && InSection(s.jobs[id])
            && s.jobs[id].mail.pc !in {Marking, Marked, Aftermath}
  {
  }

  /** Between the return of the work and that write nothing but a cancel stands in the way. */
  lemma ReturnedWorkIsRecorded(job: Job, ok: bool, now: nat)
    requires job.mail.Live? && job.mail.pc.Working?
    ensures var returned := Stepped(job, Returned(ok), false, now);
            && returned.past.won == ok && returned.life == job.life
            && (job.task.Move? ==> returned.mail.pc == Recording(if ok then Success else Failed, true))
            && (job.task.Backup? && !job.life.status.Cancelled? ==>
                  Stepped(returned, Go, false, now).mail.pc == Recording(if ok then Success else Failed, true))
  {
  }

  /** A delivery that comes from the retry after work finds a terminal row and does not work again. */
  lemma RetryAfterWorkIsSkipped(c: Config, acts: seq<Action>, id: JobId, ch: Choice)
    requires Legal(c, INIT, acts)
    requires var s := Exec(c, INIT, acts);
             && Enabled(c, s, Work(id, ch)) && ch.Go? && s.jobs[id].mail.pc.Look? && s.jobs[id].past.transients == 1
    ensures var s := Exec(c, INIT, acts);
            Do(c, s, Work(id, ch)).jobs[id].mail.pc == Leaving(0, Ack)
  {
    Reachable(c, acts);
    assert JobInv(c, Exec(c, INIT, acts).now, Exec(c, INIT, acts).jobs[id]);
  }

  /** A Move, undo or recover enters its work section at most once, deaths and redeliveries included. */
  lemma MoveRunsAtMostOnce(c: Config, acts: seq<Action>, id: JobId)
    requires Legal(c, INIT, acts)
    requires id in Exec(c, INIT, acts).jobs && Exec(c, INIT, acts).jobs[id].task.Move?
    ensures var job := Exec(c, INIT, acts).jobs[id];
            && job.past.runs <= 1
            && (job.life.status.Pending? ==> job.past.runs == 0)
            && job.past.deliveries <= 181 + job.past.redeliveries
  {
    Reachable(c, acts);
    assert JobInv(c, Exec(c, INIT, acts).now, Exec(c, INIT, acts).jobs[id]);
  }

  // --------------------------------------------------------- the bounds are attained

  /** One lock wait of a pending backup whose host is taken. */
  lemma WaitsOnce(c: Config, s: State, acts: seq<Action>, base: State, id: JobId, job: Job)
    returns (next: seq<Action>, done: Job)
    requires c.limit > 0 && Legal(c, s, acts) && Exec(c, s, acts) == With(base, id, job)
    requires job.task.Backup? && job.mail.Queued? && job.life == FRESH && job.retries < 180
    requires !Free(base.locks, job.task.host, base.now)
    ensures Legal(c, s, next) && Exec(c, s, next) == With(base, id, done)
    ensures done == job.(retries := job.retries + 1,
                         past := job.past.(deliveries := job.past.deliveries + 1, waited := job.past.waited + 20))
  {
    next := Then(c, s, acts, Deliver(id));
    done := Delivered(job, base.now);
    assert Exec(c, s, next) == With(base, id, done);
    hide Legal, Exec, With, GiveBack;
    next, done := Steps(c, s, next, base, id, done, Go);
    var after: State;
    next, after, done := Tries(c, s, next, base, id, done);
    next, done := BusyToQueue(c, s, next, base, id, done);
  }

  /** The three steps of a backup whose host was taken: on to the wait, the waiting line, the retry. */
  lemma BusyToQueue(c: Config, s: State, acts: seq<Action>, base: State, id: JobId, job: Job)
    returns (next: seq<Action>, done: Job)
    requires Legal(c, s, acts) && Exec(c, s, acts) == With(base, id, job)
    requires job.mail.Live? && job.mail.pc.Busy? && job.life == FRESH && job.retries < 180
    ensures Legal(c, s, next) && Exec(c, s, next) == With(base, id, done)
    ensures done ==
            job.(mail := Queued, retries := job.retries + 1, past := job.past.(waited := job.past.waited + 20))
  {
    hide Legal, Exec, With, GiveBack;
    next, done := Steps(c, s, acts, base, id, job, Go);
    next, done := Steps(c, s, next, base, id, done, Go);
    next, done := Steps(c, s, next, base, id, done, Go);
  }

  lemma {:induction false} WaitsOn(c: Config, s: State, acts: seq<Action>, base: State, id: JobId, job: Job, n: nat)
    returns (next: seq<Action>, done: Job)
    requires c.limit > 0 && Legal(c, s, acts) && Exec(c, s, acts) == With(base, id, job)
    requires job.task.Backup? && job.mail.Queued? && job.life == FRESH && job.retries + n <= 180
    requires !Free(base.locks, job.task.host, base.now)
    ensures Legal(c, s, next) && Exec(c, s, next) == With(base, id, done)
    ensures done == job.(retries := job.retries + n,
                         past := job.past.(deliveries := job.past.deliveries + n, waited := job.past.waited + 20 * n))
    decreases n
  {
    next, done := acts, job;
    if n > 0 {
      next, done := WaitsOnce(c, s, acts, base, id, job);
      next, done := WaitsOn(c, s, next, base, id, done, n - 1);
    }
  }

  /** A backup that died at work and left its key in force. */
  lemma LeavesItsKey(c: Config) returns (acts: seq<Action>, base: State)
    requires c.limit > 0
    ensures Legal(c, INIT, acts) && base == Exec(c, INIT, acts)
    ensures base.now == 0 && base.jobs.Keys == {0} && !base.jobs[0].mail.Live?
    ensures base.locks == map[7 := Key(Token(0, 1), Effective(c.lockTtl))]
  {
    acts := BackupGetsToWork(c, INIT, 0, 7);
    acts := Then(c, INIT, acts, Kill(0, true));
    base := Exec(c, INIT, acts);
  }

  /** 180 lock waits, 3600 seconds of countdown, and the row still pending: the bound on waits is attained. */
  lemma WaitsAnHour(c: Config) returns (acts: seq<Action>, base: State)
    requires c.limit > 0
    ensures Legal(c, INIT, acts) && base.jobs.Keys == {0} && !base.jobs[0].mail.Live? && base.now == 0
    ensures base.locks == map[7 := Key(Token(0, 1), Effective(c.lockTtl))]
    ensures Exec(c, INIT, acts) ==
            With(base, 1, NewJob(Backup(7)).(retries := 180, past := NOTHING.(deliveries := 180, waited := 3600)))
  {
    acts, base := LeavesItsKey(c);
    acts := Then(c, INIT, acts, Create(1, Backup(7)));
    var job: Job;
    acts, job := WaitsOn(c, INIT, acts, base, 1, NewJob(Backup(7)), 180);
  }

  /**
    All bounds of a backup are attained together: after 180 waits its host is
    free, its work raises a transient error, and the retry of that is the 182nd
    delivery, after 3630 seconds of countdown.
  */
  lemma BackupBoundsAreAttained(c: Config) returns (acts: seq<Action>)
    requires c.limit > 0
    ensures Legal(c, INIT, acts) && 1 in Exec(c, INIT, acts).jobs
    ensures var job := Exec(c, INIT, acts).jobs[1];
            && job.task == Backup(7) && job.past.redeliveries == 0 && job.past.runs == 1
            && job.past.deliveries == 182 && job.past.waited == 3630 && job.life.status == Failed
  {
    var base: State;
    acts, base := WaitsAnHour(c);
    var job := NewJob(Backup(7)).(retries := 180, past := NOTHING.(deliveries := 180, waited := 3600));
    acts := Then(c, INIT, acts, Tick(Effective(c.lockTtl)));
    base := base.(now := base.now + Effective(c.lockTtl));
    acts := Then(c, INIT, acts, Deliver(1));
    job := Delivered(job, base.now);
    assert Exec(c, INIT, acts) == With(base, 1, job);
    hide Legal, Exec, With;
    acts, job := Steps(c, INIT, acts, base, 1, job, Go);
    acts, base, job := Tries(c, INIT, acts, base, 1, job);
    acts, job := Steps(c, INIT, acts, base, 1, job, Go);
    acts, job := Steps(c, INIT, acts, base, 1, job, Go);
    acts := RaisesAndReturns(c, acts, base, job);
  }

  /** From the work of that backup to its last delivery. */
  lemma RaisesAndReturns(c: Config, before: seq<Action>, base: State, at: Job) returns (acts: seq<Action>)
    requires c.limit > 0 && Legal(c, INIT, before) && Exec(c, INIT, before) == With(base, 1, at)
    requires at.task == Backup(7) && at.mail.Live? && at.mail.pc.Working? && at.life.status.Running?
    requires at.past.deliveries == 181 && at.past.waited == 3600 && at.past.runs == 1 && at.past.redeliveries == 0
    ensures Legal(c, INIT, acts) && 1 in Exec(c, INIT, acts).jobs
    ensures var job := Exec(c, INIT, acts).jobs[1];
            && job.task == Backup(7) && job.past.redeliveries == 0 && job.past.runs == 1
            && job.past.deliveries == 182 && job.past.waited == 3630 && job.life.status == Failed
  {
    var job, after := at, base;
    hide Legal, Exec, With;
    acts, job := Steps(c, INIT, before, base, 1, job, Raised(true));
    acts, job := Steps(c, INIT, acts, base, 1, job, Go);
    assert job.mail.pc == Leaving(1, Again);
    hide GiveBack, Advanced;
    acts, after, job := GivesBackOne(c, acts, base, job);
    acts, job := Steps(c, INIT, acts, after, 1, job, Go);
    acts, job := Steps(c, INIT, acts, after, 1, job, Go);
    acts := DeliversAgain(c, acts, after, job);
  }

  lemma GivesBackOne(c: Config, before: seq<Action>, base: State, job: Job)
    returns (acts: seq<Action>, after: State, done: Job)
    requires Legal(c, INIT, before) && Exec(c, INIT, before) == With(base, 1, job)
    requires job.task == Backup(7) && job.mail.Live? && job.mail.pc == Leaving(1, Again)
    ensures done == Left(job) && Legal(c, INIT, acts) && Exec(c, INIT, acts) == With(after, 1, done)
  {
    acts := Then(c, INIT, before, Work(1, Go));
    after := base.(locks := Released(base.locks, 7, TokenOf(With(base, 1, job), 1)));
    done := Left(job);
    hide Released;
  }

  lemma DeliversAgain(c: Config, before: seq<Action>, base: State, job: Job) returns (acts: seq<Action>)
    requires c.limit > 0 && Legal(c, INIT, before) && Exec(c, INIT, before) == With(base, 1, job) && job.mail.Queued?
    ensures Legal(c, INIT, acts) && 1 in Exec(c, INIT, acts).jobs
    ensures Exec(c, INIT, acts).jobs[1] == Delivered(job, base.now)
  {
    acts := Then(c, INIT, before, Deliver(1));
  }

  // ----------------------------------------------------------- rank of the status

  function Rank(st: Status): nat {
    match st
    case Pending => 0
    case Running => 1
    case _ => 2
  }

  /**
    The two writes that take a row back. A Move about to work overwrites a
    cancel, or a failure set by the job service, that came after its first
    read. A backup redelivered after a death finds its host taken and writes
    "pending" over "running".
  */
  predicate Overwrites(job: Job) {
    && job.mail.Live?
    && (|| (job.task.Move? && job.mail.pc.Marking? && Terminal(job.life.status))
        || (job.task.Backup? && job.mail.pc.MarkWaiting? && job.life.status.Running?))
  }

  predicate TakesBack(s: State, a: Action, id: JobId) {
    a.Work? && a.id == id && id in s.jobs && Overwrites(s.jobs[id])
  }

  lemma StepRank(c: Config, now: nat, job: Job, ch: Choice, free: bool)
    requires JobInv(c, now, job) && Allowed(job, ch)
    ensures var l := Stepped(job, ch, free, now).life;
            && (Rank(l.status) < Rank(job.life.status) <==> Overwrites(job))
            && (job.life.status.Cancelled? ==> (l.status.Cancelled? <==> !Overwrites(job)))
  {
    hide Wanted, GiveBack, Tally, Ledger, BackupRuns, HeldCount;
  }

  lemma RankFallsIff(c: Config, s: State, a: Action, id: JobId)
    requires JobsInv(c, s) && Enabled(c, s, a) && id in s.jobs
    ensures Rank(Do(c, s, a).jobs[id].life.status) < Rank(s.jobs[id].life.status) <==> TakesBack(s, a, id)
    ensures s.jobs[id].life.status.Cancelled? ==>
              (Do(c, s, a).jobs[id].life.status.Cancelled? <==> !TakesBack(s, a, id))
  {
    hide Wanted, GiveBack, LocksAfter, HeldCount, Stepped;
    assert JobInv(c, s.now, s.jobs[id]);
    if a.Work? && a.id == id {
      StepRank(c, s.now, s.jobs[id], a.ch, KeyFree(s, s.jobs[id]));
    }
  }

  /** No state along the run has a lower rank for the job than the state before it. */
  predicate RankKept(c: Config, s: State, acts: seq<Action>, id: JobId)
    requires Legal(c, s, acts) && id in s.jobs
    decreases |acts|
  {
    acts != [] ==>
      var t := Do(c, s, acts[0]);
      id in t.jobs && Rank(s.jobs[id].life.status) <= Rank(t.jobs[id].life.status) && RankKept(c, t, acts[1..], id)
  }

  predicate NeverTakesBack(c: Config, s: State, acts: seq<Action>, id: JobId)
    requires Legal(c, s, acts)
    decreases |acts|
  {
    acts != [] ==> !TakesBack(s, acts[0], id) && NeverTakesBack(c, Do(c, s, acts[0]), acts[1..], id)
  }

  /** Over a whole run the status rank never falls exactly when neither of those writes happens. */
  lemma {:induction false} RankNeverFallsIff(c: Config, s: State, acts: seq<Action>, id: JobId)
    requires JobsInv(c, s) && Legal(c, s, acts) && id in s.jobs
    ensures RankKept(c, s, acts, id) <==> NeverTakesBack(c, s, acts, id)
    decreases |acts|
  {
    if acts != [] {
      RankFallsIff(c, s, acts[0], id);
      StepKeepsJobs(c, s, acts[0]);
      RankNeverFallsIff(c, Do(c, s, acts[0]), acts[1..], id);
    }
  }

  /** The cancel that a Move overrides: it lands after the first read, and the Move runs. */
  lemma CancelledMoveStillRuns(c: Config) returns (acts: seq<Action>)
    requires c.limit > 0
    ensures Legal(c, INIT, acts) && Action.Cancel(0) in acts && 0 in Exec(c, INIT, acts).jobs
    ensures var job := Exec(c, INIT, acts).jobs[0];
            job.task == Move(1, 2) && job.past.runs == 1 && job.life.status == Running && job.life.finishedAt.Some?
  {
    acts := Arrives(c, INIT, 0, Move(1, 2));
    var job := Delivered(NewJob(Move(1, 2)), 0);
    acts, job := Steps(c, INIT, acts, INIT, 0, job, Go);
    acts := Then(c, INIT, acts, Action.Cancel(0));
    job := job.(life := Stopped(job.life, 0));
    assert Exec(c, INIT, acts) == With(INIT, 0, job);
    var base: State;
    acts, base, job := Tries(c, INIT, acts, INIT, 0, job);
    acts, base, job := Tries(c, INIT, acts, base, 0, job);
    acts, job := Steps(c, INIT, acts, base, 0, job, Go);
  }

  /**
    The other write: a backup killed at work is redelivered while its own key
    is still in force, and its row goes from "running" back to "pending".
  */
  lemma KilledBackupFallsBack(c: Config) returns (acts: seq<Action>)
    requires c.limit > 0
    ensures Legal(c, INIT, acts) && 0 in Exec(c, INIT, acts).jobs
    ensures var job := Exec(c, INIT, acts).jobs[0];
            job.task == Backup(7) && job.past.runs == 1 && job.life.status == Pending && job.life.startedAt.Some?
  {
    acts := BackupGetsToWork(c, INIT, 0, 7);
    var base := INIT.(locks := INIT.locks[7 := Key(Token(0, 1), Effective(c.lockTtl))]);
    var job: Job;
    acts, job := ComesBack(c, INIT, acts, base, 0, AtWork(7, 0));
    acts, job := Steps(c, INIT, acts, base, 0, job, Go);
    acts, base, job := Tries(c, INIT, acts, base, 0, job);
    acts, job := Steps(c, INIT, acts, base, 0, job, Go);
    acts, job := Steps(c, INIT, acts, base, 0, job, Go);
  }

  /** The past of a job after a death in its current delivery and a redelivery. */
  function Survived(job: Job): Past {
    job.past.(killed := job.past.killed + {job.past.deliveries}, orphaned := job.past.orphaned + HeldCount(job),
    redeliveries := job.past.redeliveries + 1)
  }

  /** A death, and the next delivery of the same message. */
  lemma ComesBack(c: Config, s: State, acts: seq<Action>, base: State, id: JobId, job: Job)
    returns (next: seq<Action>, back: Job)
    requires c.limit > 0 && Legal(c, s, acts) && Exec(c, s, acts) == With(base, id, job) && job.mail.Live?
    ensures back == Delivered(job.(past := Survived(job)), base.now)
    ensures Legal(c, s, next) && Exec(c, s, next) == With(base, id, back)
  {
    next := Then(c, s, acts, Kill(id, false));
    next := Then(c, s, next, Redeliver(id));
    next := Then(c, s, next, Deliver(id));
    back := Delivered(job.(past := Survived(job)), base.now);
  }

  // ---------------------------------------------------------------- termination

  function PcRank(pc: Pc): nat {
    match pc
    case Look => 20
    case Acquiring(got) => if got == 0 then 19 else 18
    case BackingOff => 17
    case Busy => 16
    case MarkWaiting => 15
    case Marking => 14
    case Marked => 13
    case Working => 12
    case Reviewing(_) => 11
    case Recording(_, _) => 10
    case Aftermath => 9
    case Handling(_, _) => 8
    case Leaving(left, _) => 2 + left
    case Requeuing(_) => 1
  }

  const ROUND := 25

  /** Retries left first, then the place within the delivery. */
  function Measure(job: Job): int {
    (LOCK_MAX_RETRIES + 1 - job.retries) * ROUND +
    match job.mail
    case Queued => 21
    case Live(pc, _) => PcRank(pc)
    case _ => 0
  }

  predicate Own(a: Action, id: JobId) {
    (a.Deliver? || a.Work?) && a.id == id
  }

  lemma StepMeasure(c: Config, s: State, a: Action, id: JobId)
    requires JobsInv(c, s) && Enabled(c, s, a) && id in s.jobs
    ensures 0 <= Measure(s.jobs[id])
    ensures Own(a, id) ==> Measure(Do(c, s, a).jobs[id]) < Measure(s.jobs[id])
    ensures !Own(a, id) && a != Redeliver(id) ==> Measure(Do(c, s, a).jobs[id]) <= Measure(s.jobs[id])
    ensures a == Redeliver(id) ==> Measure(Do(c, s, a).jobs[id]) <= Measure(s.jobs[id]) + 21
  {
    assert JobInv(c, s.now, s.jobs[id]);
    if Own(a, id) && a.Work? {
      OwnStepMeasure(c, s.now, s.jobs[id], a.ch, KeyFree(s, s.jobs[id]));
    }
  }

  lemma OwnStepMeasure(c: Config, now: nat, job: Job, ch: Choice, free: bool)
    requires JobInv(c, now, job) && Allowed(job, ch)
    ensures Measure(Stepped(job, ch, free, now)) < Measure(job)
  {
    SameHosts(job.task);
  }

  /** Deliveries and worker steps of one job in a run, and its redeliveries. */
  function OwnSteps(acts: seq<Action>, id: JobId): nat {
    if acts == [] then 0 else (if Own(acts[0], id) then 1 else 0) + OwnSteps(acts[1..], id)
  }

  function Redeliveries(acts: seq<Action>, id: JobId): nat {
    if acts == [] then 0 else (if acts[0] == Redeliver(id) then 1 else 0) + Redeliveries(acts[1..], id)
  }

  lemma {:induction false} OwnStepsBounded(c: Config, s: State, acts: seq<Action>, id: JobId)
    requires JobsInv(c, s) && Legal(c, s, acts) && id in s.jobs
    ensures id in Exec(c, s, acts).jobs
    ensures OwnSteps(acts, id) <= Measure(s.jobs[id]) + 21 * Redeliveries(acts, id)
    decreases |acts|
  {
    if acts == [] {
      assert JobInv(c, s.now, s.jobs[id]);
    } else {
      StepMeasure(c, s, acts[0], id);
      StepKeepsJobs(c, s, acts[0]);
      OwnStepsBounded(c, Do(c, s, acts[0]), acts[1..], id);
    }
  }

  /** However the other jobs and the world behave, a new job takes at most 4546 steps plus 21 for each redelivery. */
  lemma NewJobTerminates(c: Config, s: State, acts: seq<Action>, id: JobId, t: Task)
    requires JobsInv(c, s) && Legal(c, s, acts) && id in s.jobs && s.jobs[id] == NewJob(t)
    ensures OwnSteps(acts, id) <= 4546 + 21 * Redeliveries(acts, id)
  {
    OwnStepsBounded(c, s, acts, id);
  }

  /** The next step of a job's own worker; there always is one. */
  function OwnNext(s: State, id: JobId): Action
    requires id in s.jobs
  {
    if s.jobs[id].mail.Queued? then Deliver(id)
    else Work(id, if s.jobs[id].mail.Live? && s.jobs[id].mail.pc.Working? then Returned(true) else Go)
  }

  /**
    No waiting for others: from every reachable state a queued or live job
    reaches its acknowledgement by its own steps alone, whoever holds its hosts
    and whether or not they ever give them back.
  */
  lemma {:induction false} DrainsAlone(c: Config, s: State, id: JobId) returns (acts: seq<Action>)
    requires c.limit > 0 && JobsInv(c, s) && id in s.jobs && !s.jobs[id].mail.Lost?
    ensures Legal(c, s, acts) && OwnSteps(acts, id) == |acts|
    ensures id in Exec(c, s, acts).jobs && Exec(c, s, acts).jobs[id].mail.Acked?
    decreases Measure(s.jobs[id])
  {
    acts := [];
    if !s.jobs[id].mail.Acked? {
      var a := OwnNext(s, id);
      StepMeasure(c, s, a, id);
      StepKeepsJobs(c, s, a);
      var rest := DrainsAlone(c, Do(c, s, a), id);
      acts := [a] + rest;
      assert acts[1..] == rest;
    }
  }
}
