/** Results about whole runs of the copy system. */
module CopyRuns {
  import opened Wrappers
  import opened Life
  import opened JobRow
  import opened Copies
  import T = Text

  // ---------------------------------------------------------- one test, two places

  /** Where the destination exists, the body's test and the signal's test agree. */
  lemma TestsAgree(d: Details, destinations: set<int>)
    requires 0 !in destinations
    ensures SignalFollows(d, destinations) <==> BodyFollows(d) && DestinationId(d) in destinations
  {
  }

  lemma SameTests(d: Details, e: Details)
    requires Controls(d) == Controls(e)
    ensures BodyFollows(d) == BodyFollows(e) && DestinationId(d) == DestinationId(e) && Archive(d) == Archive(e)
    ensures DirectDetails(d) == DirectDetails(e)
  {
    SameControlsSameField(d, e, "herder_archive");
    SameControlsSameField(d, e, "direct_after");
    SameControlsSameField(d, e, "direct_host");
    SameControlsSameField(d, e, "destination_id");
    SameControlsSameField(d, e, "scope");
    SameControlsSameField(d, e, "user_id");
  }

  /** Who gets a direct copy: a row that asks for it, names no archive, and is not itself a direct copy. */
  lemma WhoFollows(d: Details, destinations: set<int>, n: int)
    requires Field(d, "destination_id") == Number(n) && n != 0
    ensures Field(d, "direct_after") == Flag(true) && Field(d, "herder_archive") == Null
            && Field(d, "direct_host") == Null ==>
              BodyFollows(d) && (SignalFollows(d, destinations) <==> n in destinations)
    ensures Field(d, "direct_after") != Flag(true) || Field(d, "direct_host") == Flag(true)
            || (Field(d, "herder_archive").Text? && T.Strip(Field(d, "herder_archive").text) != "") ==>
              !BodyFollows(d) && !SignalFollows(d, destinations)
  {
  }

  /** The archive key counts as blank when it is absent, empty, zero or false, or only whitespace. */
  lemma ArchiveIsBlankIff(d: Details)
    ensures Archive(d) == "" <==>
            var v := Field(d, "herder_archive");
            v in {Null, Flag(false), Number(0), Texts([])} || (v.Text? && T.Strip(v.text) == "")
  {
  }

  /** A copy of the parent's destination, scope and user, as a direct push, with no copy after it. */
  predicate IsDirectOf(child: Details, parent: Details) {
    && Field(child, "destination_id") == Field(parent, "destination_id")
    && Field(child, "scope") == (if Field(parent, "scope").Text? then Field(parent, "scope") else Null)
    && Field(child, "user_id") ==
       (if Field(parent, "user_id").Number? || Field(parent, "user_id").Flag? then Field(parent, "user_id") else Null)
    && Field(child, "direct_host") == Flag(true) && Field(child, "direct_after") == Null
    && Field(child, "herder_archive") == Null
  }

  lemma DirectIsDirectOf(d: Details)
    requires DestinationId(d) != 0
    ensures IsDirectOf(DirectDetails(d), d)
  {
  }

  lemma SameDirect(child: Details, other: Details, parent: Details)
    requires Controls(child) == Controls(other) && IsDirectOf(child, parent)
    ensures IsDirectOf(other, parent)
  {
    SameControlsSameField(child, other, "destination_id");
    SameControlsSameField(child, other, "scope");
    SameControlsSameField(child, other, "user_id");
    SameControlsSameField(child, other, "direct_host");
    SameControlsSameField(child, other, "direct_after");
    SameControlsSameField(child, other, "herder_archive");
  }

  /** A direct copy's row never asks for a further copy. */
  lemma DirectNeverFollows(child: Details, parent: Details)
    requires IsDirectOf(child, parent)
    ensures !BodyFollows(child)
  {
  }

  // ------------------------------------------------------------------ the invariant

  predicate PcInv(destinations: set<int>, job: CopyJob) {
    var wants := BodyFollows(job.made);
    match job.pc
    case Look => job.calls == 0 && job.why.None? && !job.escaped && !job.good
    case Marking(found, seen) =>
      && job.calls == 0 && !job.good && Controls(seen) == Controls(job.made) && !job.escaped
      && (found ==> job.why.None?) && (!found && wants ==> job.why.Some?)
    case NoDestination => job.calls == 0 && !job.good && (wants ==> job.why.Some?) && !job.escaped
    case Copying(follow) => job.calls == 0 && !job.good && follow == wants && job.why.None? && !job.escaped
    case Recording(st, extra, follow) =>
      && job.calls == 0 && follow == wants && job.why.None? && !job.escaped
      && st in {Success, Failed} && Uncontrolled(extra)
      && (st.Success? <==> job.good)
    case Handling(_, follow) => job.calls == 0 && !job.good && follow == wants && job.why.None? && !job.escaped
    case Closing(follow) =>
      && job.calls == 0 && (follow ==> wants && job.why.None?) && (wants && !follow && !job.escaped ==> job.why.Some?)
      && (!job.escaped ==> Terminal(job.row.life.status))
    case Following =>
      job.calls == 0 && wants && job.why.None? && (!job.escaped ==> Terminal(job.row.life.status))
    case Ended =>
      && job.calls <= 1 && (wants && !job.escaped ==> job.calls == 1 || job.why.Some?)
      && (!job.escaped ==> Terminal(job.row.life.status))
    case Dead => job.calls <= 1 && (!job.escaped && job.calls == 1 ==> Terminal(job.row.life.status))
    case Signalled =>
      && job.calls <= 1 && (!job.escaped ==> job.calls == 0)
      && (job.why.Some? ==> DestinationId(job.made) !in destinations)
    case Over => job.calls <= 2 && (!job.escaped ==> job.calls <= 1) && (wants ==> job.calls >= 1 || job.why.Some?)
  }

  predicate RowInv(row: Row, made: Details) {
    Settled(row.life) && Controls(row.details) == Controls(made)
  }

  predicate JobInv(destinations: set<int>, job: CopyJob) {
    && RowInv(job.row, job.made)
    && (job.row.life.status.Success? ==> job.good)
    && PcInv(destinations, job)
    && (job.calls > 0 ==> BodyFollows(job.made) && job.why.None?)
    && (job.why.Some? ==> Terminal(job.row.life.status) || DestinationId(job.made) !in destinations)
    && |job.children| <= job.calls
  }

  /** A job with a parent is a direct copy, started by a folder copy that lists it. */
  predicate Linked(s: State, id: JobId)
    requires id in s.jobs
  {
    var job := s.jobs[id];
    job.parent.Some? ==>
      && job.parent.value in s.jobs
      && id in s.jobs[job.parent.value].children
      && BodyFollows(s.jobs[job.parent.value].made)
      && IsDirectOf(job.made, s.jobs[job.parent.value].made)
  }

  predicate Inv(s: State) {
    && 0 !in s.destinations
    && (forall id :: id in s.jobs ==> JobInv(s.destinations, s.jobs[id]) && Linked(s, id))
  }

  lemma ExtrasAreUncontrolled(copied: seq<string>, error: string)
    ensures Uncontrolled(COPYING) && Uncontrolled(MISSING)
    ensures Uncontrolled(DoneExtra(copied)) && Uncontrolled(FailedExtra(error))
  {
  }

  /** The steps that end the body write a terminal status. */
  predicate WritesTerminal(job: CopyJob, ch: Choice) {
    !ch.Escaped? && (job.pc.NoDestination? || (job.pc.Recording? && Terminal(job.pc.st)) || job.pc.Handling?)
  }

  lemma UpdateKeepsRow(row: Row, made: Details, st: Status, extra: Extra, now: nat)
    requires RowInv(row, made) && Uncontrolled(extra)
    ensures RowInv(Updated(row, st, extra, now), made)
    ensures Terminal(st) || Terminal(row.life.status) ==> Terminal(Updated(row, st, extra, now).life.status)
    ensures Updated(row, st, extra, now).life.status in {row.life.status, st}
  {
    UpdateKeepsControls(row, st, extra, now);
    UpdatedLife(row, st, extra, now);
  }

  lemma StepKeepsRow(destinations: set<int>, job: CopyJob, ch: Choice, now: nat)
    requires JobInv(destinations, job) && Allowed(job, ch)
    ensures var row := RowAfter(job, ch, now);
            && RowInv(row, job.made)
            && (WritesTerminal(job, ch) || Terminal(job.row.life.status) ==> Terminal(row.life.status))
            && (row.life.status.Success? ==> job.good)
  {
    match job.pc
    case Marking(_, _) =>
      ExtrasAreUncontrolled([], "");
      UpdateKeepsRow(job.row, job.made, Running, COPYING, now);
    case NoDestination =>
      ExtrasAreUncontrolled([], "");
      UpdateKeepsRow(job.row, job.made, Failed, MISSING, now);
    case Recording(st, extra, _) =>
      UpdateKeepsRow(job.row, job.made, st, extra, now);
    case Handling(error, _) =>
      ExtrasAreUncontrolled([], error);
      UpdateKeepsRow(job.row, job.made, Failed, FailedExtra(error), now);
    case _ =>
  }

  /** The program counter, the calls and the reason, with any row the step may leave: up to the terminal write. */
  lemma BodyKeepsJob(destinations: set<int>, job: CopyJob, ch: Choice, row: Row)
    requires JobInv(destinations, job) && Allowed(job, ch)
    requires RowInv(row, job.made) && (row.life.status.Success? ==> job.good)
    requires WritesTerminal(job, ch) || Terminal(job.row.life.status) ==> Terminal(row.life.status)
    requires job.pc.Look? || job.pc.Marking? || job.pc.NoDestination?
             || job.pc.Copying? || job.pc.Recording? || job.pc.Handling?
    ensures JobInv(destinations, Moved(job, ch, destinations).(row := row))
  {
    SameTests(job.row.details, job.made);
    if job.pc.Marking? {
      SameTests(job.pc.seen, job.made);
    } else if job.pc.Copying? {
      ExtrasAreUncontrolled(if ch.Copied? then ch.copied else [], if ch.Refused? then ch.error else "");
    }
  }

  /** The same from the finally block on. */
  lemma EndKeepsJob(destinations: set<int>, job: CopyJob, ch: Choice, now: nat)
    requires 0 !in destinations && JobInv(destinations, job) && Allowed(job, ch)
    requires job.pc.Closing? || job.pc.Following? || job.pc.Ended? || job.pc.Signalled?
    ensures JobInv(destinations, Stepped(job, ch, destinations, now))
  {
    SameTests(job.row.details, job.made);
    TestsAgree(job.row.details, destinations);
  }

  lemma StepKeepsJob(destinations: set<int>, job: CopyJob, ch: Choice, now: nat)
    requires 0 !in destinations && JobInv(destinations, job) && Allowed(job, ch)
    ensures JobInv(destinations, Stepped(job, ch, destinations, now))
  {
    hide Moved, Updated, PcInv;
    if job.pc.Closing? || job.pc.Following? || job.pc.Ended? || job.pc.Signalled? {
      EndKeepsJob(destinations, job, ch, now);
    } else {
      StepKeepsRow(destinations, job, ch, now);
      BodyKeepsJob(destinations, job, ch, RowAfter(job, ch, now));
    }
  }

  /** A row closed by somebody else. */
  lemma ClosedRowKeepsJob(destinations: set<int>, job: CopyJob, row: Row)
    requires JobInv(destinations, job) && RowInv(row, job.made) && row.life.status in {Failed, Cancelled}
    ensures JobInv(destinations, job.(row := row))
  {
  }

  lemma MarkKeepsRow(row: Row, made: Details, st: Status, message: string, now: nat)
    requires RowInv(row, made) && Terminal(st)
    ensures RowInv(Marked(row, st, message, now), made) && Marked(row, st, message, now).life.status == st
  {
    MarkKeepsControls(row, st, message, now);
  }

  lemma KillKeepsJob(destinations: set<int>, job: CopyJob)
    requires JobInv(destinations, job) && job.pc !in {Dead, Signalled, Over}
    ensures JobInv(destinations, Killed(job))
  {
  }

  lemma SignalKeepsJob(destinations: set<int>, job: CopyJob, text: string, now: nat)
    requires JobInv(destinations, job) && job.pc.Dead?
    ensures JobInv(destinations, SignalHandled(job, text, now))
  {
    SignalKeepsControls(job.row, text, now);
  }

  /** Replacing one job by another that keeps the invariant. */
  lemma WithKeepsInv(s: State, id: JobId, job: CopyJob)
    requires Inv(s) && id in s.jobs
    requires JobInv(s.destinations, job)
    requires job.made == s.jobs[id].made && job.parent == s.jobs[id].parent && s.jobs[id].children <= job.children
    ensures Inv(With(s, id, job, None))
  {
    hide JobInv, IsDirectOf;
    var s' := With(s, id, job, None);
    forall i | i in s'.jobs
      ensures JobInv(s'.destinations, s'.jobs[i]) && Linked(s', i)
    {
      assert JobInv(s.destinations, s.jobs[i]) && Linked(s, i);
    }
  }

  lemma NewJobInv(destinations: set<int>, d: Details, parent: Option<JobId>)
    ensures JobInv(destinations, NewJob(d, parent))
  {
  }

  lemma MoreChildrenKeepJob(destinations: set<int>, job: CopyJob, child: JobId)
    requires JobInv(destinations, job) && |job.children| < job.calls
    ensures JobInv(destinations, job.(children := job.children + {child}))
  {
  }

  /** The same, together with the direct row that the job starts. */
  lemma WithChildKeepsInv(s: State, id: JobId, job: CopyJob, child: JobId, d: Details)
    requires Inv(s) && id in s.jobs && child !in s.jobs
    requires JobInv(s.destinations, job) && |job.children| < job.calls
    requires job.made == s.jobs[id].made && job.parent == s.jobs[id].parent && job.children == s.jobs[id].children
    requires BodyFollows(job.made) && IsDirectOf(d, job.made)
    ensures Inv(With(s, id, job, Some((child, d))))
  {
    MoreChildrenKeepJob(s.destinations, job, child);
    NewJobInv(s.destinations, d, Some(id));
    hide JobInv, Inv, BodyFollows, IsDirectOf;
    var parent := job.(children := job.children + {child});
    WithKeepsInv(s, id, parent);
    var mid := With(s, id, parent, None);
    assert child in mid.jobs[id].children;
    NewRowKeepsInv(mid, child, NewJob(d, Some(id)));
  }

  /** A row that is new, with its link. */
  lemma NewRowKeepsInv(s: State, id: JobId, job: CopyJob)
    requires Inv(s) && id !in s.jobs && JobInv(s.destinations, job)
    requires job.parent.Some? ==>
               && job.parent.value in s.jobs && id in s.jobs[job.parent.value].children
               && BodyFollows(s.jobs[job.parent.value].made) && IsDirectOf(job.made, s.jobs[job.parent.value].made)
    ensures Inv(s.(jobs := s.jobs[id := job]))
  {
    hide JobInv, BodyFollows, IsDirectOf;
    var s' := s.(jobs := s.jobs[id := job]);
    forall i | i in s'.jobs
      ensures JobInv(s'.destinations, s'.jobs[i]) && Linked(s', i)
    {
      if i in s.jobs {
        assert JobInv(s.destinations, s.jobs[i]) && Linked(s, i);
      }
    }
  }

  lemma StepKeepsLinks(job: CopyJob, ch: Choice, destinations: set<int>, now: nat)
    requires Allowed(job, ch)
    ensures var next := Stepped(job, ch, destinations, now);
            && next.made == job.made && next.parent == job.parent && next.children == job.children
            && (SignalFollows(job.row.details, destinations) && job.pc.Signalled? ==> next.calls == job.calls + 1)
            && (DestinationId(job.row.details) in destinations && job.pc.Following? ==> next.calls == job.calls + 1)
  {
  }

  lemma WorkKeepsInv(s: State, a: Action)
    requires Inv(s) && Enabled(s, a) && a.Work?
    ensures Inv(Do(s, a))
  {
    var job := s.jobs[a.id];
    assert JobInv(s.destinations, job);
    StepKeepsJob(s.destinations, job, a.ch, s.now);
    StepKeepsLinks(job, a.ch, s.destinations, s.now);
    var next := Stepped(job, a.ch, s.destinations, s.now);
    if a.child.Some? {
      SameTests(job.row.details, job.made);
      TestsAgree(job.row.details, s.destinations);
      DirectIsDirectOf(job.made);
      WithChildKeepsInv(s, a.id, next, a.child.value, DirectDetails(job.row.details));
    } else {
      WithKeepsInv(s, a.id, next);
    }
  }

  /** A death and the failure signal. */
  lemma DeathKeepsInv(s: State, a: Action)
    requires Inv(s) && Enabled(s, a) && (a.Kill? || a.FailureSignal?)
    ensures Inv(Do(s, a))
  {
    var job := s.jobs[a.id];
    assert JobInv(s.destinations, job);
    hide PcInv, RowInv, Because, SignalRow;
    if a.Kill? {
      KillKeepsJob(s.destinations, job);
      WithKeepsInv(s, a.id, Killed(job));
    } else {
      SignalKeepsJob(s.destinations, job, a.text, s.now);
      WithKeepsInv(s, a.id, SignalHandled(job, a.text, s.now));
    }
  }

  /** A row closed by a cancel or a sweep. */
  lemma CloseKeepsInv(s: State, a: Action)
    requires Inv(s) && Enabled(s, a) && (a.Cancel? || a.Sweep?)
    ensures Inv(Do(s, a))
  {
    var job := s.jobs[a.id];
    assert JobInv(s.destinations, job);
    hide PcInv, Marked;
    var st := if a.Cancel? then Cancelled else Failed;
    var row := Marked(job.row, st, a.message, s.now);
    MarkKeepsRow(job.row, job.made, st, a.message, s.now);
    ClosedRowKeepsJob(s.destinations, job, row);
    WithKeepsInv(s, a.id, job.(row := row));
  }

  lemma StepKeepsInv(s: State, a: Action)
    requires Inv(s) && Enabled(s, a)
    ensures Inv(Do(s, a))
  {
    hide Inv, Do, Enabled;
    match a
    case Work(_, _, _) => WorkKeepsInv(s, a);
    case Create(_, _) => QuietKeepsInv(s, a);
    case Remove(_) => QuietKeepsInv(s, a);
    case Kill(_) => DeathKeepsInv(s, a);
    case FailureSignal(_, _) => DeathKeepsInv(s, a);
    case Cancel(_, _) => CloseKeepsInv(s, a);
    case Sweep(_, _) => CloseKeepsInv(s, a);
  }

  lemma QuietKeepsInv(s: State, a: Action)
    requires Inv(s) && Enabled(s, a) && (a.Create? || a.Remove?)
    ensures Inv(Do(s, a))
  {
    var s' := Do(s, a);
    forall i | i in s'.jobs
      ensures JobInv(s'.destinations, s'.jobs[i]) && Linked(s', i)
    {
      if i in s.jobs {
        assert JobInv(s.destinations, s.jobs[i]) && Linked(s, i);
      }
    }
  }

  lemma {:induction false} RunKeepsInv(s: State, acts: seq<Action>)
    requires Inv(s) && Legal(s, acts)
    ensures Inv(Exec(s, acts))
    decreases |acts|
  {
    if acts != [] {
      StepKeepsInv(s, acts[0]);
      RunKeepsInv(Do(s, acts[0]), acts[1..]);
    }
  }

  // -------------------------------------------------------------------- the results

  /**
    Exactly once. When a job is over and no error left its handler, the direct
    copy was asked for once if the row asked for it and nothing stopped it, and
    otherwise not at all. What happens to other jobs does not matter.
  */
  lemma FollowedExactlyOnce(destinations: set<int>, acts: seq<Action>, id: JobId)
    requires 0 !in destinations && Legal(Init(destinations), acts)
    requires var s := Exec(Init(destinations), acts);
             id in s.jobs && s.jobs[id].pc.Over? && !s.jobs[id].escaped
    ensures var job := Exec(Init(destinations), acts).jobs[id];
            && job.calls == (if BodyFollows(job.made) && job.why.None? then 1 else 0)
            && (job.row.life.status.Success? ==> job.good)
  {
    RunKeepsInv(Init(destinations), acts);
    var s := Exec(Init(destinations), acts);
    assert JobInv(s.destinations, s.jobs[id]);
  }

  /** What each reason for "not at all" means at the step that sets it. */
  predicate RealReason(s: State, a: Action, id: JobId, reason: Reason)
    requires id in s.jobs
  {
    var job := s.jobs[id];
    match reason
    case Skipped => a.Work? && job.pc.Look? && Terminal(job.row.life.status)
    case CancelSeen => (a.Work? || a.FailureSignal?) && job.row.life.status.Cancelled?
    case DestinationGone => a.Work? && DestinationId(job.made) !in s.destinations
    case CutShort =>
      a.Kill? && (job.pc == Closing(true) || job.pc.Following?) && job.row.life.status in {Success, Failed}
    case Swept => a.FailureSignal? && job.row.life.status in {Success, Failed}
  }

  lemma MoveReasons(s: State, id: JobId, ch: Choice, child: Option<JobId>)
    requires Inv(s) && id in s.jobs && Allowed(s.jobs[id], ch) && s.jobs[id].why.None?
    ensures var next := Moved(s.jobs[id], ch, s.destinations);
            next.why.Some? ==> RealReason(s, Work(id, ch, child), id, next.why.value)
  {
    var job := s.jobs[id];
    assert JobInv(s.destinations, job);
    SameTests(job.row.details, job.made);
    TestsAgree(job.row.details, s.destinations);
  }

  lemma ReasonsAreReal(s: State, a: Action, id: JobId)
    requires Inv(s) && Enabled(s, a) && id in s.jobs && s.jobs[id].why.None?
    requires Do(s, a).jobs[id].why.Some?
    ensures RealReason(s, a, id, Do(s, a).jobs[id].why.value)
  {
    hide Moved, RowAfter, SignalRow, Marked, BodyFollows;
    if a.Work? && a.id == id {
      MoveReasons(s, id, a.ch, a.child);
    }
  }

  /** The row is cancelled, and the read before the follow-up is not behind it. */
  predicate CancelHolds(job: CopyJob) {
    job.row.life.status.Cancelled? && !job.pc.Following? && !job.pc.Signalled?
  }

  lemma StepKeepsCancel(s: State, a: Action, id: JobId)
    requires Enabled(s, a) && id in s.jobs && CancelHolds(s.jobs[id])
    ensures id in Do(s, a).jobs && CancelHolds(Do(s, a).jobs[id]) && Do(s, a).jobs[id].calls == s.jobs[id].calls
  {
    hide Marked, SignalRow, BodyFollows, SignalFollows, DirectDetails;
  }

  /** From a state in which a row is cancelled and not yet read for the follow-up, no run makes a call for it. */
  lemma {:induction false} CancelledRowIsNotFollowed(s: State, acts: seq<Action>, id: JobId)
    requires Legal(s, acts) && id in s.jobs && CancelHolds(s.jobs[id])
    ensures id in Exec(s, acts).jobs && Exec(s, acts).jobs[id].calls == s.jobs[id].calls
    ensures Exec(s, acts).jobs[id].row.life.status.Cancelled?
    decreases |acts|
  {
    if acts != [] {
      StepKeepsCancel(s, acts[0], id);
      CancelledRowIsNotFollowed(Do(s, acts[0]), acts[1..], id);
    }
  }

  /** Chains stop at two: the parent of a direct copy is a folder copy and has no parent itself. */
  lemma ChainsHaveLengthTwo(destinations: set<int>, acts: seq<Action>, id: JobId)
    requires 0 !in destinations && Legal(Init(destinations), acts)
    requires var s := Exec(Init(destinations), acts); id in s.jobs && s.jobs[id].parent.Some?
    ensures var s := Exec(Init(destinations), acts);
            var parent := s.jobs[id].parent.value;
            && parent in s.jobs && s.jobs[parent].parent.None?
            && s.jobs[id].children == {} && s.jobs[id].calls == 0
  {
    RunKeepsInv(Init(destinations), acts);
    var s := Exec(Init(destinations), acts);
    assert JobInv(s.destinations, s.jobs[id]) && Linked(s, id);
    assert Linked(s, s.jobs[id].parent.value);
  }

  /**
    A direct copy is a copy of what its parent was: at every point of its life
    its row reads the destination, the scope and the user that its parent was
    created with, and that it is a direct push with no copy after it.
  */
  lemma DirectCopiesItsParent(destinations: set<int>, acts: seq<Action>, id: JobId)
    requires 0 !in destinations && Legal(Init(destinations), acts)
    requires var s := Exec(Init(destinations), acts); id in s.jobs && s.jobs[id].parent.Some?
    ensures var s := Exec(Init(destinations), acts);
            var parent := s.jobs[id].parent.value;
            && parent in s.jobs
            && IsDirectOf(s.jobs[id].row.details, s.jobs[parent].made)
            && IsDirectOf(s.jobs[id].row.details, s.jobs[parent].row.details)
  {
    RunKeepsInv(Init(destinations), acts);
    var s := Exec(Init(destinations), acts);
    var job, parent := s.jobs[id], s.jobs[id].parent.value;
    assert JobInv(s.destinations, job) && Linked(s, id);
    assert JobInv(s.destinations, s.jobs[parent]);
    SameDirect(job.made, job.row.details, s.jobs[parent].made);
    SameParent(job.row.details, s.jobs[parent].made, s.jobs[parent].row.details);
  }

  lemma SameParent(child: Details, parent: Details, other: Details)
    requires Controls(parent) == Controls(other) && IsDirectOf(child, parent)
    ensures IsDirectOf(child, other)
  {
    SameControlsSameField(parent, other, "destination_id");
    SameControlsSameField(parent, other, "scope");
    SameControlsSameField(parent, other, "user_id");
  }

  /**
    A copy that was made is shown: where the terminal status is written, an
    open row gets Success if the copy returned with success and Failed if not.
  */
  lemma MadeCopyIsShown(destinations: set<int>, acts: seq<Action>, id: JobId)
    requires 0 !in destinations && Legal(Init(destinations), acts)
    requires var s := Exec(Init(destinations), acts);
             && id in s.jobs && s.jobs[id].pc.Recording? && Active(s.jobs[id].row.life.status)
    ensures var s := Exec(Init(destinations), acts);
            var job, after := s.jobs[id], Do(s, Work(id, Go, None)).jobs[id];
            after.row.life == Life(if job.good then Success else Failed, job.row.life.startedAt, Some(s.now))
  {
    RunKeepsInv(Init(destinations), acts);
    var s := Exec(Init(destinations), acts);
    var job := s.jobs[id];
    assert JobInv(s.destinations, job);
    UpdatedLife(job.row, job.pc.st, job.pc.extra, s.now);
    WritesOfAnOpenRow(job.row.life, job.pc.st, s.now);
    hide Updated, Advanced;
  }

  /** What the copy's outcomes leave in an open row after the next step, with the stored texts written out. */
  lemma CopyStoresItsOutcome(job: CopyJob, ch: Choice, destinations: set<int>, now: nat)
    requires job.pc.Copying? && (ch.Copied? || ch.Refused? || ch.Raised?) && Active(job.row.life.status)
    ensures var after := Stepped(Stepped(job, ch, destinations, now), Go, destinations, now).row;
            && after.life == Life(if ch.Copied? then Success else Failed, job.row.life.startedAt, Some(now))
            && Field(after.details, "current") == Text(if ch.Copied? then "completed" else "failed")
            && (ch.Copied? ==> Field(after.details, "copied") == Texts(ch.copied))
            && (!ch.Copied? ==> Field(after.details, "error") == Text(ch.error))
  {
    var st := if ch.Copied? then Success else Failed;
    var extra := if ch.Copied? then DoneExtra(ch.copied) else FailedExtra(ch.error);
    UpdateStores(job.row, st, extra, now, "current");
    UpdateStores(job.row, st, extra, now, "copied");
    UpdateStores(job.row, st, extra, now, "error");
    hide Updated, Field;
  }

  lemma UpdateStores(row: Row, st: Status, extra: Extra, now: nat, key: string)
    requires Active(row.life.status) && Terminal(st)
    ensures Updated(row, st, extra, now).life == Life(st, row.life.startedAt, Some(now))
    ensures Field(Updated(row, st, extra, now).details, key) ==
            if key in extra.fields then extra.fields[key] else Field(row.details, key)
  {
    UpdatedLife(row, st, extra, now);
    WritesOfAnOpenRow(row.life, st, now);
    UpdateSetsItsKeys(row, st, extra, now, key);
    hide Updated, Advanced, Field;
  }

  /** A copy that starts is shown as running since then, and as copying. */
  lemma StartedCopyIsStored(job: CopyJob, destinations: set<int>, now: nat)
    requires job.pc.Marking? && Active(job.row.life.status)
    ensures var after := Stepped(job, Go, destinations, now).row;
            && after.life == Life(Running, Some(job.row.life.startedAt.GetOr(now)), job.row.life.finishedAt)
            && Field(after.details, "current") == Text("copying")
  {
    UpdatedLife(job.row, Running, COPYING, now);
    WritesOfAnOpenRow(job.row.life, Running, now);
    UpdateSetsItsKeys(job.row, Running, COPYING, now, "current");
    hide Updated, Field;
  }

  /** The call that creates the direct row: a fresh row of the parent's copy, linked both ways. */
  lemma CallCreatesDirect(s: State, id: JobId, ch: Choice, child: JobId)
    requires Enabled(s, Work(id, ch, Some(child))) && 0 !in s.destinations
    ensures var after := Do(s, Work(id, ch, Some(child)));
            && after.jobs.Keys == s.jobs.Keys + {child}
            && after.jobs[child].row.life == Life(Pending, None, None)
            && after.jobs[child].parent == Some(id) && child in after.jobs[id].children
            && IsDirectOf(after.jobs[child].row.details, s.jobs[id].row.details)
            && after.jobs[id].calls == s.jobs[id].calls + 1
  {
    DirectIsDirectOf(s.jobs[id].row.details);
    hide DirectDetails, BodyFollows, IsDirectOf, Field;
  }

  /** What the events around the tasks write: one row, or the set of destinations. */
  lemma EventsWriteOneJob(s: State, id: JobId, message: string, destination: int)
    requires id in s.jobs && Active(s.jobs[id].row.life.status)
    ensures var job := s.jobs[id];
            var cancelled, swept := Do(s, Action.Cancel(id, message)), Do(s, Sweep(id, message));
            var line := if |message| <= 240 then message else message[..240];
            && (forall after :: after in {cancelled, swept} ==>
                  && after.destinations == s.destinations && after.jobs == s.jobs[id := after.jobs[id]]
                  && after.jobs[id] == job.(row := after.jobs[id].row)
                  && after.jobs[id].row.details.log != []
                  && after.jobs[id].row.details.log[|after.jobs[id].row.details.log| - 1] == line)
            && cancelled.jobs[id].row.life == Life(Cancelled, job.row.life.startedAt, Some(s.now))
            && swept.jobs[id].row.life == Life(Failed, job.row.life.startedAt, Some(s.now))
    ensures var after := Do(s, Remove(destination));
            after.jobs == s.jobs && destination !in after.destinations
            && forall d :: d in after.destinations <==> d in s.destinations && d != destination
  {
    MarkWrites(s.jobs[id].row, Cancelled, message, s.now);
    MarkWrites(s.jobs[id].row, Failed, message, s.now);
    hide Marked;
  }

  /** A copy without its destination is failed, and says so. */
  lemma MissingDestinationIsStored(job: CopyJob, destinations: set<int>, now: nat)
    requires job.pc.NoDestination? && Active(job.row.life.status)
    ensures var after := Stepped(job, Go, destinations, now).row;
            after.life.status == Failed && Field(after.details, "error") == Text("Destination missing")
  {
    UpdateStores(job.row, Failed, MISSING, now, "error");
    hide Updated, Field;
  }

  /** The dispatch keys read the same at every point of a row's life. */
  lemma DispatchIsStable(destinations: set<int>, acts: seq<Action>, id: JobId)
    requires 0 !in destinations && Legal(Init(destinations), acts)
    requires id in Exec(Init(destinations), acts).jobs
    ensures var s := Exec(Init(destinations), acts);
            var job := s.jobs[id];
            && Controls(job.row.details) == Controls(job.made)
            && (SignalFollows(job.row.details, s.destinations) <==>
                BodyFollows(job.made) && DestinationId(job.made) in s.destinations)
  {
    RunKeepsInv(Init(destinations), acts);
    var s := Exec(Init(destinations), acts);
    assert JobInv(s.destinations, s.jobs[id]);
    SameTests(s.jobs[id].row.details, s.jobs[id].made);
    TestsAgree(s.jobs[id].row.details, s.destinations);
  }

  // ----------------------------------------------------------------- the second call

  /** The step of a failure signal that asks for the direct copy although the finally block has asked before. */
  predicate Repeats(s: State, a: Action, id: JobId) {
    && a.Work? && a.id == id && id in s.jobs
    && var job := s.jobs[id];
       job.pc.Signalled? && job.calls == 1 && DestinationId(job.row.details) in s.destinations
  }

  predicate NeverRepeats(s: State, acts: seq<Action>, id: JobId)
    requires Legal(s, acts)
    decreases |acts|
  {
    acts != [] ==> !Repeats(s, acts[0], id) && NeverRepeats(Do(s, acts[0]), acts[1..], id)
  }

  /** A step adds one call where the follow-up is enqueued, and a new row starts with none. */
  lemma StepCalls(s: State, a: Action, id: JobId)
    requires Enabled(s, a)
    ensures id in s.jobs ==>
              && id in Do(s, a).jobs
              && Do(s, a).jobs[id].calls ==
                 s.jobs[id].calls + (if a.Work? && a.id == id && Calls(s, s.jobs[id]) then 1 else 0)
    ensures id !in s.jobs && id in Do(s, a).jobs ==> Do(s, a).jobs[id].calls == 0
  {
    hide RowAfter, SignalRow, Marked, BodyFollows, DirectDetails, SignalFollows;
  }

  lemma SecondCallIff(s: State, a: Action, id: JobId)
    requires Inv(s) && Enabled(s, a)
    requires id in s.jobs ==> s.jobs[id].calls <= 1
    ensures id in Do(s, a).jobs ==>
              (Do(s, a).jobs[id].calls == 2 <==> Repeats(s, a, id)) && Do(s, a).jobs[id].calls <= 2
    ensures Repeats(s, a, id) ==> s.jobs[id].escaped && id in Do(s, a).jobs
  {
    hide Do, Enabled, BodyFollows, SignalFollows;
    StepCalls(s, a, id);
    if id in s.jobs {
      assert JobInv(s.destinations, s.jobs[id]);
      SameTests(s.jobs[id].row.details, s.jobs[id].made);
      TestsAgree(s.jobs[id].row.details, s.destinations);
    }
  }

  lemma {:induction false} CallsStayInRun(s: State, acts: seq<Action>, id: JobId)
    requires Legal(s, acts) && id in s.jobs
    ensures id in Exec(s, acts).jobs && Exec(s, acts).jobs[id].calls >= s.jobs[id].calls
    decreases |acts|
  {
    if acts != [] {
      StepCalls(s, acts[0], id);
      CallsStayInRun(Do(s, acts[0]), acts[1..], id);
    }
  }

  lemma {:induction false} CalledTwiceIff(s: State, acts: seq<Action>, id: JobId)
    requires Inv(s) && Legal(s, acts)
    requires id in s.jobs ==> s.jobs[id].calls <= 1
    ensures (id in Exec(s, acts).jobs ==> Exec(s, acts).jobs[id].calls <= 1) <==> NeverRepeats(s, acts, id)
    decreases |acts|
  {
    if acts != [] {
      var next := Do(s, acts[0]);
      StepKeepsInv(s, acts[0]);
      SecondCallIff(s, acts[0], id);
      if Repeats(s, acts[0], id) {
        CallsStayInRun(next, acts[1..], id);
      } else {
        CalledTwiceIff(next, acts[1..], id);
      }
    }
  }

  /**
    At most once. Over every run a job asks at most once exactly when no
    failure signal closes its row, still open, after its finally block has
    asked, and then finds the destination. A job that no error left never does.
  */
  lemma FollowedAtMostOnceIff(destinations: set<int>, acts: seq<Action>, id: JobId)
    requires 0 !in destinations && Legal(Init(destinations), acts) && id in Exec(Init(destinations), acts).jobs
    ensures var job := Exec(Init(destinations), acts).jobs[id];
            && (job.calls <= 1 <==> NeverRepeats(Init(destinations), acts, id))
            && (job.calls > 1 ==> job.calls == 2 && job.escaped)
  {
    CalledTwiceIff(Init(destinations), acts, id);
    RunKeepsInv(Init(destinations), acts);
    var s := Exec(Init(destinations), acts);
    assert JobInv(s.destinations, s.jobs[id]);
  }

  // -------------------------------------------------- the errors that leave the task

  const FOLDER := Details([], map["destination_id" := Number(1), "direct_after" := Flag(true)])

  lemma FolderFollows()
    ensures BodyFollows(FOLDER) && DestinationId(FOLDER) == 1
  {
  }

  lemma {:induction false} Concat(s: State, a: seq<Action>, b: seq<Action>)
    requires Legal(s, a) && Legal(Exec(s, a), b)
    ensures Legal(s, a + b) && Exec(s, a + b) == Exec(Exec(s, a), b)
    decreases |a|
  {
    if a == [] {
      assert a + b == b;
    } else {
      assert (a + b)[1..] == a[1..] + b;
      Concat(Do(s, a[0]), a[1..], b);
    }
  }

  /** Extends a legal run by one enabled action. */
  lemma Then(s: State, acts: seq<Action>, a: Action) returns (next: seq<Action>)
    requires Legal(s, acts) && Enabled(Exec(s, acts), a)
    ensures Legal(s, next) && Exec(s, next) == Do(Exec(s, acts), a)
  {
    next := acts + [a];
    var t := Exec(s, acts);
    assert [a][1..] == [];
    assert Legal(Do(t, a), []) && Legal(t, [a]) && Exec(t, [a]) == Do(t, a);
    Concat(s, acts, [a]);
  }

  /** A folder copy with a direct half whose row shows running. */
  predicate Open(s: State, pc: Pc, calls: nat) {
    && 0 in s.jobs && s.destinations == {1} && s.jobs[0].pc == pc && s.jobs[0].calls == calls
    && s.jobs[0].row.life.status.Running? && Controls(s.jobs[0].row.details) == Controls(FOLDER)
  }

  lemma StartsCopying() returns (acts: seq<Action>)
    ensures Legal(Init({1}), acts) && Open(Exec(Init({1}), acts), Copying(true), 0)
    ensures Exec(Init({1}), acts).jobs[0].made == FOLDER && Exec(Init({1}), acts).jobs[0].why.None?
  {
    FolderFollows();
    acts := Then(Init({1}), [], Create(0, FOLDER));
    acts := Then(Init({1}), acts, Work(0, Go, None));
    var s := Exec(Init({1}), acts);
    ExtrasAreUncontrolled([], "");
    UpdateKeepsControls(s.jobs[0].row, Running, COPYING, s.now);
    acts := Then(Init({1}), acts, Work(0, Go, None));
  }

  /** An error leaves the task, past its handler or out of it. */
  lemma Leaves(before: seq<Action>, caught: bool) returns (acts: seq<Action>)
    requires Legal(Init({1}), before) && Open(Exec(Init({1}), before), Copying(true), 0)
    ensures Legal(Init({1}), acts) && Open(Exec(Init({1}), acts), Closing(true), 0)
    ensures Exec(Init({1}), acts).jobs[0].escaped
  {
    hide Legal, Exec, Controls;
    acts := before;
    if caught {
      acts := Then(Init({1}), acts, Work(0, Raised(""), None));
    }
    acts := Then(Init({1}), acts, Work(0, Escaped, None));
  }

  lemma FinallyAsks(before: seq<Action>) returns (acts: seq<Action>)
    requires Legal(Init({1}), before) && Open(Exec(Init({1}), before), Closing(true), 0)
    requires Exec(Init({1}), before).jobs[0].escaped
    ensures Legal(Init({1}), acts) && Open(Exec(Init({1}), acts), Dead, 1)
  {
    FolderFollows();
    SameTests(Exec(Init({1}), before).jobs[0].row.details, FOLDER);
    hide Legal, Exec, Controls;
    acts := Then(Init({1}), before, Work(0, Go, None));
    acts := Then(Init({1}), acts, Work(0, Go, None));
    acts := Then(Init({1}), acts, Work(0, Go, None));
  }

  lemma SignalAsks(before: seq<Action>) returns (acts: seq<Action>)
    requires Legal(Init({1}), before) && Open(Exec(Init({1}), before), Dead, 1)
    ensures Legal(Init({1}), acts) && 0 in Exec(Init({1}), acts).jobs && Exec(Init({1}), acts).jobs[0].calls == 2
  {
    FolderFollows();
    var s := Exec(Init({1}), before);
    SignalKeepsControls(s.jobs[0].row, "", s.now);
    var row := SignalRow(s.jobs[0].row, "", s.now);
    SameTests(row.details, FOLDER);
    TestsAgree(row.details, {1});
    hide Legal, Exec, Controls, SignalRow, SignalFollows, BodyFollows;
    acts := Then(Init({1}), before, FailureSignal(0, ""));
    acts := Then(Init({1}), acts, Work(0, Go, None));
  }

  /**
    The run in which the finally block and the failure signal both ask for a
    direct copy: the error is one that the handler does not catch, or one of
    the handler itself.
  */
  lemma EscapedErrorFollowsTwice(caught: bool) returns (acts: seq<Action>)
    ensures Legal(Init({1}), acts) && 0 in Exec(Init({1}), acts).jobs && Exec(Init({1}), acts).jobs[0].calls == 2
  {
    acts := StartsCopying();
    acts := Leaves(acts, caught);
    acts := FinallyAsks(acts);
    acts := SignalAsks(acts);
  }

  /**
    The run in which a death loses the direct copy: the folder copy has
    succeeded and its row says so, and the process dies before the finally
    block has asked. The signal leaves the closed row alone.
  */
  lemma DeathLosesTheDirectCopy(copied: seq<string>) returns (acts: seq<Action>)
    ensures Legal(Init({1}), acts) && 0 in Exec(Init({1}), acts).jobs
    ensures var job := Exec(Init({1}), acts).jobs[0];
            && BodyFollows(job.made) && job.good && job.row.life.status == Success
            && job.pc.Over? && job.calls == 0 && job.why == Some(CutShort)
  {
    FolderFollows();
    acts := StartsCopying();
    acts := SucceedsAndDies(acts, copied);
    hide Legal, Exec, BodyFollows;
    acts := Then(Init({1}), acts, FailureSignal(0, ""));
  }

  lemma SucceedsAndDies(before: seq<Action>, copied: seq<string>) returns (acts: seq<Action>)
    requires Legal(Init({1}), before) && Open(Exec(Init({1}), before), Copying(true), 0)
    requires BodyFollows(Exec(Init({1}), before).jobs[0].made) && Exec(Init({1}), before).jobs[0].why.None?
    ensures Legal(Init({1}), acts) && 0 in Exec(Init({1}), acts).jobs
    ensures var job, was := Exec(Init({1}), acts).jobs[0], Exec(Init({1}), before).jobs[0];
            && job.made == was.made && job.good && job.row.life.status == Success
            && job.pc.Dead? && job.calls == 0 && job.why == Some(CutShort)
  {
    var s := Exec(Init({1}), before);
    UpdatedLife(s.jobs[0].row, Success, DoneExtra(copied), s.now + 1);
    hide Legal, Exec, BodyFollows, Updated, DoneExtra;
    acts := Then(Init({1}), before, Work(0, Copied(copied), None));
    acts := Then(Init({1}), acts, Work(0, Go, None));
    acts := Then(Init({1}), acts, Kill(0));
  }
}
