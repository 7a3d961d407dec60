/**
  One broker message over time. A late-acknowledging task acknowledges when it
  ends, and the broker hands out the message again once it has been
  unacknowledged for the visibility timeout, whether or not its worker is
  alive. A task that acknowledges on receipt is never handed out again.
*/
module Redelivery {
  import opened Wrappers
  import Workers

  const VISIBILITY := 10800
  const DRIVE_COPY_TIME_LIMIT := 7 * 24 * 3600

  /** Late or early acknowledgement, the hard limit, the longest wait from receipt to start, the visibility timeout. */
  datatype Config = Config(late: bool, limit: nat, hold: nat, visibility: nat)

  /** An execution that has been received and has not ended. */
  datatype Execution = Execution(received: nat, started: nat)

  datatype State = State(now: nat, queued: bool, unacked: Option<nat>, open: seq<Execution>)

  const INIT := State(0, true, None, [])

  datatype Action =
    | Receive(hold: nat)
    | Tick(d: nat)
    | End(k: nat)        // the task ends and acknowledges
    | Die(k: nat)        // the worker dies
    | Restore            // the visibility timeout has passed

  function Without(open: seq<Execution>, k: nat): seq<Execution>
    requires k < |open|
  {
    open[..k] + open[k + 1..]
  }

  predicate Enabled(c: Config, s: State, a: Action) {
    match a
    case Receive(hold) => s.queued && hold <= c.hold
    case Tick(d) => forall k :: 0 <= k < |s.open| ==> s.now + d < s.open[k].started + c.limit
    case End(k) => k < |s.open|
    case Die(k) => k < |s.open|
    case Restore => s.unacked.Some? && s.now >= s.unacked.value + c.visibility
  }

  function Do(c: Config, s: State, a: Action): State
    requires Enabled(c, s, a)
  {
    match a
    case Receive(hold) =>
      State(s.now, false, if c.late then Some(s.now) else None, s.open + [Execution(s.now, s.now + hold)])
    case Tick(d) => s.(now := s.now + d)
    case End(k) => s.(open := Without(s.open, k), unacked := None)
    case Die(k) => s.(open := Without(s.open, k))
    case Restore => s.(queued := true, unacked := None)
  }

  predicate Legal(c: Config, s: State, acts: seq<Action>)
    decreases |acts|
  {
    acts != [] ==> Enabled(c, s, acts[0]) && Legal(c, Do(c, s, acts[0]), acts[1..])
  }

  function Exec(c: Config, s: State, acts: seq<Action>): State
    requires Legal(c, s, acts)
    decreases |acts|
  {
    if acts == [] then s else Exec(c, Do(c, s, acts[0]), acts[1..])
  }

  /** Acknowledged on receipt, or over before the broker may hand it out again. */
  predicate Safe(c: Config) {
    c.late ==> c.hold + c.limit <= c.visibility
  }

  /** At most one copy of the message is anywhere, and an open late execution is unacknowledged since its receipt. */
  predicate Inv(c: Config, s: State) {
    && |s.open| <= 1
    && (s.queued ==> s.open == [] && s.unacked.None?)
    && (!c.late ==> s.unacked.None?)
    && (|s.open| == 1 ==>
          && s.open[0].started <= s.open[0].received + c.hold
          && (s.now < s.open[0].started + c.limit || s.now == s.open[0].received)
          && (c.late ==> s.unacked == Some(s.open[0].received)))
  }

  lemma StepKeepsInv(c: Config, s: State, a: Action)
    requires Safe(c) && 0 < c.limit && Inv(c, s) && Enabled(c, s, a)
    ensures Inv(c, Do(c, s, a))
  {
  }

  lemma {:induction false} RunKeepsInv(c: Config, s: State, acts: seq<Action>)
    requires Safe(c) && 0 < c.limit && Inv(c, s) && Legal(c, s, acts)
    ensures Inv(c, Exec(c, s, acts))
    decreases |acts|
  {
    if acts != [] {
      StepKeepsInv(c, s, acts[0]);
      RunKeepsInv(c, Do(c, s, acts[0]), acts[1..]);
    }
  }

  /** The run that shows the bound is tight: held as long as allowed, still open when the timeout passes. */
  lemma LateTaskOverlaps(c: Config) returns (acts: seq<Action>)
    requires !Safe(c) && 0 < c.limit
    ensures Legal(c, INIT, acts) && |Exec(c, INIT, acts).open| == 2
  {
    acts := [Receive(c.hold), Tick(c.visibility), Restore, Receive(0)];
    var s1 := Do(c, INIT, acts[0]);
    var s2 := Do(c, s1, acts[1]);
    var s3 := Do(c, s2, acts[2]);
    var s4 := Do(c, s3, acts[3]);
    var r3 := acts[3..];
    var r2 := acts[2..];
    var r1 := acts[1..];
    assert r3[1..] == [] && r3[0] == Receive(0);
    assert Legal(c, s4, []) && Exec(c, s4, []) == s4;
    assert Legal(c, s3, r3) && Exec(c, s3, r3) == s4;
    assert r2[1..] == r3 && Legal(c, s2, r2) && Exec(c, s2, r2) == s4;
    assert r1[1..] == r2 && Legal(c, s1, r1) && Exec(c, s1, r1) == s4;
    assert acts[1..] == r1;
  }

  /**
    Over every timed run a message has at most one open execution exactly when
    its task acknowledges on receipt, or its wait and its limit together fit
    under the visibility timeout.
  */
  lemma NoOverlapIff(c: Config)
    requires 0 < c.limit
    ensures (forall acts :: Legal(c, INIT, acts) ==> |Exec(c, INIT, acts).open| <= 1)
            <==> (!c.late || c.hold + c.limit <= c.visibility)
  {
    if Safe(c) {
      forall acts | Legal(c, INIT, acts)
        ensures |Exec(c, INIT, acts).open| <= 1
      {
        RunKeepsInv(c, INIT, acts);
      }
    } else {
      var acts := LateTaskOverlaps(c);
      assert Legal(c, INIT, acts);
    }
  }

  function Receipts(acts: seq<Action>): nat {
    if acts == [] then 0 else (if acts[0].Receive? then 1 else 0) + Receipts(acts[1..])
  }

  /** Acknowledged on receipt: the message is handed out once, whatever becomes of its worker. */
  lemma {:induction false} EarlyAckIsReceivedOnce(c: Config, s: State, acts: seq<Action>)
    requires !c.late && s.unacked.None? && Legal(c, s, acts)
    ensures Receipts(acts) == if s.queued && !Exec(c, s, acts).queued then 1 else 0
    ensures Exec(c, s, acts).queued ==> s.queued
    decreases |acts|
  {
    if acts != [] {
      EarlyAckIsReceivedOnce(c, Do(c, s, acts[0]), acts[1..]);
    }
  }

  /** Acknowledged late: until an execution ends, the message is queued or will be handed out again. */
  lemma {:induction false} LateMessageIsNotLost(c: Config, s: State, acts: seq<Action>)
    requires c.late && Legal(c, s, acts) && forall k :: 0 <= k < |acts| ==> !acts[k].End?
    requires s.queued || s.unacked.Some?
    ensures var after := Exec(c, s, acts); after.queued || after.unacked.Some?
    decreases |acts|
  {
    if acts != [] {
      LateMessageIsNotLost(c, Do(c, s, acts[0]), acts[1..]);
    }
  }

  /** Once an execution of a safe task has ended, the message is gone for good. */
  lemma EndedTaskStaysEnded(c: Config, s: State, k: nat, acts: seq<Action>)
    requires Safe(c) && 0 < c.limit && Inv(c, s) && Enabled(c, s, End(k)) && Legal(c, Do(c, s, End(k)), acts)
    ensures Receipts(acts) == 0
    ensures var after := Exec(c, Do(c, s, End(k)), acts);
            !after.queued && after.unacked.None? && after.open == []
  {
    GoneStaysGone(c, Do(c, s, End(k)), acts);
  }

  lemma {:induction false} GoneStaysGone(c: Config, s: State, acts: seq<Action>)
    requires !s.queued && s.unacked.None? && s.open == [] && Legal(c, s, acts)
    ensures Receipts(acts) == 0
    ensures var after := Exec(c, s, acts); !after.queued && after.unacked.None? && after.open == []
    decreases |acts|
  {
    if acts != [] {
      GoneStaysGone(c, Do(c, s, acts[0]), acts[1..]);
    }
  }

  /** A worker's death with a late task: after the timeout the message is received a second time. */
  lemma DeadTaskIsReceivedAgain(c: Config) returns (acts: seq<Action>)
    requires c.late
    ensures Legal(c, INIT, acts) && Receipts(acts) == 2 && |Exec(c, INIT, acts).open| == 1
  {
    acts := [Receive(0), Die(0), Tick(c.visibility), Restore, Receive(0)];
    var s1 := Do(c, INIT, acts[0]);
    var s2 := Do(c, s1, acts[1]);
    var s3 := Do(c, s2, acts[2]);
    var s4 := Do(c, s3, acts[3]);
    var s5 := Do(c, s4, acts[4]);
    var r4, r3, r2, r1 := acts[4..], acts[3..], acts[2..], acts[1..];
    assert Legal(c, s5, []) && Exec(c, s5, []) == s5 && Receipts([]) == 0;
    assert r4[1..] == [] && Legal(c, s4, r4) && Exec(c, s4, r4) == s5 && Receipts(r4) == 1;
    assert r3[1..] == r4 && Legal(c, s3, r3) && Exec(c, s3, r3) == s5 && Receipts(r3) == 1;
    assert r2[1..] == r3 && Legal(c, s2, r2) && Exec(c, s2, r2) == s5 && Receipts(r2) == 1;
    assert r1[1..] == r2 && Legal(c, s1, r1) && Exec(c, s1, r1) == s5 && Receipts(r1) == 1;
    assert acts[1..] == r1;
  }

  /** Over every run a message is received at most once exactly when it is acknowledged on receipt. */
  lemma ReceivedOnceIff(c: Config)
    ensures (forall acts :: Legal(c, INIT, acts) ==> Receipts(acts) <= 1) <==> !c.late
  {
    if c.late {
      var acts := DeadTaskIsReceivedAgain(c);
      assert Legal(c, INIT, acts);
    } else {
      forall acts | Legal(c, INIT, acts)
        ensures Receipts(acts) <= 1
      {
        EarlyAckIsReceivedOnce(c, INIT, acts);
      }
    }
  }

  /**
    The shipped numbers: a host job may be held for an hour, and no second
    longer, before it starts. The copy task may be held and may run however
    long it likes.
  */
  lemma ConfiguredTasksDoNotOverlapIff(hold: nat, copy: bool)
    ensures var c := Config(!copy, if copy then DRIVE_COPY_TIME_LIMIT else Workers.TASK_TIME_LIMIT, hold, VISIBILITY);
            (forall acts :: Legal(c, INIT, acts) ==> |Exec(c, INIT, acts).open| <= 1) <==> copy || hold <= 3600
  {
    NoOverlapIff(Config(!copy, if copy then DRIVE_COPY_TIME_LIMIT else Workers.TASK_TIME_LIMIT, hold, VISIBILITY));
  }

  /** The copy task's limit lies far beyond the visibility timeout, so acknowledging late would overlap it. */
  lemma CopyNeedsItsEarlyAck(hold: nat)
    ensures !Safe(Config(true, DRIVE_COPY_TIME_LIMIT, hold, VISIBILITY)) && DRIVE_COPY_TIME_LIMIT == 604800
  {
  }
}
