/**
  The status part of a Job row: its status and its two time stamps, and the
  rules that change them for backups, Moves and copies. Both the worker
  protocol and the copy protocol step these values.
*/
module Life {
  import opened Wrappers

  datatype Status = Pending | Running | Success | Failed | Cancelled

  predicate Active(st: Status) {
    st.Pending? || st.Running?
  }

  predicate Terminal(st: Status) {
    !Active(st)
  }

  datatype Life = Life(status: Status, startedAt: Option<nat>, finishedAt: Option<nat>)

  const FRESH := Life(Pending, None, None)

  /** Status update by a worker. A cancel is never overwritten, and a finished row is not reopened. */
  function Advanced(l: Life, st: Status, now: nat): Life {
    if l.status.Cancelled? then l
    else if Terminal(l.status) && l.finishedAt.Some? && Active(st) then l
    else Life(
           st,
           if st.Running? && l.startedAt.None? then Some(now) else l.startedAt,
           if Terminal(st) then Some(now) else l.finishedAt)
  }

  /**
    An open row closed as failed from outside its task: by the failure signal
    of a copy task, or by the job service when the worker is gone, when the row
    is too old, or when a new backup replaces it.
  */
  function FailedOpen(l: Life, now: nat): Life {
    if Terminal(l.status) then l else l.(status := Failed, finishedAt := Some(now))
  }

  /** A user cancel, refused on a row that is already terminal. */
  function Stopped(l: Life, now: nat): Life {
    if Terminal(l.status) then l else l.(status := Cancelled, finishedAt := Some(now))
  }

  /** The stop request for one backup row. It does not look at the status. */
  function Halted(l: Life, now: nat): Life {
    l.(status := Cancelled, finishedAt := Some(now))
  }

  /** The finish call of the Move pipeline. A terminal row is kept. */
  function Finished(l: Life, st: Status, now: nat): Life {
    if l.status.Cancelled? || (Terminal(l.status) && l.finishedAt.Some?) then l
    else l.(status := st, finishedAt := Some(now))
  }

  /** A progress flush: a pending row becomes running, a terminal row is left alone. */
  function Flushed(l: Life, now: nat): Life {
    if Terminal(l.status) then l
    else l.(status := Running, startedAt := if l.startedAt.None? then Some(now) else l.startedAt)
  }

  /** The first write of a Move, undo or recover pipeline. It does not look at the row. */
  function Begun(l: Life, now: nat): Life {
    l.(status := Running, startedAt := Some(now))
  }

  /** What each rule writes on a row that is still open, and what it leaves of one that is not. */
  lemma WritesOfAnOpenRow(l: Life, st: Status, now: nat)
    requires Active(l.status)
    ensures Advanced(l, st, now).status == st && Finished(l, st, now) == Life(st, l.startedAt, Some(now))
    ensures Terminal(st) ==> Advanced(l, st, now) == Life(st, l.startedAt, Some(now))
    ensures Active(st) ==> Advanced(l, st, now).finishedAt == l.finishedAt
    ensures st.Pending? ==> Advanced(l, st, now).startedAt == l.startedAt
    ensures st.Running? ==> Advanced(l, st, now).startedAt == Some(l.startedAt.GetOr(now))
    ensures FailedOpen(l, now) == Life(Failed, l.startedAt, Some(now))
    ensures Stopped(l, now) == Halted(l, now) == Life(Cancelled, l.startedAt, Some(now))
    ensures Flushed(l, now) == Life(Running, Some(l.startedAt.GetOr(now)), l.finishedAt)
  {
  }

  lemma WritesOfAClosedRow(l: Life, st: Status, now: nat)
    requires Terminal(l.status)
    ensures FailedOpen(l, now) == Stopped(l, now) == Flushed(l, now) == l
    ensures Halted(l, now) == Life(Cancelled, l.startedAt, Some(now))
    ensures l.status.Cancelled? ==> Advanced(l, st, now) == Finished(l, st, now) == l
    ensures !l.status.Cancelled? ==>
              && Finished(l, st, now) == (if l.finishedAt.Some? then l else Life(st, l.startedAt, Some(now)))
              && (Terminal(st) ==> Advanced(l, st, now) == Life(st, l.startedAt, Some(now)))
              && (Active(st) ==>
                    if l.finishedAt.Some? then Advanced(l, st, now) == l else Advanced(l, st, now).status == st)
  {
  }

  /** The finish stamp is there exactly when the row is terminal. */
  predicate Settled(l: Life) {
    Terminal(l.status) <==> l.finishedAt.Some?
  }

  datatype Event =
    | Update(st: Status)
    | Fail
    | Cancel
    | Halt
    | Finish(st: Status)
    | Flush

  /** What the callers pass: a finish is terminal, and no worker update cancels. */
  predicate Proper(e: Event) {
    (e.Finish? ==> Terminal(e.st)) && e != Update(Cancelled)
  }

  function Applied(l: Life, e: Event, now: nat): Life {
    match e
    case Update(st) => Advanced(l, st, now)
    case Fail => FailedOpen(l, now)
    case Cancel => Stopped(l, now)
    case Halt => Halted(l, now)
    case Finish(st) => Finished(l, st, now)
    case Flush => Flushed(l, now)
  }

  /** Any interleaving of the rules, each with the time it runs at. */
  function Lived(l: Life, events: seq<(Event, nat)>): Life
    decreases |events|
  {
    if events == [] then l
    else Lived(Applied(l, events[0].0, events[0].1), events[1..])
  }

  /** What one row keeps from an earlier point of its life to a later one. */
  predicate Grew(a: Life, b: Life) {
    && (Settled(a) ==> Settled(b))
    && (Settled(a) && Terminal(a.status) ==> Terminal(b.status))
    && (a.status.Cancelled? ==> b.status.Cancelled?)
    && (a.startedAt.Some? ==> a.startedAt == b.startedAt)
  }

  predicate Halts(events: seq<(Event, nat)>) {
    exists k :: 0 <= k < |events| && events[k].0.Halt?
  }

  /**
    Terminal closure. Under every interleaving of worker updates, failures from
    outside, cancels, stops, pipeline finishes and flushes: a settled row stays
    settled, a terminal row never becomes active again, a cancelled row stays
    cancelled, and the start stamp is written once. Without a stop a cancelled
    row does not change at all.
  */
  lemma {:induction false} TerminalClosure(l: Life, events: seq<(Event, nat)>)
    requires forall k :: 0 <= k < |events| ==> Proper(events[k].0)
    ensures Grew(l, Lived(l, events))
    ensures l.status.Cancelled? && !Halts(events) ==> Lived(l, events) == l
    decreases |events|
  {
    if events != [] {
      var m := Applied(l, events[0].0, events[0].1);
      assert Proper(events[0].0);
      assert Grew(l, m);
      assert forall k :: 0 <= k < |events| - 1 ==> events[1..][k] == events[k + 1];
      TerminalClosure(m, events[1..]);
    }
  }

  /** How a terminal status may still change: between success and failed, and to cancelled exactly by a stop. */
  lemma {:induction false} TerminalChanges(l: Life, events: seq<(Event, nat)>)
    requires Settled(l) && Terminal(l.status)
    requires forall k :: 0 <= k < |events| ==> Proper(events[k].0)
    ensures Lived(l, events).status.Cancelled? <==> l.status.Cancelled? || Halts(events)
    decreases |events|
  {
    if events != [] {
      var m := Applied(l, events[0].0, events[0].1);
      assert Proper(events[0].0);
      assert forall k :: 0 <= k < |events| - 1 ==> events[1..][k] == events[k + 1];
      TerminalChanges(m, events[1..]);
      assert Halts(events) <==> events[0].0.Halt? || Halts(events[1..]);
    }
  }

  /**
    The one write outside these rules. The first write of a Move keeps the row
    settled exactly when the row was not finished before, and undoes a cancel
    whenever there was one.
  */
  lemma BegunKeepsSettledIff(l: Life, now: nat)
    requires Settled(l)
    ensures Settled(Begun(l, now)) <==> Active(l.status)
    ensures Grew(l, Begun(l, now)) <==> Active(l.status) && (l.startedAt.Some? ==> l.startedAt == Some(now))
  {
  }
}
