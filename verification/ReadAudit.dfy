/** The audit of admin reads: one row for each token and path every five minutes. */
module ReadAudit {
  import opened Text

  const WINDOW := 300
  const ACTION := "api_read"
  const DETAIL_CAP := 200

  /** An audit row, with the part of it that the dedupe looks at. */
  datatype Row = Row(action: string, token: nat, details: string, at: nat)

  /** The label of a read. A text that looks like a token is dropped. */
  function PublicDetail(what: string): string {
    var text := Joined(Fields(what));
    if Contains(Lower(text), "ph_") then "read"
    else if text == "" then "read"
    else if |text| <= DETAIL_CAP then text else text[..DETAIL_CAP]
  }

  predicate For(row: Row, token: nat, what: string) {
    row.action == ACTION && row.token == token && row.details == what
  }

  /** The query for a row at most five minutes old. */
  predicate Recent(rows: seq<Row>, token: nat, what: string, now: nat) {
    exists k :: 0 <= k < |rows| && For(rows[k], token, what) && rows[k].at + WINDOW >= now
  }

  /** One admin read: the clock is taken for the cutoff, and again for the new row. */
  datatype Get = Get(enabled: bool, token: nat, path: string, now: nat, later: nat)

  function Recorded(rows: seq<Row>, g: Get): seq<Row> {
    var what := PublicDetail(g.path);
    if !g.enabled || Recent(rows, g.token, what, g.now) then rows
    else rows + [Row(ACTION, g.token, what, g.later)]
  }

  class AuditTable {
    var rows: seq<Row>

    constructor ()
      ensures rows == []
    {
      rows := [];
    }

    method AuditAdminGet(g: Get)
      modifies this
      ensures rows == Recorded(old(rows), g)
      ensures g.enabled ==> exists k :: 0 <= k < |rows| && For(rows[k], g.token, PublicDetail(g.path))
                                        && (rows[k].at + WINDOW >= g.now || rows[k].at == g.later)
    {
      if !g.enabled {
        return;
      }
      var what := PublicDetail(g.path);
      var k := 0;
      while k < |rows|
        invariant 0 <= k <= |rows|
        invariant forall i :: 0 <= i < k ==> !(For(rows[i], g.token, what) && rows[i].at + WINDOW >= g.now)
      {
        var row := rows[k];
        if row.action == ACTION && row.token == g.token && row.details == what && row.at + WINDOW >= g.now {
          assert Recent(rows, g.token, what, g.now);
          return;
        }
        k := k + 1;
      }
      rows := rows + [Row(ACTION, g.token, what, g.later)];
      assert For(rows[|rows| - 1], g.token, what);
    }
  }

  // ------------------------------------------------------------------ serial reads

  /** Rows of one token and label are more than five minutes apart. */
  predicate Spaced(rows: seq<Row>, token: nat, what: string) {
    forall i, j :: 0 <= i < j < |rows| && For(rows[i], token, what) && For(rows[j], token, what)
                   ==> rows[i].at + 300 < rows[j].at
  }

  predicate NotAfter(rows: seq<Row>, time: nat) {
    forall k :: 0 <= k < |rows| ==> rows[k].at <= time
  }

  /** Reads one after the other, on a clock that does not go back. */
  predicate Serial(gets: seq<Get>, from: nat)
    decreases |gets|
  {
    gets != [] ==> from <= gets[0].now <= gets[0].later && Serial(gets[1..], gets[0].later)
  }

  function RecordedAll(rows: seq<Row>, gets: seq<Get>): seq<Row>
    decreases |gets|
  {
    if gets == [] then rows else RecordedAll(Recorded(rows, gets[0]), gets[1..])
  }

  /** Over every serial run, whatever tokens and paths it mixes and however the flag is switched, rows stay spaced. */
  lemma {:induction false} SerialReadsStaySpaced(rows: seq<Row>, gets: seq<Get>, from: nat, token: nat, what: string)
    requires Spaced(rows, token, what) && NotAfter(rows, from) && Serial(gets, from)
    ensures Spaced(RecordedAll(rows, gets), token, what)
    decreases |gets|
  {
    if gets != [] {
      var next := Recorded(rows, gets[0]);
      assert Spaced(next, token, what) by {
        forall i, j | 0 <= i < j < |next| && For(next[i], token, what) && For(next[j], token, what)
          ensures next[i].at + 300 < next[j].at
        {
          if j == |rows| {
            assert For(rows[i], token, what);
          }
        }
      }
      SerialReadsStaySpaced(next, gets[1..], gets[0].later, token, what);
    }
  }

  function CountIn(rows: seq<Row>, token: nat, what: string, lo: int, hi: int): nat {
    if rows == [] then 0
    else
      var last := rows[|rows| - 1];
      CountIn(rows[..|rows| - 1], token, what, lo, hi)
      + (if For(last, token, what) && lo <= last.at <= hi then 1 else 0)
  }

  lemma {:induction false} CountBelow(rows: seq<Row>, token: nat, what: string, lo: int, hi: int, cut: int)
    requires cut <= hi
    requires forall k :: 0 <= k < |rows| && For(rows[k], token, what) ==> rows[k].at <= cut
    ensures CountIn(rows, token, what, lo, hi) == CountIn(rows, token, what, lo, cut)
  {
    if rows != [] {
      CountBelow(rows[..|rows| - 1], token, what, lo, hi, cut);
    }
  }

  lemma {:induction false} CountEmpty(rows: seq<Row>, token: nat, what: string, lo: int, hi: int)
    requires hi < lo
    ensures CountIn(rows, token, what, lo, hi) == 0
  {
    if rows != [] {
      CountEmpty(rows[..|rows| - 1], token, what, lo, hi);
    }
  }

  /** Any window of that many seconds holds at most one row for each full five minutes, and one more. */
  lemma {:induction false} WindowBound(rows: seq<Row>, token: nat, what: string, lo: int, hi: int)
    requires Spaced(rows, token, what) && lo <= hi
    ensures CountIn(rows, token, what, lo, hi) <= (hi - lo) / 300 + 1
  {
    if rows != [] {
      var before, last := rows[..|rows| - 1], rows[|rows| - 1];
      if For(last, token, what) && lo <= last.at <= hi {
        var cut := last.at - 300 - 1;
        CountBelow(before, token, what, lo, hi, cut);
        if cut < lo {
          CountEmpty(before, token, what, lo, cut);
        } else {
          WindowBound(before, token, what, lo, cut);
        }
      } else {
        WindowBound(before, token, what, lo, hi);
      }
    }
  }

  /** After every read with the flag on there is a row for it that is at most five minutes old. */
  lemma EveryReadIsCovered(rows: seq<Row>, g: Get)
    requires g.enabled && g.now <= g.later
    ensures var next := Recorded(rows, g);
            exists k :: 0 <= k < |next| && next[k].action == "api_read" && next[k].token == g.token
                        && next[k].details == PublicDetail(g.path) && next[k].at + 300 >= g.now
  {
    var what, next := PublicDetail(g.path), Recorded(rows, g);
    if !Recent(rows, g.token, what, g.now) {
      assert For(next[|next| - 1], g.token, what);
    }
  }

  /** A read writes exactly when the flag is on and no such row exists yet, and then that row comes last. */
  lemma ReadWritesIff(rows: seq<Row>, g: Get)
    ensures var next, what := Recorded(rows, g), PublicDetail(g.path);
            var covered := exists k :: 0 <= k < |rows| && rows[k].action == "api_read" && rows[k].token == g.token
                                       && rows[k].details == what && rows[k].at >= g.now - 300;
            next == if g.enabled && !covered then rows + [Row("api_read", g.token, what, g.later)] else rows
  {
    hide PublicDetail;
    var what := PublicDetail(g.path);
    if Recent(rows, g.token, what, g.now) {
      var k :| 0 <= k < |rows| && For(rows[k], g.token, what) && rows[k].at + WINDOW >= g.now;
      assert rows[k].at >= g.now - 300;
    }
    if k :| 0 <= k < |rows| && rows[k].action == "api_read" && rows[k].token == g.token
            && rows[k].details == what && rows[k].at >= g.now - 300
    {
      assert For(rows[k], g.token, what);
      assert Recent(rows, g.token, what, g.now);
    }
  }

  /**
    The label of a read: never empty, at most 200 characters, and without a
    token. A short label of single blanks is kept as it is, a long one is cut,
    and one that holds a token, in any case, becomes "read".
  */
  lemma LabelOfARead(words: seq<string>)
    requires forall k :: 0 <= k < |words| ==> IsWord(words[k])
    ensures var text, shown := Joined(words), PublicDetail(Joined(words));
            && shown != "" && |shown| <= 200
            && (Contains(Lower(text), "ph_") || words == [] ==> shown == "read")
            && (!Contains(Lower(text), "ph_") && words != [] ==>
                  shown == if |text| <= 200 then text else text[..200])
  {
    FieldsOfJoined(words);
    JoinedIsTrim(words);
    hide Joined, Fields, Contains, Lower;
  }

  // -------------------------------------------------------------- overlapping reads

  /** A read whose query found nothing and whose row is still to be written. */
  datatype Pending = Pending(token: nat, what: string)

  /** The table with its clock, the flag, and the reads between their query and their write. */
  datatype State = State(now: nat, enabled: bool, rows: seq<Row>, open: map<nat, Pending>)

  const INIT := State(0, true, [], map[])

  /** A step of one read, time, or a change of the flag. */
  datatype Action =
    | Query(id: nat, token: nat, path: string)
    | Write(id: nat)
    | Tick(d: nat)
    | Switch(enabled: bool)

  predicate Enabled(s: State, a: Action) {
    match a
    case Query(id, _, _) => id !in s.open
    case Write(id) => id in s.open
    case _ => true
  }

  function Do(s: State, a: Action): State
    requires Enabled(s, a)
  {
    match a
    case Query(id, token, path) =>
      var what := PublicDetail(path);
      if !s.enabled || Recent(s.rows, token, what, s.now) then s else s.(open := s.open[id := Pending(token, what)])
    case Write(id) =>
      var p := s.open[id];
      s.(open := s.open - {id}, rows := if s.enabled then s.rows + [Row(ACTION, p.token, p.what, s.now)] else s.rows)
    case Tick(d) => s.(now := s.now + d)
    case Switch(enabled) => s.(enabled := enabled)
  }

  predicate Legal(s: State, acts: seq<Action>)
    decreases |acts|
  {
    acts != [] ==> Enabled(s, acts[0]) && Legal(Do(s, acts[0]), acts[1..])
  }

  function Exec(s: State, acts: seq<Action>): State
    requires Legal(s, acts)
    decreases |acts|
  {
    if acts == [] then s else Exec(Do(s, acts[0]), acts[1..])
  }

  /** Alone, the two steps of a read are the read. */
  lemma AloneIsRecorded(s: State, id: nat, token: nat, path: string)
    requires id !in s.open
    ensures var queried := Do(s, Query(id, token, path));
            var done := if id in queried.open then Do(queried, Write(id)) else queried;
            && done.rows == Recorded(s.rows, Get(s.enabled, token, path, s.now, s.now))
            && done.open == s.open
  {
  }

  /** A write that meets a row of its own token and label that is at most five minutes old. */
  predicate Repeats(s: State, a: Action, token: nat, what: string) {
    && a.Write? && a.id in s.open && s.enabled
    && s.open[a.id] == Pending(token, what) && Recent(s.rows, token, what, s.now)
  }

  predicate NeverRepeats(s: State, acts: seq<Action>, token: nat, what: string)
    requires Legal(s, acts)
    decreases |acts|
  {
    acts != [] ==> !Repeats(s, acts[0], token, what) && NeverRepeats(Do(s, acts[0]), acts[1..], token, what)
  }

  /** A write keeps the spacing exactly when the query would still find nothing at that moment. */
  lemma WriteStaysSpacedIff(rows: seq<Row>, token: nat, what: string, later: nat)
    requires Spaced(rows, token, what) && NotAfter(rows, later)
    ensures Spaced(rows + [Row(ACTION, token, what, later)], token, what) <==> !Recent(rows, token, what, later)
  {
    var next := rows + [Row(ACTION, token, what, later)];
    if Recent(rows, token, what, later) {
      var k :| 0 <= k < |rows| && For(rows[k], token, what) && rows[k].at + WINDOW >= later;
      assert For(next[k], token, what) && For(next[|rows|], token, what);
    }
  }

  /** A row of another token or label does not matter. */
  lemma OtherRowKeepsSpaced(rows: seq<Row>, row: Row, token: nat, what: string)
    requires !For(row, token, what)
    ensures Spaced(rows + [row], token, what) <==> Spaced(rows, token, what)
  {
    var next := rows + [row];
    assert forall k :: 0 <= k < |rows| ==> next[k] == rows[k];
  }

  lemma StepSpacedIff(s: State, a: Action, token: nat, what: string)
    requires Enabled(s, a) && Spaced(s.rows, token, what) && NotAfter(s.rows, s.now)
    ensures NotAfter(Do(s, a).rows, Do(s, a).now)
    ensures Spaced(Do(s, a).rows, token, what) <==> !Repeats(s, a, token, what)
  {
    if a.Write? && s.enabled {
      var p := s.open[a.id];
      if p == Pending(token, what) {
        WriteStaysSpacedIff(s.rows, token, what, s.now);
      } else {
        OtherRowKeepsSpaced(s.rows, Row(ACTION, p.token, p.what, s.now), token, what);
      }
    }
  }

  /** Rows are only appended, so two that are too close stay too close. */
  lemma {:induction false} CloseRowsStay(s: State, acts: seq<Action>, token: nat, what: string)
    requires Legal(s, acts) && !Spaced(s.rows, token, what)
    ensures !Spaced(Exec(s, acts).rows, token, what)
    decreases |acts|
  {
    if acts != [] {
      var next := Do(s, acts[0]);
      var i, j :| 0 <= i < j < |s.rows| && For(s.rows[i], token, what) && For(s.rows[j], token, what)
                  && s.rows[i].at + 300 >= s.rows[j].at;
      assert For(next.rows[i], token, what) && For(next.rows[j], token, what);
      CloseRowsStay(next, acts[1..], token, what);
    }
  }

  /**
    Over every run, however reads overlap, the rows of a token and a label end
    more than five minutes apart exactly when none of their writes met a row of
    theirs that was at most five minutes old.
  */
  lemma {:induction false} RunStaysSpacedIff(s: State, acts: seq<Action>, token: nat, what: string)
    requires Legal(s, acts) && Spaced(s.rows, token, what) && NotAfter(s.rows, s.now)
    ensures Spaced(Exec(s, acts).rows, token, what) <==> NeverRepeats(s, acts, token, what)
    decreases |acts|
  {
    if acts != [] {
      StepSpacedIff(s, acts[0], token, what);
      if Repeats(s, acts[0], token, what) {
        CloseRowsStay(Do(s, acts[0]), acts[1..], token, what);
      } else {
        RunStaysSpacedIff(Do(s, acts[0]), acts[1..], token, what);
      }
    }
  }

  /** The run in which two reads both query before either writes, and two rows of one second remain. */
  lemma OverlappingReadsRepeat(token: nat, path: string) returns (acts: seq<Action>)
    ensures acts == [Query(1, token, path), Query(2, token, path), Write(1), Write(2)]
    ensures Legal(INIT, acts) && !Spaced(Exec(INIT, acts).rows, token, PublicDetail(path))
  {
    hide PublicDetail;
    acts := [Query(1, token, path), Query(2, token, path), Write(1), Write(2)];
    var what := PublicDetail(path);
    var p := Pending(token, what);
    var row := Row(ACTION, token, what, 0);
    var s1 := State(0, true, [], map[1 := p]);
    var s2 := State(0, true, [], map[1 := p, 2 := p]);
    var s3 := State(0, true, [row], map[2 := p]);
    assert Do(INIT, acts[0]) == s1 && Do(s1, acts[1]) == s2;
    assert s2.open - {1} == map[2 := p];
    assert Do(s2, acts[2]) == s3;
    assert For(s3.rows[0], token, what) && Recent(s3.rows, token, what, 0);
    var r1, r2, r3 := acts[1..], acts[2..], acts[3..];
    assert r1[1..] == r2 && r2[1..] == r3 && r3[1..] == [];
    var s4 := Do(s3, r3[0]);
    assert Legal(s4, []) && Legal(s3, r3);
    assert r2[0] == Write(1) && Legal(s2, r2);
    assert r1[0] == Query(2, token, path) && Legal(s1, r1) && Legal(INIT, acts);
    assert !NeverRepeats(s3, r3, token, what);
    assert !NeverRepeats(s2, r2, token, what);
    assert !NeverRepeats(s1, r1, token, what);
    RunStaysSpacedIff(INIT, acts, token, what);
  }
}
