/** The user table under the admin's requests: create, change of role, delete. */
module AdminUsers {
  import opened Wrappers
  import opened Text

  const ADMIN := "admin"
  const OPERATOR := "operator"
  const VIEWER := "viewer"

  predicate ValidRole(role: string) {
    role == ADMIN || role == OPERATOR || role == VIEWER
  }

  /** An unknown or empty role is a viewer. */
  function NormalizeRole(role: string): (r: string)
    ensures ValidRole(r)
  {
    var r := Lower(Strip(role));
    if ValidRole(r) then r else VIEWER
  }

  datatype User = User(id: nat, email: string, role: string, active: bool)

  predicate IsAdmin(u: User) {
    NormalizeRole(u.role) == ADMIN
  }

  predicate ActiveAdmin(u: User) {
    u.active && IsAdmin(u)
  }

  function CountActiveAdmins(rows: seq<User>): nat {
    if rows == [] then 0
    else CountActiveAdmins(rows[..|rows| - 1]) + (if ActiveAdmin(rows[|rows| - 1]) then 1 else 0)
  }

  predicate SoleAdmin(rows: seq<User>, u: User) {
    IsAdmin(u) && CountActiveAdmins(rows) <= 1
  }

  /** Position of the first user with an id, or the length of the table. */
  function Position(rows: seq<User>, id: nat): (k: nat)
    ensures k <= |rows| && (k < |rows| ==> rows[k].id == id)
    ensures forall i :: 0 <= i < k ==> rows[i].id != id
  {
    if rows == [] || rows[0].id == id then 0 else 1 + Position(rows[1..], id)
  }

  datatype Outcome =
    | NotFound | BadRole | LastAdmin | Saved
    | DeleteSelf | Unconfirmed | Deleted
    | BadEmail | BadPassword | EmailTaken | Created

  datatype Request =
    | SetRole(target: nat, role: string)
    | Delete(admin: nat, target: nat, confirm: string)
    | Create(email: string, passwordOk: bool, role: string, id: nat)

  function Without(rows: seq<User>, k: nat): seq<User>
    requires k < |rows|
  {
    rows[..k] + rows[k + 1..]
  }

  predicate Confirmed(confirm: string) {
    confirm in {"1", "on", "true", "yes", "DELETE"}
  }

  function RoleSet(rows: seq<User>, target: nat, role: string): (seq<User>, Outcome) {
    var k, r := Position(rows, target), NormalizeRole(role);
    if k == |rows| then (rows, NotFound)
    else if !ValidRole(r) then (rows, BadRole)
    else if IsAdmin(rows[k]) && r != ADMIN && SoleAdmin(rows, rows[k]) then (rows, LastAdmin)
    else if NormalizeRole(rows[k].role) == r then (rows, Saved)
    else (rows[k := rows[k].(role := r)], Saved)
  }

  function UserDeleted(rows: seq<User>, admin: nat, target: nat, confirm: string): (seq<User>, Outcome) {
    var k := Position(rows, target);
    if k == |rows| then (rows, NotFound)
    else if target == admin then (rows, DeleteSelf)
    else if SoleAdmin(rows, rows[k]) then (rows, LastAdmin)
    else if !Confirmed(confirm) then (rows, Unconfirmed)
    else (Without(rows, k), Deleted)
  }

  predicate Taken(rows: seq<User>, email: string) {
    exists k :: 0 <= k < |rows| && rows[k].email == email
  }

  function UserCreated(rows: seq<User>, email: string, passwordOk: bool, role: string, id: nat): (seq<User>, Outcome) {
    var address := Lower(Strip(email));
    if address == "" || '@' !in address then (rows, BadEmail)
    else if !passwordOk then (rows, BadPassword)
    else if Taken(rows, address) then (rows, EmailTaken)
    else (rows + [User(id, address, NormalizeRole(role), true)], Created)
  }

  function Handled(rows: seq<User>, r: Request): (seq<User>, Outcome) {
    match r
    case SetRole(target, role) => RoleSet(rows, target, role)
    case Delete(admin, target, confirm) => UserDeleted(rows, admin, target, confirm)
    case Create(email, passwordOk, role, id) => UserCreated(rows, email, passwordOk, role, id)
  }

  // -------------------------------------------------------------------- the handlers

  class UserTable {
    var rows: seq<User>

    constructor (first: User)
      ensures rows == [first]
    {
      rows := [first];
    }

    method CountAdmins() returns (n: nat)
      ensures n == CountActiveAdmins(rows)
    {
      n := 0;
      for k := 0 to |rows|
        invariant n == CountActiveAdmins(rows[..k])
      {
        assert rows[..k + 1][..k] == rows[..k];
        if rows[k].active && NormalizeRole(rows[k].role) == ADMIN {
          n := n + 1;
        }
      }
      assert rows[..|rows|] == rows;
    }

    method IsSoleAdmin(u: User) returns (sole: bool)
      ensures sole <==> SoleAdmin(rows, u)
    {
      if NormalizeRole(u.role) != ADMIN {
        return false;
      }
      var n := CountAdmins();
      return n <= 1;
    }

    method SetUserRole(target: nat, role: string) returns (outcome: Outcome)
      modifies this
      ensures (rows, outcome) == RoleSet(old(rows), target, role)
      ensures CountActiveAdmins(old(rows)) > 0 ==> CountActiveAdmins(rows) > 0
    {
      HandledKeepsAdmin(rows, SetRole(target, role));
      var k := Position(rows, target);
      if k == |rows| {
        return NotFound;
      }
      var r := NormalizeRole(role);
      if NormalizeRole(rows[k].role) == ADMIN && r != ADMIN {
        var sole := IsSoleAdmin(rows[k]);
        if sole {
          return LastAdmin;
        }
      }
      if NormalizeRole(rows[k].role) == r {
        return Saved;
      }
      rows := rows[k := rows[k].(role := r)];
      return Saved;
    }

    method DeleteUser(admin: nat, target: nat, confirm: string) returns (outcome: Outcome)
      modifies this
      ensures (rows, outcome) == UserDeleted(old(rows), admin, target, confirm)
      ensures CountActiveAdmins(old(rows)) > 0 ==> CountActiveAdmins(rows) > 0
    {
      HandledKeepsAdmin(rows, Delete(admin, target, confirm));
      var k := Position(rows, target);
      if k == |rows| {
        return NotFound;
      }
      if rows[k].id == admin {
        return DeleteSelf;
      }
      var sole := IsSoleAdmin(rows[k]);
      if sole {
        return LastAdmin;
      }
      if !Confirmed(confirm) {
        return Unconfirmed;
      }
      rows := rows[..k] + rows[k + 1..];
      return Deleted;
    }

    method CreateUser(email: string, passwordOk: bool, role: string, id: nat) returns (outcome: Outcome)
      modifies this
      ensures (rows, outcome) == UserCreated(old(rows), email, passwordOk, role, id)
      ensures CountActiveAdmins(old(rows)) > 0 ==> CountActiveAdmins(rows) > 0
    {
      HandledKeepsAdmin(rows, Create(email, passwordOk, role, id));
      var address := Lower(Strip(email));
      if address == "" || '@' !in address {
        return BadEmail;
      }
      if !passwordOk {
        return BadPassword;
      }
      if exists k :: 0 <= k < |rows| && rows[k].email == address {
        return EmailTaken;
      }
      rows := rows + [User(id, address, NormalizeRole(role), true)];
      return Created;
    }
  }

  // --------------------------------------------------------------- at least one admin

  lemma {:induction false} CountConcat(a: seq<User>, b: seq<User>)
    ensures CountActiveAdmins(a + b) == CountActiveAdmins(a) + CountActiveAdmins(b)
  {
    if b == [] {
      assert a + b == a;
    } else {
      assert (a + b)[..|a + b| - 1] == a + b[..|b| - 1];
      CountConcat(a, b[..|b| - 1]);
    }
  }

  lemma CountOne(u: User)
    ensures CountActiveAdmins([u]) == if ActiveAdmin(u) then 1 else 0
  {
    assert [u][..0] == [];
  }

  lemma CountAround(rows: seq<User>, k: nat)
    requires k < |rows|
    ensures CountActiveAdmins(rows) == CountActiveAdmins(Without(rows, k)) + (if ActiveAdmin(rows[k]) then 1 else 0)
  {
    hide CountActiveAdmins, ActiveAdmin;
    assert rows == rows[..k] + ([rows[k]] + rows[k + 1..]);
    CountConcat(rows[..k], [rows[k]] + rows[k + 1..]);
    CountConcat([rows[k]], rows[k + 1..]);
    CountConcat(rows[..k], rows[k + 1..]);
    CountOne(rows[k]);
  }

  lemma HandledKeepsAdmin(rows: seq<User>, r: Request)
    ensures CountActiveAdmins(rows) > 0 ==> CountActiveAdmins(Handled(rows, r).0) > 0
  {
    hide Handled, CountActiveAdmins, Committed, TakesLast;
    if Passes(rows, r) && CountActiveAdmins(rows) > 0 {
      CommittedIsHandled(rows, r);
      RecheckIsEnough(rows, r);
      CommitKeepsAdminIff(rows, r);
    }
  }

  function HandledAll(rows: seq<User>, requests: seq<Request>): seq<User>
    decreases |requests|
  {
    if requests == [] then rows else HandledAll(Handled(rows, requests[0]).0, requests[1..])
  }

  /** Once there is an active admin, every sequence of requests, one after the other, keeps one. */
  lemma {:induction false} AlwaysAnAdmin(rows: seq<User>, requests: seq<Request>)
    requires CountActiveAdmins(rows) > 0
    ensures CountActiveAdmins(HandledAll(rows, requests)) > 0
    decreases |requests|
  {
    if requests != [] {
      HandledKeepsAdmin(rows, requests[0]);
      AlwaysAnAdmin(Handled(rows, requests[0]).0, requests[1..]);
    }
  }

  /**
    A change of role takes effect on that user alone, unless it would take the
    last active admin's role. No role text is refused as bad: what is not a
    role makes the user a viewer.
  */
  lemma RoleIsTakenUnlessLastAdmin(rows: seq<User>, target: nat, role: string)
    requires Position(rows, target) < |rows|
    ensures var k, (next, outcome) := Position(rows, target), RoleSet(rows, target, role);
            && (outcome == LastAdmin <==> SoleAdmin(rows, rows[k]) && NormalizeRole(role) != ADMIN)
            && (outcome != LastAdmin ==> outcome == Saved && NormalizeRole(next[k].role) == NormalizeRole(role))
            && (!ValidRole(Lower(Strip(role))) && outcome == Saved ==> NormalizeRole(next[k].role) == VIEWER)
            && next == rows[k := rows[k].(role := next[k].role)]
  {
    RoleSetCases(rows, target, role);
    NormalizeTwice(role);
    var u, r := rows[Position(rows, target)], NormalizeRole(role);
    assert !ValidRole(Lower(Strip(role))) ==> r == VIEWER;
    assert u.(role := u.role) == u;
    hide RoleSet, NormalizeRole, SoleAdmin, Position, ValidRole, Lower, Strip;
  }

  lemma RoleSetCases(rows: seq<User>, target: nat, role: string)
    requires Position(rows, target) < |rows|
    ensures var k, r := Position(rows, target), NormalizeRole(role);
            RoleSet(rows, target, role) ==
            if SoleAdmin(rows, rows[k]) && r != ADMIN then (rows, LastAdmin)
            else (if NormalizeRole(rows[k].role) == r then rows else rows[k := rows[k].(role := r)], Saved)
  {
    hide NormalizeRole, CountActiveAdmins, Position;
  }

  /** A stored role is read back as it is, and an unknown one as viewer. */
  lemma NormalizeTwice(role: string)
    ensures NormalizeRole(NormalizeRole(role)) == NormalizeRole(role)
    ensures !ValidRole(Lower(Strip(role))) ==> NormalizeRole(role) == VIEWER
  {
    NormalizeAdmin();
    NormalizeOperator();
    NormalizeViewer();
  }

  lemma NormalizeOperator()
    ensures NormalizeRole(OPERATOR) == OPERATOR
  {
    StripOfTrim(OPERATOR);
    assert Lower(OPERATOR) == OPERATOR;
  }

  lemma NormalizeViewer()
    ensures NormalizeRole(VIEWER) == VIEWER
  {
    StripOfTrim(VIEWER);
    assert Lower(VIEWER) == VIEWER;
  }

  lemma NormalizeAdmin()
    ensures NormalizeRole(ADMIN) == ADMIN
  {
    StripOfTrim(ADMIN);
    assert Lower(ADMIN) == ADMIN;
  }

  // ------------------------------------------------------- the answers, in plain terms

  /** The three roles, in any case and between blanks; every other text is a viewer. */
  lemma RolesAreRead(role: string)
    ensures var text := Lower(Strip(role));
            NormalizeRole(role) == if text == "admin" || text == "operator" then text else "viewer"
  {
  }

  /** An active row whose role reads as admin. */
  predicate AdminAt(rows: seq<User>, k: nat) {
    k < |rows| && rows[k].active && Lower(Strip(rows[k].role)) == "admin"
  }

  lemma AdminAtIff(rows: seq<User>, k: nat)
    requires k < |rows|
    ensures AdminAt(rows, k) <==> ActiveAdmin(rows[k])
  {
    RolesAreRead(rows[k].role);
    hide NormalizeRole, Lower, Strip;
  }

  lemma {:induction false} CountIsZeroIff(rows: seq<User>)
    ensures CountActiveAdmins(rows) == 0 <==> forall k :: 0 <= k < |rows| ==> !ActiveAdmin(rows[k])
  {
    hide ActiveAdmin;
    if rows != [] {
      var before := rows[..|rows| - 1];
      CountIsZeroIff(before);
      assert forall k :: 0 <= k < |before| ==> before[k] == rows[k];
    }
  }

  /** The count is one at most exactly when no two rows are active admins. */
  lemma {:induction false} CountIsAtMostOneIff(rows: seq<User>)
    ensures CountActiveAdmins(rows) <= 1 <==>
            forall i, j :: 0 <= i < j < |rows| ==> !ActiveAdmin(rows[i]) || !ActiveAdmin(rows[j])
  {
    hide ActiveAdmin;
    if rows != [] {
      var before := rows[..|rows| - 1];
      CountIsAtMostOneIff(before);
      CountIsZeroIff(before);
      assert forall k :: 0 <= k < |before| ==> before[k] == rows[k];
      if ActiveAdmin(rows[|rows| - 1]) && CountActiveAdmins(before) != 0 {
        var i :| 0 <= i < |before| && ActiveAdmin(before[i]);
        assert ActiveAdmin(rows[i]) && ActiveAdmin(rows[|rows| - 1]);
      }
    }
  }

  /** The last admin: an admin's row in a table without two active admins. */
  predicate LastAdminRow(rows: seq<User>, k: nat) {
    && k < |rows| && Lower(Strip(rows[k].role)) == "admin"
    && forall i, j :: 0 <= i < j < |rows| ==> !AdminAt(rows, i) || !AdminAt(rows, j)
  }

  lemma SoleAdminIsLast(rows: seq<User>, k: nat)
    requires k < |rows|
    ensures SoleAdmin(rows, rows[k]) <==> LastAdminRow(rows, k)
  {
    RolesAreRead(rows[k].role);
    CountIsAtMostOneIff(rows);
    hide NormalizeRole, Lower, Strip, CountActiveAdmins, ActiveAdmin, AdminAt;
    forall i | 0 <= i < |rows|
      ensures AdminAt(rows, i) <==> ActiveAdmin(rows[i])
    {
      AdminAtIff(rows, i);
    }
  }

  /** Which demotions are refused: exactly the last admin's. */
  lemma DemotionIsRefusedIff(rows: seq<User>, target: nat, role: string)
    requires Position(rows, target) < |rows|
    ensures RoleSet(rows, target, role).1 == LastAdmin <==>
            LastAdminRow(rows, Position(rows, target)) && Lower(Strip(role)) != "admin"
  {
    RoleIsTakenUnlessLastAdmin(rows, target, role);
    SoleAdminIsLast(rows, Position(rows, target));
    RolesAreRead(role);
    hide RoleSet, NormalizeRole, SoleAdmin, LastAdminRow, Position, Lower, Strip;
  }

  /**
    A delete takes place exactly when the target is somebody else, not the last
    admin, and confirmed. Then that row is gone and the others keep their
    order. Otherwise nothing changes, and the answer names the first test that
    failed.
  */
  lemma DeleteTakesPlaceIff(rows: seq<User>, admin: nat, target: nat, confirm: string)
    requires Position(rows, target) < |rows|
    ensures var k, (next, outcome) := Position(rows, target), UserDeleted(rows, admin, target, confirm);
            var confirmed := confirm in {"1", "on", "true", "yes", "DELETE"};
            && (outcome == Deleted <==> target != admin && !LastAdminRow(rows, k) && confirmed)
            && next == (if outcome == Deleted then rows[..k] + rows[k + 1..] else rows)
            && (target == admin ==> outcome == DeleteSelf)
            && (target != admin && LastAdminRow(rows, k) ==> outcome == LastAdmin)
            && (target != admin && !LastAdminRow(rows, k) && !confirmed ==> outcome == Unconfirmed)
  {
    SoleAdminIsLast(rows, Position(rows, target));
    hide SoleAdmin, LastAdminRow;
  }

  /** No request about a user who is not there changes anything. */
  lemma MissingUserIsNotFound(rows: seq<User>, admin: nat, target: nat, role: string, confirm: string)
    requires forall k :: 0 <= k < |rows| ==> rows[k].id != target
    ensures RoleSet(rows, target, role) == (rows, NotFound) == UserDeleted(rows, admin, target, confirm)
  {
  }

  /**
    A user is created exactly when the address has an at sign, the password is
    accepted and nobody has the address, in lower case and without blanks at
    its ends. The new row comes last, active, with its role normalized.
  */
  lemma CreateTakesPlaceIff(rows: seq<User>, email: string, passwordOk: bool, role: string, id: nat)
    ensures var address, (next, outcome) := Lower(Strip(email)), UserCreated(rows, email, passwordOk, role, id);
            var free := forall k :: 0 <= k < |rows| ==> rows[k].email != address;
            && (outcome == Created <==> '@' in address && passwordOk && free)
            && next == (if outcome == Created then rows + [User(id, address, NormalizeRole(role), true)] else rows)
            && ('@' !in address ==> outcome == BadEmail)
            && ('@' in address && !passwordOk ==> outcome == BadPassword)
            && ('@' in address && passwordOk && !free ==> outcome == EmailTaken)
  {
    hide NormalizeRole, Lower, Strip;
  }

  // ------------------------------------------------------------- overlapping requests

  /**
    An admin's request. Its own row is read first and kept for the rest of the
    request, then the handler checks, then it commits.
  */
  datatype Session = Session(own: User, request: Request, checked: bool)

  datatype State = State(rows: seq<User>, open: map<nat, Session>)

  datatype Action =
    | Load(id: nat, admin: nat, request: Request)
    | Check(id: nat)
    | Commit(id: nat)

  /** The table as a request sees it: the row it kept hides the stored one. */
  function View(rows: seq<User>, own: User): seq<User> {
    var k := Position(rows, own.id);
    if k < |rows| then rows[k := own] else rows
  }

  /** The handler goes on to its write. */
  predicate Passes(view: seq<User>, r: Request) {
    Handled(view, r).0 != view
  }

  /** The write itself, without the check. A row that is gone or an address that is taken is not written. */
  function Committed(rows: seq<User>, r: Request): seq<User> {
    match r
    case SetRole(target, role) =>
      var k := Position(rows, target);
      if k < |rows| then rows[k := rows[k].(role := NormalizeRole(role))] else rows
    case Delete(_, target, _) =>
      var k := Position(rows, target);
      if k < |rows| then Without(rows, k) else rows
    case Create(email, _, role, id) =>
      var address := Lower(Strip(email));
      if Taken(rows, address) then rows else rows + [User(id, address, NormalizeRole(role), true)]
  }

  predicate Enabled(s: State, a: Action) {
    match a
    case Load(id, admin, r) =>
      var k := Position(s.rows, admin);
      id !in s.open && k < |s.rows| && ActiveAdmin(s.rows[k]) && (r.Delete? ==> r.admin == admin)
    case Check(id) => id in s.open && !s.open[id].checked
    case Commit(id) => id in s.open && s.open[id].checked
  }

  function Do(s: State, a: Action): State
    requires Enabled(s, a)
  {
    match a
    case Load(id, admin, r) => s.(open := s.open[id := Session(s.rows[Position(s.rows, admin)], r, false)])
    case Check(id) =>
      var t := s.open[id];
      s.(open := if Passes(View(s.rows, t.own), t.request) then s.open[id := t.(checked := true)] else s.open - {id})
    case Commit(id) => State(Committed(s.rows, s.open[id].request), s.open - {id})
  }

  predicate Legal(s: State, acts: seq<Action>)
    decreases |acts|
  {
    acts != [] ==> Enabled(s, acts[0]) && Legal(Do(s, acts[0]), acts[1..])
  }

  function Exec(s: State, acts: seq<Action>): State
    requires Legal(s, acts)
    decreases |acts|
  {
    if acts == [] then s else Exec(Do(s, acts[0]), acts[1..])
  }

  /** A check that passes on the table, followed by its commit, is the handler of the serial runs. */
  lemma CommittedIsHandled(rows: seq<User>, r: Request)
    requires Passes(rows, r)
    ensures Committed(rows, r) == Handled(rows, r).0
  {
    hide NormalizeRole;
  }

  /** No two rows share an address. */
  predicate AddressesDiffer(rows: seq<User>) {
    forall i, j :: 0 <= i < j < |rows| ==> rows[i].email != rows[j].email
  }

  /** However requests overlap, no address is ever stored twice. */
  lemma {:induction false} AddressesStayDifferent(s: State, acts: seq<Action>)
    requires Legal(s, acts) && AddressesDiffer(s.rows)
    ensures AddressesDiffer(Exec(s, acts).rows)
    decreases |acts|
  {
    if acts != [] {
      hide NormalizeRole, Lower, Strip, Position, ActiveAdmin;
      AddressesStayDifferent(Do(s, acts[0]), acts[1..]);
    }
  }

  /** The guard of the handlers, asked at the commit: the only active admin would lose its role or its row. */
  predicate TakesLast(rows: seq<User>, r: Request) {
    !r.Create?
    && var k := Position(rows, r.target);
       && k < |rows| && ActiveAdmin(rows[k]) && CountActiveAdmins(rows) == 1
       && (r.SetRole? ==> NormalizeRole(r.role) != ADMIN)
  }

  lemma CommitKeepsAdminIff(rows: seq<User>, r: Request)
    requires CountActiveAdmins(rows) > 0
    ensures CountActiveAdmins(Committed(rows, r)) > 0 <==> !TakesLast(rows, r)
  {
    match r
    case SetRole(target, role) =>
      var k := Position(rows, target);
      if k < |rows| {
        var next := rows[k := rows[k].(role := NormalizeRole(role))];
        CountAround(rows, k);
        CountAround(next, k);
        assert Without(next, k) == Without(rows, k);
        NormalizeTwice(role);
      }
    case Delete(_, target, _) =>
      var k := Position(rows, target);
      if k < |rows| {
        CountAround(rows, k);
      }
    case Create(email, _, role, id) =>
      CountConcat(rows, [User(id, Lower(Strip(email)), NormalizeRole(role), true)]);
  }

  /** A check that still passes at the commit rules the last admin out. */
  lemma RecheckIsEnough(rows: seq<User>, r: Request)
    requires Passes(rows, r)
    ensures !TakesLast(rows, r)
  {
    hide NormalizeRole, CountActiveAdmins;
  }

  /** Every state along the run has an active admin. */
  predicate AdminKept(s: State, acts: seq<Action>)
    requires Legal(s, acts)
    decreases |acts|
  {
    CountActiveAdmins(s.rows) > 0 && (acts != [] ==> AdminKept(Do(s, acts[0]), acts[1..]))
  }

  predicate NeverTakesLast(s: State, acts: seq<Action>)
    requires Legal(s, acts)
    decreases |acts|
  {
    acts != [] ==>
      && (acts[0].Commit? ==> !TakesLast(s.rows, s.open[acts[0].id].request))
      && NeverTakesLast(Do(s, acts[0]), acts[1..])
  }

  /**
    Over every run of overlapping requests each state keeps an active admin
    exactly when no commit finds its target to be the only one and takes the
    role or the user away.
  */
  lemma {:induction false} AdminKeptIff(s: State, acts: seq<Action>)
    requires Legal(s, acts) && CountActiveAdmins(s.rows) > 0
    ensures AdminKept(s, acts) <==> NeverTakesLast(s, acts)
    decreases |acts|
  {
    if acts != [] {
      var next := Do(s, acts[0]);
      if acts[0].Commit? {
        CommitKeepsAdminIff(s.rows, s.open[acts[0].id].request);
      }
      if CountActiveAdmins(next.rows) > 0 {
        AdminKeptIff(next, acts[1..]);
      }
    }
  }

  /** The serial handlers as runs: at each commit the check would pass again. */
  predicate Rechecked(s: State, acts: seq<Action>)
    requires Legal(s, acts)
    decreases |acts|
  {
    acts != [] ==>
      && (acts[0].Commit? ==> Passes(s.rows, s.open[acts[0].id].request))
      && Rechecked(Do(s, acts[0]), acts[1..])
  }

  lemma {:induction false} RecheckedKeepsAdmin(s: State, acts: seq<Action>)
    requires Legal(s, acts) && CountActiveAdmins(s.rows) > 0 && Rechecked(s, acts)
    ensures AdminKept(s, acts)
    decreases |acts|
  {
    if acts != [] {
      if acts[0].Commit? {
        RecheckIsEnough(s.rows, s.open[acts[0].id].request);
        CommitKeepsAdminIff(s.rows, s.open[acts[0].id].request);
      }
      RecheckedKeepsAdmin(Do(s, acts[0]), acts[1..]);
    }
  }

  lemma {:induction false} SamePositions(rows: seq<User>, k: nat, u: User, id: nat)
    requires k < |rows| && rows[k].id == u.id
    ensures Position(rows[k := u], id) == Position(rows, id)
  {
    var next := rows[k := u];
    if k > 0 {
      assert next[1..] == rows[1..][k - 1 := u];
      SamePositions(rows[1..], k - 1, u, id);
    } else {
      assert next[1..] == rows[1..];
    }
  }

  /**
    When a commit directly follows its check, as in one process, the last admin
    is lost only if the requester was demoted after its own row was read.
  */
  lemma LostOnlyByStaleRequester(rows: seq<User>, own: User, r: Request)
    requires ActiveAdmin(own) && Passes(View(rows, own), r) && TakesLast(rows, r)
    ensures var k := Position(rows, own.id); k < |rows| && !ActiveAdmin(rows[k])
  {
    hide Passes, TakesLast, Position, ActiveAdmin;
    var k := Position(rows, own.id);
    if k == |rows| {
      RecheckIsEnough(rows, r);
    } else if ActiveAdmin(rows[k]) {
      KeptRowTakesLast(rows, k, own, r);
      RecheckIsEnough(rows[k := own], r);
    }
  }

  lemma KeptRowTakesLast(rows: seq<User>, k: nat, own: User, r: Request)
    requires k < |rows| && rows[k].id == own.id && ActiveAdmin(rows[k]) && ActiveAdmin(own)
    requires TakesLast(rows, r)
    ensures TakesLast(rows[k := own], r)
  {
    hide NormalizeRole, CountActiveAdmins, ActiveAdmin, Position;
    KeptRowCountsAlike(rows, k, own);
    SamePositions(rows, k, own, r.target);
  }

  lemma KeptRowCountsAlike(rows: seq<User>, k: nat, own: User)
    requires k < |rows| && (ActiveAdmin(rows[k]) <==> ActiveAdmin(own))
    ensures CountActiveAdmins(rows[k := own]) == CountActiveAdmins(rows)
  {
    hide CountActiveAdmins, ActiveAdmin;
    CountAround(rows, k);
    CountAround(rows[k := own], k);
    assert Without(rows[k := own], k) == Without(rows, k);
  }

  /** One process: a check that passes is followed by its own commit before any other step. */
  predicate Adjacent(s: State, acts: seq<Action>)
    requires Legal(s, acts)
    decreases |acts|
  {
    acts != [] ==>
      var next := Do(s, acts[0]);
      && (acts[0].Check? && acts[0].id in next.open ==> |acts| > 1 && acts[1] == Commit(acts[0].id))
      && Adjacent(next, acts[1..])
  }

  /** No check is made for a requester that was demoted after its own row was read. */
  predicate NeverStale(s: State, acts: seq<Action>)
    requires Legal(s, acts)
    decreases |acts|
  {
    acts != [] ==>
      && (acts[0].Check? ==>
            var k := Position(s.rows, s.open[acts[0].id].own.id);
            k < |s.rows| ==> ActiveAdmin(s.rows[k]))
      && NeverStale(Do(s, acts[0]), acts[1..])
  }

  /** Every open request was made by an admin, and none has been checked. */
  predicate Unchecked(s: State) {
    forall id :: id in s.open ==> ActiveAdmin(s.open[id].own) && !s.open[id].checked
  }

  /** The step of the result below: a check and, when it passes, its commit. */
  lemma CheckedCommitKeepsAdmin(s: State, id: nat)
    requires Unchecked(s) && id in s.open && CountActiveAdmins(s.rows) > 0
    requires var k := Position(s.rows, s.open[id].own.id);
             k < |s.rows| ==> ActiveAdmin(s.rows[k])
    ensures var next := Do(s, Check(id));
            && (id !in next.open ==> Unchecked(next) && next.rows == s.rows)
            && (id in next.open ==>
                  && Enabled(next, Commit(id)) && next.rows == s.rows
                  && Unchecked(Do(next, Commit(id))) && CountActiveAdmins(Do(next, Commit(id)).rows) > 0)
  {
    hide CountActiveAdmins, Position, ActiveAdmin, Passes, Committed, TakesLast, View;
    var t := s.open[id];
    if Passes(View(s.rows, t.own), t.request) {
      if TakesLast(s.rows, t.request) {
        LostOnlyByStaleRequester(s.rows, t.own, t.request);
      }
      CommitKeepsAdminIff(s.rows, t.request);
    }
  }

  /**
    In one process: over every run in which a commit directly follows its check
    each state keeps an active admin, unless a requester was demoted between
    the read of its own row and its check.
  */
  lemma {:induction false} OneProcessKeepsAdmin(s: State, acts: seq<Action>)
    requires Legal(s, acts) && CountActiveAdmins(s.rows) > 0 && Unchecked(s)
    requires Adjacent(s, acts) && NeverStale(s, acts)
    ensures AdminKept(s, acts)
    decreases |acts|
  {
    hide Passes, Committed, View, CountActiveAdmins, ActiveAdmin, Position;
    if acts != [] {
      var next := Do(s, acts[0]);
      match acts[0]
      case Load(_, _, _) =>
        OneProcessKeepsAdmin(next, acts[1..]);
      case Check(id) =>
        CheckedCommitKeepsAdmin(s, id);
        if id in next.open {
          assert acts[1..][0] == Commit(id) && acts[1..][1..] == acts[2..];
          OneProcessKeepsAdmin(Do(next, Commit(id)), acts[2..]);
        } else {
          OneProcessKeepsAdmin(next, acts[1..]);
        }
      case Commit(_) =>
    }
  }

  const FIRST := User(1, "a@x", ADMIN, true)
  const SECOND := User(2, "b@x", ADMIN, true)

  /** One of two admins against the other: by delete, or by change of role. */
  function Against(byDelete: bool, admin: nat, target: nat): Request {
    if byDelete then Delete(admin, target, "on") else SetRole(target, VIEWER)
  }

  lemma PairCounts(a: User, b: User)
    ensures CountActiveAdmins([a, b]) == (if ActiveAdmin(a) then 1 else 0) + (if ActiveAdmin(b) then 1 else 0)
  {
    assert [a, b] == [a] + [b];
    CountConcat([a], [b]);
    CountOne(a);
    CountOne(b);
  }

  lemma PairPositions(a: User, b: User)
    requires a.id == 1 && b.id == 2
    ensures Position([a, b], 1) == 0 && Position([a, b], 2) == 1
  {
    assert [a, b][1..] == [b];
    assert Position([b], 2) == 0;
  }

  lemma BothPass(byDelete: bool)
    ensures Passes([FIRST, SECOND], Against(byDelete, 1, 2)) && Passes([FIRST, SECOND], Against(byDelete, 2, 1))
  {
    hide NormalizeRole;
    NormalizeAdmin();
    NormalizeViewer();
    PairCounts(FIRST, SECOND);
    PairPositions(FIRST, SECOND);
    assert Confirmed("on");
  }

  const TWO_ADMINS := State([FIRST, SECOND], map[])

  /** One step in front of a run. */
  lemma Before(s: State, a: Action, rest: seq<Action>)
    requires Enabled(s, a) && Legal(Do(s, a), rest)
    ensures Legal(s, [a] + rest) && Exec(s, [a] + rest) == Exec(Do(s, a), rest)
  {
    assert ([a] + rest)[1..] == rest;
  }

  /** Both own rows are read while both are admins. */
  lemma BothLoad(r1: Request, r2: Request, rest: seq<Action>) returns (acts: seq<Action>)
    requires (r1.Delete? ==> r1.admin == 1) && (r2.Delete? ==> r2.admin == 2)
    requires Legal(State([FIRST, SECOND], map[1 := Session(FIRST, r1, false), 2 := Session(SECOND, r2, false)]), rest)
    ensures acts == [Load(1, 1, r1)] + ([Load(2, 2, r2)] + rest)
    ensures var loaded := State([FIRST, SECOND], map[1 := Session(FIRST, r1, false), 2 := Session(SECOND, r2, false)]);
            Legal(TWO_ADMINS, acts) && Exec(TWO_ADMINS, acts) == Exec(loaded, rest)
  {
    hide NormalizeRole;
    NormalizeAdmin();
    PairPositions(FIRST, SECOND);
    var one := State([FIRST, SECOND], map[1 := Session(FIRST, r1, false)]);
    assert Do(TWO_ADMINS, Load(1, 1, r1)) == one;
    Before(one, Load(2, 2, r2), rest);
    Before(TWO_ADMINS, Load(1, 1, r1), [Load(2, 2, r2)] + rest);
    acts := [Load(1, 1, r1)] + ([Load(2, 2, r2)] + rest);
  }

  /** What the two commits leave, whichever the first was. */
  lemma BothCommitted(byDelete: bool)
    ensures var one := Committed([FIRST, SECOND], Against(byDelete, 1, 2));
            CountActiveAdmins(Committed(one, Against(byDelete, 2, 1))) == 0
  {
    hide NormalizeRole;
    NormalizeAdmin();
    NormalizeViewer();
    PairPositions(FIRST, SECOND);
    var one := Committed([FIRST, SECOND], Against(byDelete, 1, 2));
    if byDelete {
      assert one == [FIRST];
      assert Committed(one, Against(byDelete, 2, 1)) == [];
    } else {
      var second := SECOND.(role := VIEWER);
      assert one == [FIRST, second];
      PairPositions(FIRST, second);
      assert Committed(one, Against(byDelete, 2, 1)) == [FIRST.(role := VIEWER), second];
      PairCounts(FIRST.(role := VIEWER), second);
    }
  }

  /** In two processes: two admins check each other before either commits, and nobody is left. */
  lemma CheckedTogetherLeavesNoAdmin(byDelete: bool) returns (acts: seq<Action>)
    ensures var r1, r2 := Against(byDelete, 1, 2), Against(byDelete, 2, 1);
            acts == [Load(1, 1, r1)] + ([Load(2, 2, r2)] +
                    ([Check(1)] + ([Check(2)] + ([Commit(1)] + ([Commit(2)] + [])))))
    ensures Legal(TWO_ADMINS, acts) && CountActiveAdmins(Exec(TWO_ADMINS, acts).rows) == 0
  {
    hide Passes, Committed, CountActiveAdmins;
    var r1, r2, rows := Against(byDelete, 1, 2), Against(byDelete, 2, 1), [FIRST, SECOND];
    BothPass(byDelete);
    PairPositions(FIRST, SECOND);
    assert View(rows, FIRST) == rows && View(rows, SECOND) == rows;
    var s0 := State(rows, map[1 := Session(FIRST, r1, false), 2 := Session(SECOND, r2, false)]);
    var s1 := Do(s0, Check(1));
    var s2 := Do(s1, Check(2));
    var s3 := Do(s2, Commit(1));
    var s4 := Do(s3, Commit(2));
    assert s4.rows == Committed(Committed(rows, r1), r2);
    BothCommitted(byDelete);
    Before(s3, Commit(2), []);
    Before(s2, Commit(1), [Commit(2)] + []);
    Before(s1, Check(2), [Commit(1)] + ([Commit(2)] + []));
    Before(s0, Check(1), [Check(2)] + ([Commit(1)] + ([Commit(2)] + [])));
    acts := BothLoad(r1, r2, [Check(1)] + ([Check(2)] + ([Commit(1)] + ([Commit(2)] + []))));
  }

  /** The second admin was demoted after its own row was read, and still passes the check against the first. */
  lemma StalePasses()
    ensures Passes(View([FIRST, SECOND.(role := VIEWER)], SECOND), Against(false, 2, 1))
    ensures Committed([FIRST, SECOND], Against(false, 1, 2)) == [FIRST, SECOND.(role := VIEWER)]
  {
    hide NormalizeRole, Passes;
    NormalizeViewer();
    PairPositions(FIRST, SECOND);
    PairPositions(FIRST, SECOND.(role := VIEWER));
    assert View([FIRST, SECOND.(role := VIEWER)], SECOND) == [FIRST, SECOND];
    BothPass(false);
  }

  /** In one process, with each commit right after its check: the kept own row is enough to leave nobody. */
  lemma StaleRequesterLeavesNoAdmin() returns (acts: seq<Action>)
    ensures var r1, r2 := Against(false, 1, 2), Against(false, 2, 1);
            acts == [Load(1, 1, r1)] + ([Load(2, 2, r2)] +
                    ([Check(1)] + ([Commit(1)] + ([Check(2)] + ([Commit(2)] + [])))))
    ensures Legal(TWO_ADMINS, acts) && CountActiveAdmins(Exec(TWO_ADMINS, acts).rows) == 0
  {
    hide Passes, Committed, CountActiveAdmins;
    var r1, r2, rows := Against(false, 1, 2), Against(false, 2, 1), [FIRST, SECOND];
    BothPass(false);
    PairPositions(FIRST, SECOND);
    assert View(rows, FIRST) == rows;
    hide View;
    StalePasses();
    var s0 := State(rows, map[1 := Session(FIRST, r1, false), 2 := Session(SECOND, r2, false)]);
    var s1 := Do(s0, Check(1));
    var s2 := Do(s1, Commit(1));
    var s3 := Do(s2, Check(2));
    var s4 := Do(s3, Commit(2));
    assert s4.rows == Committed(Committed(rows, r1), r2);
    BothCommitted(false);
    Before(s3, Commit(2), []);
    Before(s2, Check(2), [Commit(2)] + []);
    Before(s1, Commit(1), [Check(2)] + ([Commit(2)] + []));
    Before(s0, Check(1), [Commit(1)] + ([Check(2)] + ([Commit(2)] + [])));
    acts := BothLoad(r1, r2, [Check(1)] + ([Commit(1)] + ([Check(2)] + ([Commit(2)] + []))));
  }
}
