/**
 Workspace membership as workspace_handlers.go writes it: rows in the database and relation
 tuples in the authorization store, rows first. The store's calls may fail, and its listing may
 return no more than a page; both are part of an operation here.
 */
module Workspaces {
  import opened Prelude

  type Ws = string
  type User = string

  datatype Role = Owner | Member | Viewer
  datatype Relation = Owners | Members | Viewers
  datatype Permission = View | Write | Manage

  // roleToRelation
  function RelationOf(r: Role): Relation {
    match r case Owner => Owners case Member => Members case Viewer => Viewers
  }

  datatype Seat = Seat(ws: Ws, user: User)
  datatype Tuple = Tuple(ws: Ws, relation: Relation, user: User)

  // workspaces, workspace_members, and the tuples of the Workspace namespace
  datatype State = State(workspaces: map<Ws, string>, rows: map<Seat, Role>, tuples: set<Tuple>)

  function TupleFor(seat: Seat, role: Role): Tuple {
    Tuple(seat.ws, RelationOf(role), seat.user)
  }

  // The store's permission tiers.
  predicate StoreAllows(s: State, ws: Ws, user: User, p: Permission) {
    Tuple(ws, Owners, user) in s.tuples ||
    (!p.Manage? && Tuple(ws, Members, user) in s.tuples) ||
    (p.View? && Tuple(ws, Viewers, user) in s.tuples)
  }

  // checkWorkspaceMembership
  predicate TableAllows(s: State, ws: Ws, user: User, p: Permission) {
    ws != "" && user != "" && Seat(ws, user) in s.rows &&
    match p
    case Manage => s.rows[Seat(ws, user)].Owner?
    case Write => s.rows[Seat(ws, user)].Owner? || s.rows[Seat(ws, user)].Member?
    case View => true
  }

  // ----- what the handlers promise to keep -----

  // Every row's role has its tuple.
  predicate Backed(s: State) {
    forall seat | seat in s.rows :: TupleFor(seat, s.rows[seat]) in s.tuples
  }

  // Who holds a row holds a tuple and the other way round, and rows belong to workspaces.
  predicate Mirrored(s: State) {
    Backed(s) &&
    (forall seat | seat in s.rows :: seat.ws in s.workspaces) &&
    (forall t | t in s.tuples :: Seat(t.ws, t.user) in s.rows)
  }

  // ----- the operations -----

  // `writes`: the tuple write succeeds. `page`: what the listing returns. `stuck`: the tuples whose
  // deletion fails.
  datatype Op =
    | Create(user: User, id: Ws, name: string, writes: bool)
    | AddMember(user: User, ws: Ws, member: User, role: Role, writes: bool)
    | RemoveMember(user: User, ws: Ws, member: User, page: set<Tuple>, stuck: set<Tuple>)
    | Leave(user: User, ws: Ws, page: set<Tuple>, stuck: set<Tuple>)
    | Delete(user: User, ws: Ws, page: set<Tuple>, stuck: set<Tuple>)
    | Bootstrap(user: User, name: string, writes: bool)

  // Done and HalfDone have changed the rows; HalfDone could not bring all tuples along.
  datatype Answer = Done | HalfDone | Refused

  function DefaultWs(user: User): Ws {
    "ws_default_" + user
  }

  function OwnersOf(s: State, ws: Ws): set<Seat> {
    set seat | seat in s.rows && seat.ws == ws && s.rows[seat].Owner?
  }

  predicate Refuses(s: State, op: Op) {
    match op
    case Create(_, id, _, _) => id in s.workspaces || Seat(id, op.user) in s.rows
    case AddMember(user, ws, _, _, _) => !StoreAllows(s, ws, user, Manage) || ws !in s.workspaces
    case RemoveMember(user, ws, member, _, _) => !StoreAllows(s, ws, user, Manage) || member == user
    case Leave(user, ws, _, _) =>
      Seat(ws, user) !in s.rows || (s.rows[Seat(ws, user)].Owner? && |OwnersOf(s, ws)| <= 1)
    case Delete(user, ws, _, _) => !StoreAllows(s, ws, user, Manage)
    case Bootstrap(_, _, _) => false
  }

  function AnswerTo(s: State, op: Op): Answer {
    if Refuses(s, op) then Refused
    else match op
      case Create(_, _, _, writes) => if writes then Done else HalfDone
      case AddMember(_, _, _, _, writes) => if writes then Done else HalfDone
      case Bootstrap(_, _, writes) => if writes then Done else HalfDone
      case _ => if Aimed(op) * op.stuck == {} then Done else HalfDone
  }

  // The tuples that a removal is after.
  predicate Matches(op: Op, t: Tuple) {
    match op
    case RemoveMember(_, ws, member, _, _) => t.ws == ws && t.user == member
    case Leave(user, ws, _, _) => t.ws == ws && t.user == user
    case Delete(_, ws, _, _) => t.ws == ws
    case _ => false
  }

  function Aimed(op: Op): set<Tuple>
    requires op.RemoveMember? || op.Leave? || op.Delete?
  {
    set t | t in op.page && Matches(op, t)
  }

  function RowsAfter(s: State, op: Op): map<Seat, Role> {
    match op
    case Create(user, id, _, _) => s.rows[Seat(id, user) := Owner]
    case AddMember(_, ws, member, role, _) => s.rows[Seat(ws, member) := role]
    case RemoveMember(_, ws, member, _, _) => s.rows - {Seat(ws, member)}
    case Leave(user, ws, _, _) => s.rows - {Seat(ws, user)}
    case Delete(_, ws, _, _) => map seat | seat in s.rows && seat.ws != ws :: s.rows[seat]
    case Bootstrap(user, _, _) =>
      if Seat(DefaultWs(user), user) in s.rows then s.rows else s.rows[Seat(DefaultWs(user), user) := Owner]
  }

  function WorkspacesAfter(s: State, op: Op): map<Ws, string> {
    match op
    case Create(_, id, name, _) => s.workspaces[id := name]
    case Delete(_, ws, _, _) => s.workspaces - {ws}
    case Bootstrap(user, name, _) =>
      if DefaultWs(user) in s.workspaces then s.workspaces
      else s.workspaces[DefaultWs(user) := if name == "" then "My Workspace" else name]
    case _ => s.workspaces
  }

  function TuplesAfter(s: State, op: Op): set<Tuple> {
    match op
    case Create(user, id, _, writes) => if writes then s.tuples + {Tuple(id, Owners, user)} else s.tuples
    case AddMember(_, ws, member, role, writes) =>
      if writes then s.tuples + {TupleFor(Seat(ws, member), role)} else s.tuples
    case Bootstrap(user, _, writes) => if writes then s.tuples + {Tuple(DefaultWs(user), Owners, user)} else s.tuples
    case _ => s.tuples - (Aimed(op) - op.stuck)
  }

  function Do(s: State, op: Op): State {
    if Refuses(s, op) then s else State(WorkspacesAfter(s, op), RowsAfter(s, op), TuplesAfter(s, op))
  }

  function Run(s: State, ops: seq<Op>): State {
    if ops == [] then s else Do(Run(s, ops[..|ops|-1]), ops[|ops|-1])
  }

  // The listing returned every tuple that was asked for.
  predicate Complete(s: State, op: Op) {
    op.RemoveMember? || op.Leave? || op.Delete? ==> forall t | t in s.tuples && Matches(op, t) :: t in op.page
  }

  // ----- rows and tuples -----

  // An operation that reports success keeps rows and tuples in step exactly when the listing it
  // worked from was complete.
  lemma SuccessKeepsMirrored(s: State, op: Op)
    requires Mirrored(s) && AnswerTo(s, op).Done?
    ensures Mirrored(Do(s, op)) <==> Complete(s, op)
  {
    if op.Create? || op.AddMember? || op.Bootstrap? {
      WriteKeepsMirrored(s, op);
    } else {
      RemovalKeepsMirrored(s, op);
    }
  }

  lemma WriteKeepsMirrored(s: State, op: Op)
    requires Mirrored(s) && AnswerTo(s, op).Done? && (op.Create? || op.AddMember? || op.Bootstrap?)
    ensures Mirrored(Do(s, op))
  {
    var after := Do(s, op);
    forall seat | seat in after.rows
      ensures TupleFor(seat, after.rows[seat]) in after.tuples && seat.ws in after.workspaces
    {
      assert seat in s.rows ==> TupleFor(seat, s.rows[seat]) in s.tuples && seat.ws in s.workspaces;
    }
  }

  lemma RemovalKeepsMirrored(s: State, op: Op)
    requires Mirrored(s) && AnswerTo(s, op).Done? && (op.RemoveMember? || op.Leave? || op.Delete?)
    ensures Mirrored(Do(s, op)) <==> Complete(s, op)
  {
    var after := Do(s, op);
    assert Aimed(op) - op.stuck == Aimed(op) by {
      assert forall t | t in Aimed(op) && t in op.stuck :: t in Aimed(op) * op.stuck;
    }
    forall seat | seat in after.rows
      ensures TupleFor(seat, after.rows[seat]) in after.tuples && seat.ws in after.workspaces
    {
      assert TupleFor(seat, s.rows[seat]) in s.tuples && seat.ws in s.workspaces;
    }
    if Complete(s, op) {
      forall t | t in after.tuples
        ensures Seat(t.ws, t.user) in after.rows
      {
        assert t in s.tuples && !Matches(op, t);
      }
    } else {
      var t :| t in s.tuples && Matches(op, t) && t !in op.page;
      assert t in after.tuples && Seat(t.ws, t.user) !in after.rows;
    }
  }

  // Over any run of successful or refused operations with complete listings.
  predicate Clean(s: State, ops: seq<Op>) {
    forall i | 0 <= i < |ops| ::
      !AnswerTo(Run(s, ops[..i]), ops[i]).HalfDone? && Complete(Run(s, ops[..i]), ops[i])
  }

  lemma {:induction false} RunKeepsMirrored(s: State, ops: seq<Op>)
    requires Mirrored(s) && Clean(s, ops)
    ensures Mirrored(Run(s, ops))
  {
    if ops != [] {
      var init, last := ops[..|ops|-1], ops[|ops|-1];
      forall i | 0 <= i < |init|
        ensures !AnswerTo(Run(s, init[..i]), init[i]).HalfDone? && Complete(Run(s, init[..i]), init[i])
      {
        assert init[..i] == ops[..i] && init[i] == ops[i];
      }
      RunKeepsMirrored(s, init);
      assert ops[..|ops|-1] == init;
      if AnswerTo(Run(s, init), last).Done? {
        SuccessKeepsMirrored(Run(s, init), last);
      }
    }
  }

  // ----- permissions -----

  // With every row backed, the table never grants what the store would not.
  lemma TableGrantsNoMore(s: State, ws: Ws, user: User, p: Permission)
    requires Backed(s) && TableAllows(s, ws, user, p)
    ensures StoreAllows(s, ws, user, p)
  {
    assert TupleFor(Seat(ws, user), s.rows[Seat(ws, user)]) in s.tuples;
  }

  // And with rows and tuples in step, it grants something whenever the store does.
  lemma StoreSeesNoStrangers(s: State, ws: Ws, user: User, p: Permission)
    requires Mirrored(s) && StoreAllows(s, ws, user, p) && ws != "" && user != ""
    ensures TableAllows(s, ws, user, View)
  {
  }

  // A row is written whose tuple is neither there nor written.
  predicate Strands(s: State, op: Op) {
    !Refuses(s, op) &&
    match op
    case Create(user, id, _, writes) => !writes && Tuple(id, Owners, user) !in s.tuples
    case AddMember(_, ws, member, role, writes) => !writes && TupleFor(Seat(ws, member), role) !in s.tuples
    case Bootstrap(user, _, writes) =>
      !writes && Seat(DefaultWs(user), user) !in s.rows && Tuple(DefaultWs(user), Owners, user) !in s.tuples
    case _ => false
  }

  // Whatever fails, in whatever operation, rows stay backed unless a row was written whose tuple
  // could not be: failed or incomplete clean-ups never make the table grant too much.
  lemma BackedUnlessStranded(s: State, op: Op)
    requires Backed(s)
    ensures Backed(Do(s, op)) <==> !Strands(s, op)
  {
    var after := Do(s, op);
    if Strands(s, op) {
      var seat := if op.Create? then Seat(op.id, op.user) else if op.AddMember? then Seat(op.ws, op.member)
                  else Seat(DefaultWs(op.user), op.user);
      assert seat in after.rows && TupleFor(seat, after.rows[seat]) !in after.tuples;
    } else {
      forall seat | seat in after.rows
        ensures TupleFor(seat, after.rows[seat]) in after.tuples
      {
        assert seat in s.rows ==> TupleFor(seat, s.rows[seat]) in s.tuples;
      }
    }
  }

  lemma {:induction false} RunNeverGrantsMore(s: State, ops: seq<Op>, ws: Ws, user: User, p: Permission)
    requires Backed(s) && forall i | 0 <= i < |ops| :: !Strands(Run(s, ops[..i]), ops[i])
    ensures Backed(Run(s, ops))
    ensures TableAllows(Run(s, ops), ws, user, p) ==> StoreAllows(Run(s, ops), ws, user, p)
  {
    if ops != [] {
      var init := ops[..|ops|-1];
      forall i | 0 <= i < |init|
        ensures !Strands(Run(s, init[..i]), init[i])
      {
        assert init[..i] == ops[..i] && init[i] == ops[i];
      }
      RunNeverGrantsMore(s, init, ws, user, p);
      assert ops[..|ops|-1] == init;
      BackedUnlessStranded(Run(s, init), ops[|ops|-1]);
    }
    if TableAllows(Run(s, ops), ws, user, p) {
      TableGrantsNoMore(Run(s, ops), ws, user, p);
    }
  }

  // A retry of a half-done write mends it.
  lemma RetryBacks(s: State, op: Op, again: Op)
    requires Backed(s) && op.AddMember? && again == AddMember(op.user, op.ws, op.member, op.role, true)
    ensures Backed(Do(Do(s, op), again))
  {
    var once, twice := Do(s, op), Do(Do(s, op), again);
    forall seat | seat in twice.rows
      ensures TupleFor(seat, twice.rows[seat]) in twice.tuples
    {
      assert seat in s.rows ==> TupleFor(seat, s.rows[seat]) in s.tuples;
    }
  }

  // ----- owners -----

  // Whoever leaves, an owner row is left behind if there was one.
  lemma LeaveKeepsAnOwner(s: State, op: Op)
    requires op.Leave? && OwnersOf(s, op.ws) != {}
    ensures OwnersOf(Do(s, op), op.ws) != {}
  {
    var seat, after := Seat(op.ws, op.user), Do(s, op);
    if !Refuses(s, op) {
      assert OwnersOf(after, op.ws) == OwnersOf(s, op.ws) - {seat};
      if s.rows[seat].Owner? {
        assert |OwnersOf(s, op.ws) - {seat}| == |OwnersOf(s, op.ws)| - 1;
      }
    }
  }

  // Registering twice provisions once.
  lemma BootstrapTwice(s: State, user: User, name: string, other: string)
    ensures Do(Do(s, Bootstrap(user, name, true)), Bootstrap(user, other, true)) == Do(s, Bootstrap(user, name, true))
  {
    var once := Do(s, Bootstrap(user, name, true));
    assert once.tuples + {Tuple(DefaultWs(user), Owners, user)} == once.tuples;
  }

  // ----- the handlers -----

  function Listed(page: seq<Tuple>): set<Tuple> {
    set t | t in page
  }

  lemma ListedOneMore(page: seq<Tuple>, i: nat)
    requires i < |page|
    ensures Listed(page[..i + 1]) == Listed(page[..i]) + {page[i]}
  {
    assert page[..i + 1] == page[..i] + [page[i]];
  }

  // The database and the authorization store behind the handlers. Each handler is shown to be the
  // operation of the same name; authentication and decoding of the request come before.
  class Backend {
    var workspaces: map<Ws, string>
    var rows: map<Seat, Role>
    var tuples: set<Tuple>

    ghost function View(): State
      reads this
    {
      State(workspaces, rows, tuples)
    }

    method CreateWorkspace(user: User, id: Ws, name: string, writes: bool) returns (answer: Answer)
      modifies this
      ensures View() == Do(old(View()), Create(user, id, name, writes))
      ensures answer == AnswerTo(old(View()), Create(user, id, name, writes))
    {
      if id in workspaces || Seat(id, user) in rows {
        return Refused;  // the transaction rolls back
      }
      workspaces := workspaces[id := name];
      rows := rows[Seat(id, user) := Owner];
      answer := WriteTuple(Tuple(id, Owners, user), writes);
    }

    method WriteTuple(t: Tuple, writes: bool) returns (answer: Answer)
      modifies this`tuples
      ensures tuples == (if writes then old(tuples) + {t} else old(tuples))
          && answer == if writes then Done else HalfDone
    {
      if !writes {
        return HalfDone;
      }
      tuples := tuples + {t};
      answer := Done;
    }

    method WorkspaceMembers(user: User, ws: Ws, member: User, role: Role, writes: bool) returns (answer: Answer)
      modifies this
      ensures View() == Do(old(View()), AddMember(user, ws, member, role, writes))
      ensures answer == AnswerTo(old(View()), AddMember(user, ws, member, role, writes))
    {
      var allowed := CheckWorkspace(ws, user, Manage);
      if !allowed || ws !in workspaces {
        return Refused;  // forbidden, or the row's foreign key fails
      }
      rows := rows[Seat(ws, member) := role];
      answer := WriteTuple(Tuple(ws, RelationOf(role), member), writes);
    }

    method CheckWorkspace(ws: Ws, user: User, p: Permission) returns (allowed: bool)
      ensures allowed == StoreAllows(View(), ws, user, p)
    {
      allowed := Tuple(ws, Owners, user) in tuples || (!p.Manage? && Tuple(ws, Members, user) in tuples) ||
                 (p.View? && Tuple(ws, Viewers, user) in tuples);
    }

    // The loops of deleteSubjectTuples and deleteAllTuplesForObject: every listed tuple is tried,
    // whatever became of the ones before.
    method DeleteListed(page: seq<Tuple>, stuck: set<Tuple>) returns (answer: Answer)
      modifies this`tuples
      ensures tuples == old(tuples) - (Listed(page) - stuck)
      ensures answer == if Listed(page) * stuck == {} then Done else HalfDone
    {
      answer := Done;
      for i := 0 to |page|
        invariant tuples == old(tuples) - (Listed(page[..i]) - stuck)
        invariant answer == if Listed(page[..i]) * stuck == {} then Done else HalfDone
      {
        ListedOneMore(page, i);
        if page[i] in stuck {
          answer := HalfDone;
          assert page[i] in Listed(page[..i + 1]) * stuck;
        } else {
          tuples := tuples - {page[i]};
          assert Listed(page[..i + 1]) * stuck == Listed(page[..i]) * stuck;
        }
      }
      assert page[..|page|] == page;
    }

    method RemoveMemberHandler(user: User, ws: Ws, member: User, page: seq<Tuple>, stuck: set<Tuple>)
        returns (answer: Answer)
      requires forall t | t in page :: t.ws == ws && t.user == member
      modifies this
      ensures var op := RemoveMember(user, ws, member, Listed(page), stuck);
        View() == Do(old(View()), op) && answer == AnswerTo(old(View()), op)
    {
      ghost var op := RemoveMember(user, ws, member, Listed(page), stuck);
      assert Aimed(op) == op.page;
      var allowed := CheckWorkspace(ws, user, Manage);
      if !allowed || member == user {
        return Refused;
      }
      rows := rows - {Seat(ws, member)};
      answer := DeleteListed(page, stuck);
    }

    method LeaveHandler(user: User, ws: Ws, page: seq<Tuple>, stuck: set<Tuple>) returns (answer: Answer)
      requires forall t | t in page :: t.ws == ws && t.user == user
      modifies this
      ensures var op := Leave(user, ws, Listed(page), stuck);
        View() == Do(old(View()), op) && answer == AnswerTo(old(View()), op)
    {
      ghost var op := Leave(user, ws, Listed(page), stuck);
      assert Aimed(op) == op.page;
      if Seat(ws, user) !in rows {
        return Refused;
      }
      if rows[Seat(ws, user)].Owner? {
        var owners := set seat | seat in rows && seat.ws == ws && rows[seat].Owner?;
        assert owners == OwnersOf(View(), ws);
        if |owners| <= 1 {
          return Refused;
        }
      }
      rows := rows - {Seat(ws, user)};
      answer := DeleteListed(page, stuck);
    }

    // Deleting the workspace row takes the member rows with it (foreign key cascade).
    method DeleteWorkspace(user: User, ws: Ws, page: seq<Tuple>, stuck: set<Tuple>) returns (answer: Answer)
      requires forall t | t in page :: t.ws == ws
      modifies this
      ensures var op := Delete(user, ws, Listed(page), stuck);
        View() == Do(old(View()), op) && answer == AnswerTo(old(View()), op)
    {
      ghost var op := Delete(user, ws, Listed(page), stuck);
      assert Aimed(op) == op.page;
      var allowed := CheckWorkspace(ws, user, Manage);
      if !allowed {
        return Refused;
      }
      workspaces := workspaces - {ws};
      rows := map seat | seat in rows && seat.ws != ws :: rows[seat];
      answer := DeleteListed(page, stuck);
    }

    method BootstrapHandler(user: User, name: string, writes: bool) returns (answer: Answer)
      modifies this
      ensures View() == Do(old(View()), Bootstrap(user, name, writes))
      ensures answer == AnswerTo(old(View()), Bootstrap(user, name, writes))
    {
      var title := name;
      if title == "" {
        title := "My Workspace";
      }
      var ws := "ws_default_" + user;
      if ws !in workspaces {
        workspaces := workspaces[ws := title];
      }
      if Seat(ws, user) !in rows {
        rows := rows[Seat(ws, user) := Owner];
      }
      answer := WriteTuple(Tuple(ws, Owners, user), writes);
    }

    // checkWorkspaceMembership, the fallback when the store is not configured.
    method CheckMembership(ws: Ws, user: User, p: Permission) returns (allowed: bool)
      ensures allowed == TableAllows(View(), ws, user, p)
      ensures allowed && Backed(View()) ==> StoreAllows(View(), ws, user, p)
    {
      if ws == "" || user == "" || Seat(ws, user) !in rows {
        return false;
      }
      var role := rows[Seat(ws, user)];
      match p {
        case Manage => allowed := role.Owner?;
        case Write => allowed := role.Owner? || role.Member?;
        case View => allowed := role.Owner? || role.Member? || role.Viewer?;
      }
      if allowed && Backed(View()) {
        TableGrantsNoMore(View(), ws, user, p);
      }
    }
  }
}
