/**
 What the membership operations grant and revoke, permission by permission, in the tuple store and
 in the table, and when the two grant the same.
 */
module WorkspaceGrants {
  import opened Prelude
  import opened Workspaces

  // What a role is good for.
  predicate Entitles(role: Role, p: Permission) {
    role.Owner? || (role.Member? && !p.Manage?) || p.View?
  }

  // The seat that an operation fills and the role it gives, or the role it makes nobody's.
  predicate Fills(op: Op, ws: Ws, user: User) {
    match op
    case Create(u, id, _, _) => ws == id && user == u
    case AddMember(_, w, member, _, _) => ws == w && user == member
    case Bootstrap(u, _, _) => ws == "ws_default_" + u && user == u
    case _ => false
  }

  predicate Clears(op: Op, ws: Ws, user: User) {
    match op
    case RemoveMember(_, w, member, _, _) => ws == w && user == member
    case Leave(u, w, _, _) => ws == w && user == u
    case Delete(_, w, _, _) => ws == w
    case _ => false
  }

  function GivenRole(op: Op): Role {
    if op.AddMember? then op.role else Owner
  }

  // A write that succeeds adds what the role entitles to, for the one member, and takes nothing away;
  // one that fails at the store changes nothing there.
  lemma WriteGrants(s: State, op: Op, ws: Ws, user: User, p: Permission)
    requires op.Create? || op.AddMember? || op.Bootstrap?
    ensures StoreAllows(Do(s, op), ws, user, p) <==>
            StoreAllows(s, ws, user, p) || (AnswerTo(s, op).Done? && Fills(op, ws, user) && Entitles(GivenRole(op), p))
    ensures AnswerTo(s, op).Done? ==> op.writes
  {
  }

  // A removal takes away the tuples that it was after, was told of and could delete, and reports
  // success exactly when it could delete all of those.
  lemma RemovalTuples(s: State, op: Op)
    requires !AnswerTo(s, op).Refused? && (op.RemoveMember? || op.Leave? || op.Delete?)
    ensures forall t :: t in Do(s, op).tuples <==>
                        t in s.tuples && !(Clears(op, t.ws, t.user) && t in op.page && t !in op.stuck)
    ensures AnswerTo(s, op).Done? <==> forall t | t in op.page && Clears(op, t.ws, t.user) :: t !in op.stuck
  {
    forall t: Tuple
      ensures Matches(op, t) <==> Clears(op, t.ws, t.user)
    {
    }
    assert forall t | t in Aimed(op) && t in op.stuck :: t in Aimed(op) * op.stuck;
  }

  // A successful removal that saw all tuples takes everything from whom it is after, and nothing else.
  lemma RemovalRevokes(s: State, op: Op, ws: Ws, user: User, p: Permission)
    requires AnswerTo(s, op).Done? && (op.RemoveMember? || op.Leave? || op.Delete?) && Complete(s, op)
    ensures StoreAllows(Do(s, op), ws, user, p) <==> StoreAllows(s, ws, user, p) && !Clears(op, ws, user)
  {
    assert forall t | t in Aimed(op) && t in op.stuck :: t in Aimed(op) * op.stuck;
    forall r: Relation
      ensures Tuple(ws, r, user) in Do(s, op).tuples <==> Tuple(ws, r, user) in s.tuples && !Clears(op, ws, user)
    {
      assert Matches(op, Tuple(ws, r, user)) <==> Clears(op, ws, user);
    }
  }

  // The table: whoever is given a role has what it entitles to and no more, and nobody who is
  // removed has anything. Registering again changes no role.
  lemma TableGrants(s: State, op: Op, ws: Ws, user: User, p: Permission)
    requires !AnswerTo(s, op).Refused? && ws != "" && user != ""
    ensures TableAllows(Do(s, op), ws, user, p) <==>
            if Clears(op, ws, user) then false
            else if Fills(op, ws, user) && !(op.Bootstrap? && Seat(ws, user) in s.rows)
            then Entitles(GivenRole(op), p)
            else TableAllows(s, ws, user, p)
  {
    assert op.Bootstrap? ==> DefaultWs(op.user) == "ws_default_" + op.user;
  }

  // Which workspaces there are, and what they are called.
  lemma WorkspacesKept(s: State, op: Op, ws: Ws)
    requires !AnswerTo(s, op).Refused?
    ensures ws in Do(s, op).workspaces <==>
            !(op.Delete? && ws == op.ws) &&
            (ws in s.workspaces || (op.Create? && ws == op.id) || (op.Bootstrap? && ws == "ws_default_" + op.user))
    ensures ws in Do(s, op).workspaces ==>
      Do(s, op).workspaces[ws] == if ws in s.workspaces then s.workspaces[ws]
                                  else if op.Create? || op.name != "" then op.name
                                  else "My Workspace"
  {
  }

  // The user owns the workspace and nobody else does.
  predicate LastOwner(s: State, ws: Ws, user: User) {
    Seat(ws, user) in s.rows && s.rows[Seat(ws, user)].Owner? &&
    forall seat | seat in s.rows && seat.ws == ws && s.rows[seat].Owner? :: seat.user == user
  }

  // Who may do what: membership is the owners' business, nobody removes oneself but by leaving, the
  // last owner cannot leave, and what is refused changes nothing.
  lemma WhoMay(s: State, op: Op)
    ensures AnswerTo(s, op).Refused? ==> Do(s, op) == s
    ensures op.AddMember? ==>
      (AnswerTo(s, op).Refused? <==> Tuple(op.ws, Owners, op.user) !in s.tuples || op.ws !in s.workspaces)
    ensures op.RemoveMember? ==>
      (AnswerTo(s, op).Refused? <==> Tuple(op.ws, Owners, op.user) !in s.tuples || op.member == op.user)
    ensures op.Delete? ==> (AnswerTo(s, op).Refused? <==> Tuple(op.ws, Owners, op.user) !in s.tuples)
    ensures op.Leave? ==>
      (AnswerTo(s, op).Refused? <==> Seat(op.ws, op.user) !in s.rows || LastOwner(s, op.ws, op.user))
    ensures op.Bootstrap? ==> !AnswerTo(s, op).Refused?
    ensures op.Create? ==> (AnswerTo(s, op).Refused? <==> op.id in s.workspaces || Seat(op.id, op.user) in s.rows)
  {
    if op.Leave? && Seat(op.ws, op.user) in s.rows && s.rows[Seat(op.ws, op.user)].Owner? {
      OnlyOwner(s, op.ws, op.user);
    }
  }

  lemma OnlyOwner(s: State, ws: Ws, user: User)
    requires Seat(ws, user) in s.rows && s.rows[Seat(ws, user)].Owner?
    ensures |OwnersOf(s, ws)| <= 1 <==> LastOwner(s, ws, user)
  {
    var owners, own := OwnersOf(s, ws), Seat(ws, user);
    assert own in owners && |owners - {own}| == |owners| - 1;
    if LastOwner(s, ws, user) {
      assert owners == {own};
    } else {
      var seat :| seat in owners && seat.user != user;
      assert seat in owners - {own};
    }
  }

  // ----- when store and table agree -----

  // A tuple that grants more than the role.
  predicate Outranks(r: Relation, role: Role) {
    (r.Owners? && !role.Owner?) || (r.Members? && role.Viewer?)
  }

  // Rows and tuples in step, and no tuple beyond its row.
  predicate Matched(s: State) {
    Mirrored(s) && forall t | t in s.tuples :: !Outranks(t.relation, s.rows[Seat(t.ws, t.user)])
  }

  // Nobody has two relations to one workspace.
  predicate OneTupleEach(s: State) {
    forall t, u | t in s.tuples && u in s.tuples && t.ws == u.ws && t.user == u.user :: t == u
  }

  ghost predicate Agree(s: State) {
    forall ws, user, p: Permission | ws != "" && user != "" ::
        StoreAllows(s, ws, user, p) <==> TableAllows(s, ws, user, p)
  }

  predicate Named(s: State) {
    forall seat | seat in s.rows :: seat.ws != "" && seat.user != ""
  }

  lemma OneTupleMatches(s: State)
    requires Mirrored(s) && OneTupleEach(s)
    ensures Matched(s)
  {
    forall t | t in s.tuples
      ensures !Outranks(t.relation, s.rows[Seat(t.ws, t.user)])
    {
      var seat := Seat(t.ws, t.user);
      assert TupleFor(seat, s.rows[seat]) in s.tuples;
    }
  }

  // With rows and tuples in step, the store and the table grant the very same permissions exactly when
  // no tuple outranks its row.
  lemma AgreeIffMatched(s: State)
    requires Mirrored(s) && Named(s)
    ensures Agree(s) <==> Matched(s)
  {
    if Matched(s) {
      forall ws, user, p: Permission | ws != "" && user != ""
        ensures StoreAllows(s, ws, user, p) <==> TableAllows(s, ws, user, p)
      {
        if Seat(ws, user) in s.rows {
          assert TupleFor(Seat(ws, user), s.rows[Seat(ws, user)]) in s.tuples;
        }
      }
    } else {
      var t :| t in s.tuples && Outranks(t.relation, s.rows[Seat(t.ws, t.user)]);
      assert t == Tuple(t.ws, t.relation, t.user);
      var p := if t.relation.Owners? then Manage else Write;
      assert StoreAllows(s, t.ws, t.user, p) && !TableAllows(s, t.ws, t.user, p);
    }
  }

  // A role is given below the one held, whose tuple stays, or an owner's tuple beside another role.
  predicate Overtaken(s: State, op: Op) {
    match op
    case AddMember(_, ws, member, role, _) =>
      Seat(ws, member) in s.rows &&
      ((s.rows[Seat(ws, member)].Owner? && !role.Owner?) || (s.rows[Seat(ws, member)].Member? && role.Viewer?))
    case Bootstrap(user, _, _) =>
      Seat("ws_default_" + user, user) in s.rows && !s.rows[Seat("ws_default_" + user, user)].Owner?
    case _ => false
  }

  // A successful operation keeps store and table in agreement exactly unless it demotes somebody, or
  // registers somebody again who is no longer the owner of the own workspace.
  lemma MatchedIffNotOvertaken(s: State, op: Op)
    requires Matched(s) && AnswerTo(s, op).Done? && Complete(s, op)
    ensures Matched(Do(s, op)) <==> !Overtaken(s, op)
  {
    var after := Do(s, op);
    SuccessKeepsMirrored(s, op);
    if Overtaken(s, op) {
      var seat := if op.AddMember? then Seat(op.ws, op.member) else Seat(DefaultWs(op.user), op.user);
      var t := if op.AddMember? then TupleFor(seat, s.rows[seat]) else Tuple(seat.ws, Owners, seat.user);
      assert t in after.tuples && Outranks(t.relation, after.rows[Seat(t.ws, t.user)]);
    } else {
      forall t | t in after.tuples
        ensures !Outranks(t.relation, after.rows[Seat(t.ws, t.user)])
      {
        assert t in s.tuples ==> !Outranks(t.relation, s.rows[Seat(t.ws, t.user)]);
      }
    }
  }

  // Over any run of successful or refused operations without such a demotion.
  lemma {:induction false} RunKeepsMatched(s: State, ops: seq<Op>)
    requires Matched(s) && Clean(s, ops)
    requires forall i | 0 <= i < |ops| && !Refuses(Run(s, ops[..i]), ops[i]) :: !Overtaken(Run(s, ops[..i]), ops[i])
    ensures Matched(Run(s, ops))
  {
    hide Matched, Overtaken, Complete, Mirrored;
    if ops != [] {
      var init, last := ops[..|ops|-1], ops[|ops|-1];
      forall i | 0 <= i < |init|
        ensures init[..i] == ops[..i] && init[i] == ops[i]
      {
      }
      RunKeepsMatched(s, init);
      assert ops[..|ops|-1] == init;
      if AnswerTo(Run(s, init), last).Done? {
        MatchedIffNotOvertaken(Run(s, init), last);
      }
    }
  }
}
