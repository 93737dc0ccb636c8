/**
 PgStore of memory/palace/pgstore.go: each method is one transaction over the tables of
 PalaceRows, and the update methods build their SET clauses and arguments side by side.
 A transaction works on copies of the tables; `commits` says whether its commit succeeds.
 */
module PalaceStore {
  import opened Prelude
  import opened PalaceRows

  datatype Outcome = Ok | NotFound | InvalidType | Failed

  // IdentityType.Valid
  predicate ValidType(t: string) {
    t == "" || t == "personal" || t == "professional" || t == "demographic"
  }

  // ----- SET clauses -----

  // What the clauses assign: every placeholder is replaced by its argument, the first being $1.
  function Assigned(clauses: seq<Clause>, args: seq<Value>): map<string, Value>
    requires InRange(clauses, args)
  {
    if clauses == [] then map[]
    else
      var last := clauses[|clauses|-1];
      Assigned(clauses[..|clauses|-1], args)[last.column := args[last.arg - 1]]
  }

  predicate InRange(clauses: seq<Clause>, args: seq<Value>) {
    forall c | c in clauses :: 3 <= c.arg <= |args|
  }

  lemma {:induction false} MoreArguments(clauses: seq<Clause>, args: seq<Value>, v: Value)
    requires InRange(clauses, args)
    ensures InRange(clauses, args + [v]) && Assigned(clauses, args + [v]) == Assigned(clauses, args)
  {
    if clauses != [] {
      MoreArguments(clauses[..|clauses|-1], args, v);
    }
  }

  // The state of an update method: setClauses, args and idx.
  datatype Builder = Builder(clauses: seq<Clause>, args: seq<Value>, idx: nat) {
    ghost predicate Valid(user: User, id: Id) {
      idx == |args| + 1 && |args| == |clauses| + 2 && args[..2] == [Text(user), Text(id)] && InRange(clauses, args)
    }

    ghost function Fields(): map<string, Value>
      requires InRange(clauses, args)
    {
      Assigned(clauses, args)
    }
  }

  // A field of an update: its column and, unless the caller left it nil, its new value.
  datatype Entry = Entry(column: string, value: Option<Value>)

  // The columns that a list of fields writes.
  function Collected(entries: seq<Entry>): map<string, Value> {
    if entries == [] then map[]
    else
      var last, before := entries[|entries|-1], Collected(entries[..|entries|-1]);
      if last.value.Some? then before[last.column := last.value.value] else before
  }

  // Exactly the fields that are not nil are written, each with its own value.
  lemma {:induction false} CollectedExactly(entries: seq<Entry>)
    requires forall i, j | 0 <= i < j < |entries| :: entries[i].column != entries[j].column
    ensures forall i | 0 <= i < |entries| && entries[i].value.Some? ::
      entries[i].column in Collected(entries) && Collected(entries)[entries[i].column] == entries[i].value.value
    ensures forall c | c in Collected(entries) :: exists i ::
        0 <= i < |entries| && entries[i].column == c && entries[i].value.Some?
  {
    if entries != [] {
      var init := entries[..|entries|-1];
      CollectedExactly(init);
      forall c | c in Collected(entries)
        ensures exists i :: 0 <= i < |entries| && entries[i].column == c && entries[i].value.Some?
      {
        if c in Collected(init) && c != entries[|entries|-1].column {
          var i :| 0 <= i < |init| && init[i].column == c && init[i].value.Some?;
          assert entries[i] == init[i];
        }
      }
    }
  }

  // The builder holds just these entries, for this row.
  ghost predicate Holds(b: Builder, user: User, id: Id, entries: seq<Entry>) {
    b.Valid(user, id) && b.Fields() == Collected(entries)
  }

  lemma HoldsNothing(user: User, id: Id, entries: seq<Entry>)
    ensures Holds(Builder([], [Text(user), Text(id)], 3), user, id, entries[..0])
  {
  }

  // A field that is given gets a clause with the next placeholder, and its value the next argument;
  // a nil field gets neither.
  method Push(b: Builder, e: Entry, ghost user: User, ghost id: Id, ghost all: seq<Entry>, ghost k: nat)
    returns (r: Builder)
    requires k < |all| && all[k] == e && Holds(b, user, id, all[..k])
    ensures Holds(r, user, id, all[..k + 1])
  {
    r := b;
    assert all[..k + 1][..k] == all[..k];
    if e.value.Some? {
      MoreArguments(b.clauses, b.args, e.value.value);
      r := Builder(b.clauses + [Clause(e.column, b.idx)], b.args + [e.value.value], b.idx + 1);
      assert r.clauses[..|r.clauses|-1] == b.clauses;
    }
  }

  datatype IdentityUpdate = IdentityUpdate(description: Option<string>, role: Option<string>,
    relationship: Option<string>, kind: Option<string>, episodicDate: Option<int>,
    extractedLabels: Option<seq<string>>, labels: Option<string>)
  datatype ActivityUpdate = ActivityUpdate(narrative: Option<string>, notes: Option<string>, status: Option<string>)
  datatype ContextUpdate = ContextUpdate(title: Option<string>, description: Option<string>,
      currentStatus: Option<string>)
  datatype ExperienceUpdate = ExperienceUpdate(situation: Option<string>, action: Option<string>,
      keyLearning: Option<string>)
  datatype PreferenceUpdate = PreferenceUpdate(conclusionDirectives: Option<string>, suggestions: Option<string>)

  function AsText(s: Option<string>): Option<Value> {
    if s.Some? then Some(Text(s.value)) else None
  }

  function AsTime(t: Option<int>): Option<Value> {
    if t.Some? then Some(Time(t.value)) else None
  }

  function AsTexts(s: Option<seq<string>>): Option<Value> {
    if s.Some? then Some(Texts(s.value)) else None
  }

  function AsJson(s: Option<string>): Option<Value> {
    if s.Some? then Some(Json(s.value)) else None
  }

  function IdentityFields(u: IdentityUpdate): seq<Entry> {
    [Entry("description", AsText(u.description)), Entry("role", AsText(u.role)),
     Entry("relationship", AsText(u.relationship)), Entry("type", AsText(u.kind)),
     Entry("episodic_date", AsTime(u.episodicDate)), Entry("tags", AsTexts(u.extractedLabels)),
     Entry("metadata", AsJson(u.labels))]
  }

  function ActivityFields(u: ActivityUpdate): seq<Entry> {
    [Entry("narrative", AsText(u.narrative)), Entry("notes", AsText(u.notes)), Entry("status", AsText(u.status))]
  }

  function ContextFields(u: ContextUpdate): seq<Entry> {
    [Entry("title", AsText(u.title)), Entry("description", AsText(u.description)),
     Entry("current_status", AsText(u.currentStatus))]
  }

  function ExperienceFields(u: ExperienceUpdate): seq<Entry> {
    [Entry("situation", AsText(u.situation)), Entry("action", AsText(u.action)),
        Entry("key_learning", AsText(u.keyLearning))]
  }

  function PreferenceFields(u: PreferenceUpdate): seq<Entry> {
    [Entry("conclusion_directives", AsText(u.conclusionDirectives)), Entry("suggestions", AsText(u.suggestions))]
  }

  // ----- which field goes to which column -----

  // The column has the new value if one is given, and what it had otherwise.
  predicate Column(was: map<string, Value>, now: map<string, Value>, column: string, value: Option<Value>) {
    if value.Some? then column in now && now[column] == value.value
    else if column in was then column in now && now[column] == was[column]
    else column !in now
  }

  // Written over the columns of a row, a list of entries sets each column it names and no other.
  lemma EntryColumns(was: map<string, Value>, entries: seq<Entry>)
    requires forall i, j | 0 <= i < j < |entries| :: entries[i].column != entries[j].column
    ensures var now := was + Collected(entries);
      && (forall i | 0 <= i < |entries| :: Column(was, now, entries[i].column, entries[i].value))
      && (forall c | forall i | 0 <= i < |entries| :: entries[i].column != c :: Column(was, now, c, None))
  {
    CollectedExactly(entries);
    forall i | 0 <= i < |entries| && entries[i].value.None?
      ensures entries[i].column !in Collected(entries)
    {
    }
  }

  lemma IdentityColumns(was: map<string, Value>, u: IdentityUpdate)
    ensures var now := was + Collected(IdentityFields(u));
      && Column(was, now, "description", if u.description.Some? then Some(Text(u.description.value)) else None)
      && Column(was, now, "role", if u.role.Some? then Some(Text(u.role.value)) else None)
      && Column(was, now, "relationship", if u.relationship.Some? then Some(Text(u.relationship.value)) else None)
      && Column(was, now, "type", if u.kind.Some? then Some(Text(u.kind.value)) else None)
      && Column(was, now, "episodic_date", if u.episodicDate.Some? then Some(Time(u.episodicDate.value)) else None)
      && Column(was, now, "tags", if u.extractedLabels.Some? then Some(Texts(u.extractedLabels.value)) else None)
      && Column(was, now, "metadata", if u.labels.Some? then Some(Json(u.labels.value)) else None)
      && forall c | c !in {"description", "role", "relationship", "type", "episodic_date", "tags", "metadata"} ::
           Column(was, now, c, None)
  {
    var es := IdentityFields(u);
    var now := was + Collected(es);
    hide Column, Collected;
    EntryColumns(was, es);
    assert Column(was, now, es[0].column, es[0].value);
    assert Column(was, now, es[1].column, es[1].value);
    assert Column(was, now, es[2].column, es[2].value);
    assert Column(was, now, es[3].column, es[3].value);
    assert Column(was, now, es[4].column, es[4].value);
    assert Column(was, now, es[5].column, es[5].value);
    assert Column(was, now, es[6].column, es[6].value);
  }

  lemma ActivityColumns(was: map<string, Value>, u: ActivityUpdate)
    ensures var now := was + Collected(ActivityFields(u));
      && Column(was, now, "narrative", if u.narrative.Some? then Some(Text(u.narrative.value)) else None)
      && Column(was, now, "notes", if u.notes.Some? then Some(Text(u.notes.value)) else None)
      && Column(was, now, "status", if u.status.Some? then Some(Text(u.status.value)) else None)
      && forall c | c !in {"narrative", "notes", "status"} ::
           Column(was, now, c, None)
  {
    var es := ActivityFields(u);
    var now := was + Collected(es);
    hide Column, Collected;
    EntryColumns(was, es);
    assert Column(was, now, es[0].column, es[0].value);
    assert Column(was, now, es[1].column, es[1].value);
    assert Column(was, now, es[2].column, es[2].value);
  }

  lemma ContextColumns(was: map<string, Value>, u: ContextUpdate)
    ensures var now := was + Collected(ContextFields(u));
      && Column(was, now, "title", if u.title.Some? then Some(Text(u.title.value)) else None)
      && Column(was, now, "description", if u.description.Some? then Some(Text(u.description.value)) else None)
      && Column(was, now, "current_status", if u.currentStatus.Some? then Some(Text(u.currentStatus.value)) else None)
      && forall c | c !in {"title", "description", "current_status"} ::
           Column(was, now, c, None)
  {
    var es := ContextFields(u);
    var now := was + Collected(es);
    hide Column, Collected;
    EntryColumns(was, es);
    assert Column(was, now, es[0].column, es[0].value);
    assert Column(was, now, es[1].column, es[1].value);
    assert Column(was, now, es[2].column, es[2].value);
  }

  lemma ExperienceColumns(was: map<string, Value>, u: ExperienceUpdate)
    ensures var now := was + Collected(ExperienceFields(u));
      && Column(was, now, "situation", if u.situation.Some? then Some(Text(u.situation.value)) else None)
      && Column(was, now, "action", if u.action.Some? then Some(Text(u.action.value)) else None)
      && Column(was, now, "key_learning", if u.keyLearning.Some? then Some(Text(u.keyLearning.value)) else None)
      && forall c | c !in {"situation", "action", "key_learning"} ::
           Column(was, now, c, None)
  {
    var es := ExperienceFields(u);
    var now := was + Collected(es);
    hide Column, Collected;
    EntryColumns(was, es);
    assert Column(was, now, es[0].column, es[0].value);
    assert Column(was, now, es[1].column, es[1].value);
    assert Column(was, now, es[2].column, es[2].value);
  }

  lemma PreferenceColumns(was: map<string, Value>, u: PreferenceUpdate)
    ensures var now := was + Collected(PreferenceFields(u));
      && Column(was, now, "conclusion_directives", if u.conclusionDirectives.Some?
        then Some(Text(u.conclusionDirectives.value)) else None)
      && Column(was, now, "suggestions", if u.suggestions.Some? then Some(Text(u.suggestions.value)) else None)
      && forall c | c !in {"conclusion_directives", "suggestions"} ::
           Column(was, now, c, None)
  {
    var es := PreferenceFields(u);
    var now := was + Collected(es);
    hide Column, Collected;
    EntryColumns(was, es);
    assert Column(was, now, es[0].column, es[0].value);
    assert Column(was, now, es[1].column, es[1].value);
  }

  // What an update returns: no statement is sent when there is nothing to write.
  function UpdateOutcome(r: Rows, user: User, layer: Layer, id: Id, fields: map<string, Value>): Outcome {
    if fields == map[] || (Key(layer, id) in r.children && r.children[Key(layer, id)].user == user) then Ok
        else NotFound
  }

  class PgStore {
    var parents: map<Id, Parent>
    var children: map<Key, Child>
    var personas: map<User, string>
    var histories: map<User, string>

    ghost function View(): Rows
      reads this
    {
      Rows(parents, children)
    }

    // insertParent within a transaction: the id that the parent gets, and the table after it. An id
    // that is taken violates the primary key.
    static method InsertParent(table: map<Id, Parent>, user: User, given: Id, layer: Layer, summary: string,
        generated: Id)
      returns (id: Id, after: map<Id, Parent>, ok: bool)
      ensures id == (if given == "" then generated else given)
      ensures ok == (id !in table) && (ok ==> after == table[id := Parent(user, layer, summary)])
    {
      id := given;
      if id == "" {
        id := generated;
      }
      ok := id !in table;
      after := table[id := Parent(user, layer, summary)];
    }

    // The five Create methods after their checks: parent and child in one transaction.
    method Create(user: User, layer: Layer, given: Id, parentId: Id, childId: Id, more: seq<Id>, summary: string,
                  columns: map<string, Value>, commits: bool)
      returns (result: Option<Id>)
      modifies this`parents, this`children
      ensures var p := ParentId(layer, given, parentId);
        View() == if result.Some? then Created(old(View()), user, layer, p, childId, more, summary, columns)
          else old(View())
      ensures result == if commits && ParentId(layer, given, parentId) !in old(parents)
          && Key(layer, childId) !in old(children)
                        then Some(childId) else None
    {
      var own := if layer.Context? then "" else given;
      var p, txParents, ok := InsertParent(parents, user, own, layer, summary, parentId);
      if !ok || Key(layer, childId) in children || !commits {
        return None;
      }
      children := children[Key(layer, childId) := Child(user, p, if layer.Context? then more else [], columns)];
      parents := txParents;
      result := Some(childId);
    }

    // CreateIdentity checks the type first.
    method CreateIdentity(user: User, kind: string, given: Id, parentId: Id, childId: Id, description: string,
                          columns: map<string, Value>, commits: bool)
      returns (result: Option<Id>)
      modifies this`parents, this`children
      ensures View() == if result.Some?
          then Created(old(View()), user, Identity, ParentId(Identity, given, parentId), childId, [],
                                                     description, columns) else old(View())
      ensures result == if kind in {"", "personal", "professional", "demographic"} && commits &&
                           ParentId(Identity, given, parentId) !in old(parents) &&
                           Key(Identity, childId) !in old(children)
                        then Some(childId) else None
    {
      if !ValidType(kind) {
        return None;
      }
      result := Create(user, Identity, given, parentId, childId, [], description, columns, commits);
    }

    // SELECT COUNT(*) over the five tables for one parent.
    method CountChildren(table: map<Key, Child>, p: Id) returns (n: nat)
      ensures n == 0 <==> !HasChild(Rows(map[], table), p)
    {
      var found := set k | k in table && table[k].parent == p;
      n := |found|;
      if n == 0 {
        assert found == {};
        assert forall k | k in table && table[k].parent == p :: k in found;
      } else {
        assert found != {};
        NonEmpty(found);
      }
    }

    // deleteChild
    method DeleteChild(user: User, id: Id, layer: Layer, commits: bool) returns (outcome: Outcome)
      modifies this`parents, this`children
      ensures outcome == if Key(layer, id) !in old(children) || old(children)[Key(layer, id)].user != user then NotFound
                         else if commits then Ok else Failed
      ensures View() == if outcome.Ok? then Deleted(old(View()), user, layer, id) else old(View())
    {
      var k := Key(layer, id);
      if k !in children || children[k].user != user {
        return NotFound;
      }
      var p := children[k].parent;
      var txChildren := children - {k};
      var remaining := CountChildren(txChildren, p);
      assert HasChild(Rows(map[], txChildren), p) == HasChild(Rows(parents, txChildren), p);
      var txParents := parents;
      if remaining == 0 && p in parents && parents[p].user == user {
        txParents := parents - {p};
      }
      if !commits {
        return Failed;
      }
      parents, children := txParents, txChildren;
      outcome := Ok;
    }

    // DeleteAll: the child tables one by one, then the parents, then the persona documents.
    method DeleteAll(user: User, commits: bool) returns (outcome: Outcome)
      modifies this
      ensures outcome == if commits then Ok else Failed
      ensures View() == if commits then Emptied(old(View()), user) else old(View())
      ensures commits ==> personas == old(personas) - {user} && histories == old(histories) - {user}
      ensures !commits ==> personas == old(personas) && histories == old(histories)
    {
      var tables := [Identity, Activity, Context, Experience, Preference];
      var tx := children;
      for i := 0 to |tables|
        invariant tx == map k | k in children && !(k.layer in tables[..i] && children[k].user == user) :: children[k]
      {
        tx := map k | k in tx && !(k.layer == tables[i] && tx[k].user == user) :: tx[k];
      }
      if !commits {
        return Failed;
      }
      EveryTable(tables);
      children := tx;
      parents := map p | p in parents && parents[p].user != user :: parents[p];
      personas := personas - {user};
      histories := histories - {user};
      outcome := Ok;
    }

    // The UPDATE statement: no statement without fields, ErrNotFound when it matches no row.
    method ExecUpdate(user: User, layer: Layer, id: Id, b: Builder, ghost entries: seq<Entry>)
        returns (outcome: Outcome)
      requires Holds(b, user, id, entries)
      modifies this`children
      ensures View() == if outcome.Ok? then Updated(old(View()), user, layer, id, Collected(entries)) else old(View())
      ensures outcome == UpdateOutcome(old(View()), user, layer, id, Collected(entries))
    {
      var k := Key(layer, id);
      if b.clauses == [] {
        assert k in children ==> children[k].columns + map[] == children[k].columns;
        assert k in children ==> children[k := children[k]] == children;
        return Ok;
      }
      assert b.Fields() != map[] by {
        assert b.clauses[|b.clauses|-1].column in b.Fields();
      }
      if k !in children || children[k].user != user {
        return NotFound;
      }
      var columns := children[k].columns;
      var i := 0;
      while i < |b.clauses|
        invariant 0 <= i <= |b.clauses|
        invariant columns == children[k].columns + Assigned(b.clauses[..i], b.args)
      {
        assert b.clauses[i] in b.clauses;
        assert b.clauses[..i + 1][..i] == b.clauses[..i];
        columns := columns[b.clauses[i].column := b.args[b.clauses[i].arg - 1]];
        i := i + 1;
      }
      assert b.clauses[..|b.clauses|] == b.clauses;
      children := children[k := Child(user, children[k].parent, children[k].more, columns)];
      outcome := Ok;
    }

    method UpdateIdentity(user: User, id: Id, u: IdentityUpdate) returns (outcome: Outcome)
      modifies this`children
      ensures outcome == if u.kind.Some? && u.kind.value !in {"", "personal", "professional", "demographic"}
                         then InvalidType else
                         UpdateOutcome(old(View()), user, Identity, id, Collected(IdentityFields(u)))
      ensures View() == if outcome.Ok? then Updated(old(View()), user, Identity, id, Collected(IdentityFields(u)))
                        else old(View())
    {
      if u.kind.Some? && !ValidType(u.kind.value) {
        return InvalidType;
      }
      hide Holds, Collected, Updated, UpdateOutcome;
      ghost var all := IdentityFields(u);
      var b := Builder([], [Text(user), Text(id)], 3);
      HoldsNothing(user, id, all);
      b := Push(b, Entry("description", AsText(u.description)), user, id, all, 0);
      b := Push(b, Entry("role", AsText(u.role)), user, id, all, 1);
      b := Push(b, Entry("relationship", AsText(u.relationship)), user, id, all, 2);
      b := Push(b, Entry("type", AsText(u.kind)), user, id, all, 3);
      b := Push(b, Entry("episodic_date", AsTime(u.episodicDate)), user, id, all, 4);
      b := Push(b, Entry("tags", AsTexts(u.extractedLabels)), user, id, all, 5);
      b := Push(b, Entry("metadata", AsJson(u.labels)), user, id, all, 6);
      assert all[..7] == all;
      outcome := ExecUpdate(user, Identity, id, b, all);
    }

    method UpdateActivity(user: User, id: Id, u: ActivityUpdate) returns (outcome: Outcome)
      modifies this`children
      ensures outcome == UpdateOutcome(old(View()), user, Activity, id, Collected(ActivityFields(u)))
      ensures View() == if outcome.Ok? then Updated(old(View()), user, Activity, id, Collected(ActivityFields(u)))
                        else old(View())
    {
      hide Holds, Collected, Updated, UpdateOutcome;
      ghost var all := ActivityFields(u);
      var b := Builder([], [Text(user), Text(id)], 3);
      HoldsNothing(user, id, all);
      b := Push(b, Entry("narrative", AsText(u.narrative)), user, id, all, 0);
      b := Push(b, Entry("notes", AsText(u.notes)), user, id, all, 1);
      b := Push(b, Entry("status", AsText(u.status)), user, id, all, 2);
      assert all[..3] == all;
      outcome := ExecUpdate(user, Activity, id, b, all);
    }

    method UpdateContext(user: User, id: Id, u: ContextUpdate) returns (outcome: Outcome)
      modifies this`children
      ensures outcome == UpdateOutcome(old(View()), user, Context, id, Collected(ContextFields(u)))
      ensures View() == if outcome.Ok? then Updated(old(View()), user, Context, id, Collected(ContextFields(u)))
                        else old(View())
    {
      hide Holds, Collected, Updated, UpdateOutcome;
      ghost var all := ContextFields(u);
      var b := Builder([], [Text(user), Text(id)], 3);
      HoldsNothing(user, id, all);
      b := Push(b, Entry("title", AsText(u.title)), user, id, all, 0);
      b := Push(b, Entry("description", AsText(u.description)), user, id, all, 1);
      b := Push(b, Entry("current_status", AsText(u.currentStatus)), user, id, all, 2);
      assert all[..3] == all;
      outcome := ExecUpdate(user, Context, id, b, all);
    }

    method UpdateExperience(user: User, id: Id, u: ExperienceUpdate) returns (outcome: Outcome)
      modifies this`children
      ensures outcome == UpdateOutcome(old(View()), user, Experience, id, Collected(ExperienceFields(u)))
      ensures View() == if outcome.Ok? then Updated(old(View()), user, Experience, id, Collected(ExperienceFields(u)))
                        else old(View())
    {
      hide Holds, Collected, Updated, UpdateOutcome;
      ghost var all := ExperienceFields(u);
      var b := Builder([], [Text(user), Text(id)], 3);
      HoldsNothing(user, id, all);
      b := Push(b, Entry("situation", AsText(u.situation)), user, id, all, 0);
      b := Push(b, Entry("action", AsText(u.action)), user, id, all, 1);
      b := Push(b, Entry("key_learning", AsText(u.keyLearning)), user, id, all, 2);
      assert all[..3] == all;
      outcome := ExecUpdate(user, Experience, id, b, all);
    }

    method UpdatePreference(user: User, id: Id, u: PreferenceUpdate) returns (outcome: Outcome)
      modifies this`children
      ensures outcome == UpdateOutcome(old(View()), user, Preference, id, Collected(PreferenceFields(u)))
      ensures View() == if outcome.Ok? then Updated(old(View()), user, Preference, id, Collected(PreferenceFields(u)))
                        else old(View())
    {
      hide Holds, Collected, Updated, UpdateOutcome;
      ghost var all := PreferenceFields(u);
      var b := Builder([], [Text(user), Text(id)], 3);
      HoldsNothing(user, id, all);
      b := Push(b, Entry("conclusion_directives", AsText(u.conclusionDirectives)), user, id, all, 0);
      b := Push(b, Entry("suggestions", AsText(u.suggestions)), user, id, all, 1);
      assert all[..2] == all;
      outcome := ExecUpdate(user, Preference, id, b, all);
    }
  }

  lemma NonEmpty<T>(s: set<T>)
    requires s != {}
    ensures exists x :: x in s
  {
  }

  lemma EveryTable(tables: seq<Layer>)
    requires tables == [Identity, Activity, Context, Experience, Preference]
    ensures forall l: Layer :: l in tables[..|tables|]
  {
    assert tables[..|tables|] == tables;
    forall l: Layer
      ensures l in tables
    {
      match l
      case Identity => assert tables[0] == l;
      case Activity => assert tables[1] == l;
      case Context => assert tables[2] == l;
      case Experience => assert tables[3] == l;
      case Preference => assert tables[4] == l;
    }
  }
}
