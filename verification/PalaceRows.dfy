/**
 The memory palace tables of memory/palace/pgstore.go: user_memories as parents and the five
 layer tables as children. Creates insert a parent with its child, deletes remove a child with
 its parent, so parents and children stay in one-to-one correspondence.
 */
module PalaceRows {
  import opened Prelude

  type Id = string
  type User = string

  datatype Layer = Identity | Activity | Context | Experience | Preference

  // What a column holds; lists and JSON as what they stand for.
  datatype Value = Text(text: string) | Texts(texts: seq<string>) | Json(json: string) | Time(at: int)

  datatype Parent = Parent(user: User, layer: Layer, summary: string)

  // A row of the table of a layer: user_memory_id, or for contexts the list user_memory_ids whose
  // first entry is the parent and whose other entries are the caller's.
  datatype Key = Key(layer: Layer, id: Id)
  datatype Child = Child(user: User, parent: Id, more: seq<Id>, columns: map<string, Value>)

  datatype Rows = Rows(parents: map<Id, Parent>, children: map<Key, Child>)

  // Every child has a parent of its layer and user, every parent has a child, no two children
  // have the same parent.
  predicate Paired(r: Rows) {
    (forall k | k in r.children :: Owned(r, k)) &&
    (forall p | p in r.parents :: HasChild(r, p)) &&
    (forall j, k | j in r.children && k in r.children && j != k :: r.children[j].parent != r.children[k].parent)
  }

  predicate Owned(r: Rows, k: Key)
    requires k in r.children
  {
    var c := r.children[k];
    c.parent in r.parents && r.parents[c.parent].layer == k.layer && r.parents[c.parent].user == c.user
  }

  predicate HasChild(r: Rows, p: Id) {
    exists k :: k in r.children && r.children[k].parent == p
  }

  // What the callers ask for. The generated ids are the random ones of generateParentID.
  datatype Op =
    | Create(user: User, layer: Layer, givenId: Id, parentId: Id, childId: Id, more: seq<Id>, summary: string,
             columns: map<string, Value>)
    | Update(user: User, layer: Layer, id: Id, fields: map<string, Value>)
    | Delete(user: User, layer: Layer, id: Id)
    | DeleteAll(user: User)

  // Contexts never take the caller's id.
  function ParentId(layer: Layer, given: Id, generated: Id): Id {
    if layer.Context? || given == "" then generated else given
  }

  // A create fails, and leaves nothing behind, when one of its ids is taken.
  function Created(r: Rows, user: User, layer: Layer, parent: Id, child: Id, more: seq<Id>, summary: string,
                   columns: map<string, Value>): Rows {
    if parent in r.parents || Key(layer, child) in r.children then r
    else Rows(r.parents[parent := Parent(user, layer, summary)],
              r.children[Key(layer, child) := Child(user, parent, if layer.Context? then more else [], columns)])
  }

  function Updated(r: Rows, user: User, layer: Layer, id: Id, fields: map<string, Value>): Rows {
    var k := Key(layer, id);
    if k in r.children && r.children[k].user == user
    then Rows(r.parents,
        r.children[k := Child(user, r.children[k].parent, r.children[k].more, r.children[k].columns + fields)])
    else r
  }

  // deleteChild: the parent goes too unless another child names it or it is someone else's.
  function Deleted(r: Rows, user: User, layer: Layer, id: Id): Rows {
    var k := Key(layer, id);
    if k !in r.children || r.children[k].user != user then r
    else
      var p, rest := r.children[k].parent, r.children - {k};
      if HasChild(Rows(r.parents, rest), p) || p !in r.parents || r.parents[p].user != user
      then Rows(r.parents, rest)
      else Rows(r.parents - {p}, rest)
  }

  function Emptied(r: Rows, user: User): Rows {
    Rows(map p | p in r.parents && r.parents[p].user != user :: r.parents[p],
         map k | k in r.children && r.children[k].user != user :: r.children[k])
  }

  function Do(r: Rows, op: Op): Rows {
    match op
    case Create(user, layer, given, parent, child, more, summary, columns) =>
      Created(r, user, layer, ParentId(layer, given, parent), child, more, summary, columns)
    case Update(user, layer, id, fields) => Updated(r, user, layer, id, fields)
    case Delete(user, layer, id) => Deleted(r, user, layer, id)
    case DeleteAll(user) => Emptied(r, user)
  }

  function Run(r: Rows, ops: seq<Op>): Rows {
    if ops == [] then r else Do(Run(r, ops[..|ops|-1]), ops[|ops|-1])
  }

  // A create that finds its ids free inserts one parent and one child with what it was given, and
  // changes no other row. The caller's id is the parent's, but for contexts.
  lemma CreateInserts(r: Rows, op: Op)
    requires op.Create?
    ensures var after, k := Do(r, op), Key(op.layer, op.childId);
      var p := if op.givenId != "" && op.layer != Context then op.givenId else op.parentId;
      if p in r.parents || k in r.children then after == r
      else p in after.parents && after.parents[p] == Parent(op.user, op.layer, op.summary) &&
           after.parents - {p} == r.parents &&
           k in after.children && after.children - {k} == r.children &&
           var c := after.children[k];
           c.user == op.user && c.parent == p && c.columns == op.columns &&
           c.more == if op.layer == Context then op.more else []
  {
  }

  // An update writes the given columns of the user's own row over what they were, and nothing else.
  lemma UpdateWrites(r: Rows, op: Op)
    requires op.Update?
    ensures var after, k := Do(r, op), Key(op.layer, op.id);
      if k !in r.children || r.children[k].user != op.user then after == r
      else after.parents == r.parents && k in after.children && after.children - {k} == r.children - {k} &&
           var was, now := r.children[k], after.children[k];
           now.user == was.user && now.parent == was.parent && now.more == was.more &&
           forall c :: (c in now.columns <==> c in was.columns || c in op.fields) &&
             (c in op.fields ==> now.columns[c] == op.fields[c]) &&
             (c in was.columns && c !in op.fields ==> now.columns[c] == was.columns[c])
  {
  }

  lemma CreateKeepsPaired(r: Rows, user: User, layer: Layer, parent: Id, child: Id, more: seq<Id>, summary: string,
                          columns: map<string, Value>)
    requires Paired(r)
    ensures Paired(Created(r, user, layer, parent, child, more, summary, columns))
  {
    var after := Created(r, user, layer, parent, child, more, summary, columns);
    if after != r {
      forall p | p in after.parents
        ensures HasChild(after, p)
      {
        if p == parent {
          assert Key(layer, child) in after.children && after.children[Key(layer, child)].parent == p;
        } else {
          assert HasChild(r, p);
          var k :| k in r.children && r.children[k].parent == p;
          assert k in after.children && after.children[k].parent == p;
        }
      }
      forall k | k in r.children
        ensures r.children[k].parent != parent
      {
        assert Owned(r, k);
      }
      forall k | k in after.children
        ensures Owned(after, k)
      {
        assert k in r.children ==> Owned(r, k);
      }
    }
  }

  lemma UpdateKeepsPaired(r: Rows, user: User, layer: Layer, id: Id, fields: map<string, Value>)
    requires Paired(r)
    ensures Paired(Updated(r, user, layer, id, fields))
  {
    var after := Updated(r, user, layer, id, fields);
    forall p | p in after.parents
      ensures HasChild(after, p)
    {
      assert HasChild(r, p);
      var k :| k in r.children && r.children[k].parent == p;
      assert k in after.children && after.children[k].parent == p;
    }
    forall k | k in after.children
      ensures Owned(after, k)
    {
      assert Owned(r, k);
    }
  }

  // In paired rows nothing else names the parent: a delete always takes child and parent.
  lemma DeleteTakesBoth(r: Rows, user: User, layer: Layer, id: Id)
    requires Paired(r) && Key(layer, id) in r.children && r.children[Key(layer, id)].user == user
    ensures var p := r.children[Key(layer, id)].parent;
      !HasChild(Rows(r.parents, r.children - {Key(layer, id)}), p) &&
      Deleted(r, user, layer, id) == Rows(r.parents - {p}, r.children - {Key(layer, id)})
  {
    assert Owned(r, Key(layer, id));
  }

  lemma DeleteKeepsPaired(r: Rows, user: User, layer: Layer, id: Id)
    requires Paired(r)
    ensures Paired(Deleted(r, user, layer, id))
  {
    var key := Key(layer, id);
    if key in r.children && r.children[key].user == user {
      DeleteTakesBoth(r, user, layer, id);
      var after, gone := Deleted(r, user, layer, id), r.children[key].parent;
      forall p | p in after.parents
        ensures HasChild(after, p)
      {
        assert HasChild(r, p);
        var k :| k in r.children && r.children[k].parent == p;
        assert k in after.children && after.children[k].parent == p;
      }
      forall k | k in after.children
        ensures Owned(after, k)
      {
        assert Owned(r, k) && r.children[k].parent != gone;
      }
    }
  }

  lemma DeleteAllKeepsPaired(r: Rows, user: User)
    requires Paired(r)
    ensures Paired(Emptied(r, user))
  {
    var after := Emptied(r, user);
    forall p | p in after.parents
      ensures HasChild(after, p)
    {
      assert HasChild(r, p);
      var k :| k in r.children && r.children[k].parent == p;
      assert Owned(r, k) && k in after.children && after.children[k].parent == p;
    }
    forall k | k in after.children
      ensures Owned(after, k)
    {
      assert Owned(r, k);
    }
  }

  lemma DoKeepsPaired(r: Rows, op: Op)
    requires Paired(r)
    ensures Paired(Do(r, op))
  {
    hide Paired;
    match op
    case Create(user, layer, given, parent, child, more, summary, columns) =>
      CreateKeepsPaired(r, user, layer, ParentId(layer, given, parent), child, more, summary, columns);
    case Update(user, layer, id, fields) => UpdateKeepsPaired(r, user, layer, id, fields);
    case Delete(user, layer, id) => DeleteKeepsPaired(r, user, layer, id);
    case DeleteAll(user) => DeleteAllKeepsPaired(r, user);
  }

  // Over any sequence of operations, failing ones included.
  lemma {:induction false} RunKeepsPaired(r: Rows, ops: seq<Op>)
    requires Paired(r)
    ensures Paired(Run(r, ops))
  {
    hide Paired;
    if ops != [] {
      RunKeepsPaired(r, ops[..|ops|-1]);
      DoKeepsPaired(Run(r, ops[..|ops|-1]), ops[|ops|-1]);
    }
  }

  // One parent for every child, counted.
  lemma {:induction false} AsManyParents(r: Rows)
    requires Paired(r)
    ensures |r.parents| == |r.children|
    decreases |r.children|
  {
    if r.children == map[] {
      forall p | p in r.parents
        ensures HasChild(r, p)
      {
      }
      assert r.parents.Keys == {};
    } else {
      var k :| k in r.children;
      OneLess(r, k);
      AsManyParents(Deleted(r, r.children[k].user, k.layer, k.id));
    }
  }

  lemma OneLess(r: Rows, k: Key)
    requires Paired(r) && k in r.children
    ensures var less := Deleted(r, r.children[k].user, k.layer, k.id);
      Paired(less) && |less.parents| == |r.parents| - 1 && |less.children| == |r.children| - 1
  {
    assert Owned(r, k);
    var p, user := r.children[k].parent, r.children[k].user;
    DeleteKeepsPaired(r, user, k.layer, k.id);
    DeleteTakesBoth(r, user, k.layer, k.id);
    hide Paired, Deleted, HasChild;
    assert (r.children - {k}).Keys == r.children.Keys - {k};
    assert (r.parents - {p}).Keys == r.parents.Keys - {p};
  }

  // Creating and deleting again leaves the rows as they were.
  lemma CreateThenDelete(r: Rows, user: User, layer: Layer, parent: Id, child: Id, more: seq<Id>, summary: string,
                         columns: map<string, Value>)
    requires Paired(r) && parent !in r.parents && Key(layer, child) !in r.children
    ensures Deleted(Created(r, user, layer, parent, child, more, summary, columns), user, layer, child) == r
  {
    hide Paired, Deleted, HasChild;
    var made := Created(r, user, layer, parent, child, more, summary, columns);
    CreateKeepsPaired(r, user, layer, parent, child, more, summary, columns);
    DeleteTakesBoth(made, user, layer, child);
    assert made.parents - {parent} == r.parents && made.children - {Key(layer, child)} == r.children;
  }

  // No row of this user, in any table.
  predicate Absent(r: Rows, user: User) {
    (forall p | p in r.parents :: r.parents[p].user != user)
      && (forall k | k in r.children :: r.children[k].user != user)
  }

  lemma StaysAbsent(r: Rows, user: User, op: Op)
    requires Absent(r, user) && (op.Create? ==> op.user != user)
    ensures Absent(Do(r, op), user)
  {
  }

  // A user who has deleted everything has no row until that user creates one, whatever others do.
  lemma {:induction false} DeleteAllLasts(r: Rows, user: User, ops: seq<Op>)
    requires forall op | op in ops :: op.Create? ==> op.user != user
    ensures Absent(Run(Emptied(r, user), ops), user)
  {
    if ops != [] {
      DeleteAllLasts(r, user, ops[..|ops|-1]);
      assert ops[|ops|-1] in ops;
      StaysAbsent(Run(Emptied(r, user), ops[..|ops|-1]), user, ops[|ops|-1]);
    }
  }

  // The rows of one user.
  function Of(r: Rows, user: User): Rows {
    Rows(map p | p in r.parents && r.parents[p].user == user :: r.parents[p],
         map k | k in r.children && r.children[k].user == user :: r.children[k])
  }

  // Rows that agree on what one user has.
  lemma SameOf(r: Rows, after: Rows, user: User)
    requires forall p ::
        p in r.parents && r.parents[p].user == user <==> p in after.parents && after.parents[p].user == user
    requires forall p | p in r.parents && r.parents[p].user == user :: after.parents[p] == r.parents[p]
    requires forall k ::
        k in r.children && r.children[k].user == user <==> k in after.children && after.children[k].user == user
    requires forall k | k in r.children && r.children[k].user == user :: after.children[k] == r.children[k]
    ensures Of(after, user) == Of(r, user)
  {
    assert Of(after, user).parents == Of(r, user).parents;
    assert Of(after, user).children == Of(r, user).children;
  }

  lemma DeleteSparesOthers(r: Rows, user: User, layer: Layer, id: Id, other: User)
    requires Paired(r) && user != other
    ensures Of(Deleted(r, user, layer, id), other) == Of(r, other)
  {
    var k := Key(layer, id);
    if k in r.children && r.children[k].user == user {
      DeleteTakesBoth(r, user, layer, id);
      assert Owned(r, k);
      SameOf(r, Rows(r.parents - {r.children[k].parent}, r.children - {k}), other);
    }
  }

  // An operation of one user never touches another's rows.
  lemma OthersUntouched(r: Rows, op: Op, other: User)
    requires Paired(r) && op.user != other
    ensures Of(Do(r, op), other) == Of(r, other)
  {
    hide Paired, Deleted, Of;
    match op
    case Create(user, layer, given, parent, child, more, summary, columns) => SameOf(r, Do(r, op), other);
    case Update(user, layer, id, fields) => SameOf(r, Do(r, op), other);
    case Delete(user, layer, id) => DeleteSparesOthers(r, user, layer, id, other);
    case DeleteAll(user) => SameOf(r, Do(r, op), other);
  }
}
