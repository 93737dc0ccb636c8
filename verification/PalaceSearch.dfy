/**
 The query that Search of memory/palace/search.go compiles: conditions with numbered
 placeholders on one side, the arguments on the other. Evaluated together they are the filter
 that the caller described.
 */
module PalaceSearch {
  import opened Prelude

  datatype SearchInput = SearchInput(query: string, layers: seq<string>, categories: seq<string>, types: seq<string>,
                                     tags: seq<string>, statuses: seq<string>, limit: int)

  // A row of user_memories as far as a search looks at it. A column may be NULL.
  datatype Memory = Memory(user: string, status: Option<string>, layer: Option<string>, category: Option<string>,
                           kind: Option<string>, tags: Option<seq<string>>, words: string)

  datatype Column = Status | Layer | Category | Type

  function Cell(row: Memory, c: Column): Option<string> {
    match c case Status => row.status case Layer => row.layer case Category => row.category case Type => row.kind
  }

  datatype Arg = One(text: string) | Many(texts: seq<string>) | Vector(literal: string)

  // One conjunct of the WHERE clause; numbers are placeholders, $1 being the first argument.
  datatype Condition =
    | UserIs(arg: nat)
    | StatusActive                             // m.status = 'active'
    | ColumnIn(column: Column, args: seq<nat>) // column IN ($..., $...)
    | Contains(arg: nat)                       // title, summary or details ILIKE '%' || $n || '%'
    | Overlaps(arg: nat)                       // tags && $n::text[]

  datatype Order = BySimilarity(arg: nat) | ByCapturedAt

  datatype Query = Query(where: seq<Condition>, args: seq<Arg>, order: Order, limit: int)

  // What the embedder makes of the query text; no vector when there is no embedder.
  datatype Embedding = EmbedFailed | NoVector | Embedded(literal: string)

  // ----- what a compiled query means -----

  function ArgsOf(c: Condition): seq<nat> {
    match c
    case UserIs(n) => [n]
    case StatusActive => []
    case ColumnIn(_, ns) => ns
    case Contains(n) => [n]
    case Overlaps(n) => [n]
  }

  predicate Fits(ns: seq<nat>, args: seq<Arg>) {
    forall i | 0 <= i < |ns| :: 1 <= ns[i] <= |args|
  }

  predicate AllFit(where: seq<Condition>, args: seq<Arg>) {
    forall i | 0 <= i < |where| :: Fits(ArgsOf(where[i]), args)
  }

  predicate Overlap(a: seq<string>, b: seq<string>) {
    exists x :: x in a && x in b
  }

  // The text match of ILIKE over a row's three text columns is left open.
  type Like = (string, Memory) -> bool

  predicate Holds(c: Condition, args: seq<Arg>, row: Memory, like: Like)
    requires Fits(ArgsOf(c), args)
  {
    match c
    case UserIs(n) => assert ArgsOf(c)[0] == n; args[n - 1] == One(row.user)
    case StatusActive => row.status == Some("active")
    case ColumnIn(column, ns) =>
      // NULL is in no list
      Cell(row, column).Some? && exists i :: 0 <= i < |ns| && args[ns[i] - 1] == One(Cell(row, column).value)
    case Contains(n) => assert ArgsOf(c)[0] == n; args[n - 1].One? && like(args[n - 1].text, row)
    case Overlaps(n) =>
      assert ArgsOf(c)[0] == n; row.tags.Some? && args[n - 1].Many? && Overlap(row.tags.value, args[n - 1].texts)
  }

  predicate Selects(where: seq<Condition>, args: seq<Arg>, row: Memory, like: Like)
    requires AllFit(where, args)
  {
    forall i | 0 <= i < |where| :: Holds(where[i], args, row, like)
  }

  // ----- what the caller asked for -----

  predicate OneOf(cell: Option<string>, wanted: seq<string>) {
    cell.Some? && cell.value in wanted
  }

  // The text of the query filters only when nothing ranks by similarity.
  predicate Wanted(user: string, q: SearchInput, ranked: bool, row: Memory, like: Like) {
    row.user == user &&
    (if q.statuses == [] then row.status == Some("active") else OneOf(row.status, q.statuses)) &&
    (!ranked && q.query != "" ==> like(q.query, row)) &&
    (q.layers != [] ==> OneOf(row.layer, q.layers)) &&
    (q.categories != [] ==> OneOf(row.category, q.categories)) &&
    (q.types != [] ==> OneOf(row.kind, q.types)) &&
    (q.tags != [] ==> row.tags.Some? && exists tag :: tag in row.tags.value && tag in q.tags)
  }

  // ----- building the query -----

  // where, args and idx
  datatype Builder = Builder(where: seq<Condition>, args: seq<Arg>, idx: nat) {
    ghost predicate Valid() {
      idx == |args| + 1 && AllFit(where, args)
    }

    ghost predicate Picks(row: Memory, like: Like)
      requires Valid()
    {
      Selects(where, args, row, like)
    }
  }

  // Appending a condition over arguments that may be new narrows the selection by that condition.
  lemma Narrowed(b: Builder, c: Condition, more: seq<Arg>)
    requires b.Valid() && Fits(ArgsOf(c), b.args + more)
    ensures var r := Builder(b.where + [c], b.args + more, b.idx + |more|);
      r.Valid() && forall row, like :: r.Picks(row, like) <==> b.Picks(row, like) && Holds(c, r.args, row, like)
  {
    var r := Builder(b.where + [c], b.args + more, b.idx + |more|);
    forall i | 0 <= i < |r.where|
      ensures Fits(ArgsOf(r.where[i]), r.args)
    {
      assert i < |b.where| ==> Fits(ArgsOf(b.where[i]), b.args);
    }
    forall row, like
      ensures r.Picks(row, like) <==> b.Picks(row, like) && Holds(c, r.args, row, like)
    {
      forall i | 0 <= i < |b.where|
        ensures Holds(b.where[i], r.args, row, like) <==> Holds(b.where[i], b.args, row, like)
      {
        SameHolds(b.where[i], b.args, more, row, like);
      }
      assert r.where[|b.where|] == c;
      assert forall i | 0 <= i < |b.where| :: r.where[i] == b.where[i];
    }
  }

  lemma SameHolds(c: Condition, args: seq<Arg>, more: seq<Arg>, row: Memory, like: Like)
    requires Fits(ArgsOf(c), args)
    ensures Fits(ArgsOf(c), args + more) && (Holds(c, args + more, row, like) <==> Holds(c, args, row, like))
  {
    forall i | 0 <= i < |ArgsOf(c)|
      ensures (args + more)[ArgsOf(c)[i] - 1] == args[ArgsOf(c)[i] - 1]
    {
    }
    if c.UserIs? || c.Contains? || c.Overlaps? {
      assert ArgsOf(c)[0] == c.arg;
    } else if c.ColumnIn? {
      forall i | 0 <= i < |c.args|
        ensures (args + more)[c.args[i] - 1] == args[c.args[i] - 1]
      {
        assert ArgsOf(c)[i] == c.args[i];
      }
    }
  }

  function Ones(vals: seq<string>): seq<Arg> {
    seq(|vals|, i requires 0 <= i < |vals| => One(vals[i]))
  }

  // inPlaceholders: one placeholder for each value, numbered on from idx, and the value behind it.
  method InPlaceholders(vals: seq<string>, idx: nat, args: seq<Arg>) returns (phs: seq<nat>, idx': nat, args': seq<Arg>)
    requires idx == |args| + 1
    ensures idx' == idx + |vals| && args' == args + Ones(vals)
    ensures |phs| == |vals| && forall i | 0 <= i < |phs| :: phs[i] == idx + i
  {
    phs, idx', args' := [], idx, args;
    for i := 0 to |vals|
      invariant idx' == idx + i && |phs| == i
      invariant args' == args + Ones(vals)[..i]
      invariant forall j | 0 <= j < i :: phs[j] == idx + j
    {
      phs := phs + [idx'];
      args' := args' + [One(vals[i])];
      idx' := idx' + 1;
    }
  }

  // One of the optional IN filters.
  method AddIn(b: Builder, column: Column, vals: seq<string>) returns (r: Builder)
    requires b.Valid()
    ensures r.Valid()
    ensures forall row, like ::
        r.Picks(row, like) <==> b.Picks(row, like) && (vals != [] ==> OneOf(Cell(row, column), vals))
    ensures b.args <= r.args
  {
    r := b;
    if |vals| > 0 {
      var phs, idx, args := InPlaceholders(vals, b.idx, b.args);
      Narrowed(b, ColumnIn(column, phs), Ones(vals));
      InMeans(column, phs, vals, b.args);
      r := Builder(b.where + [ColumnIn(column, phs)], args, idx);
    }
  }

  lemma InMeans(column: Column, phs: seq<nat>, vals: seq<string>, args: seq<Arg>)
    requires |phs| == |vals| && forall i | 0 <= i < |phs| :: phs[i] == |args| + 1 + i
    ensures Fits(ArgsOf(ColumnIn(column, phs)), args + Ones(vals))
    ensures forall row, like ::
      Holds(ColumnIn(column, phs), args + Ones(vals), row, like) <==> OneOf(Cell(row, column), vals)
  {
    var all := args + Ones(vals);
    assert forall i | 0 <= i < |phs| :: all[phs[i] - 1] == One(vals[i]);
    forall row: Memory, like: Like
      ensures Holds(ColumnIn(column, phs), all, row, like) <==> OneOf(Cell(row, column), vals)
    {
      var cell := Cell(row, column);
      if cell.Some? && cell.value in vals {
        var i :| 0 <= i < |vals| && vals[i] == cell.value;
        assert all[phs[i] - 1] == One(cell.value);
      }
    }
  }

  // The text filter of the unranked path: one argument, used three times.
  method AddText(b: Builder, q: SearchInput, ranked: bool) returns (r: Builder)
    requires b.Valid()
    ensures r.Valid()
    ensures forall row, like ::
      r.Picks(row, like) <==> b.Picks(row, like) && (!ranked && q.query != "" ==> like(q.query, row))
    ensures b.args <= r.args
  {
    r := b;
    if !ranked && q.query != "" {
      Narrowed(b, Contains(b.idx), [One(q.query)]);
      r := Builder(b.where + [Contains(b.idx)], b.args + [One(q.query)], b.idx + 1);
    }
  }

  method AddTags(b: Builder, tags: seq<string>) returns (r: Builder)
    requires b.Valid()
    ensures r.Valid()
    ensures forall row, like ::
      r.Picks(row, like) <==>
      b.Picks(row, like) && (tags != [] ==> row.tags.Some? && exists tag :: tag in row.tags.value && tag in tags)
    ensures b.args <= r.args
  {
    r := b;
    if |tags| > 0 {
      Narrowed(b, Overlaps(b.idx), [Many(tags)]);
      r := Builder(b.where + [Overlaps(b.idx)], b.args + [Many(tags)], b.idx + 1);
    }
  }

  method AddStatus(b: Builder, statuses: seq<string>) returns (r: Builder)
    requires b.Valid()
    ensures r.Valid()
    ensures forall row, like ::
      r.Picks(row, like) <==>
      b.Picks(row, like) && (if statuses == [] then row.status == Some("active") else OneOf(row.status, statuses))
    ensures b.args <= r.args
  {
    if |statuses| > 0 {
      r := AddIn(b, Status, statuses);
    } else {
      Narrowed(b, StatusActive, []);
      r := Builder(b.where + [StatusActive], b.args, b.idx);
      assert b.args + [] == b.args;
    }
  }

  // Search up to the query: placeholders and arguments agree, the WHERE clause is the filter that
  // was asked for, and similarity ranks exactly when there is a vector.
  method Search(user: string, q: SearchInput, embedding: Embedding) returns (r: Option<Query>)
    ensures r.None? <==> q.query != "" && embedding.EmbedFailed?
    ensures r.Some? ==> AllFit(r.value.where, r.value.args)
    ensures r.Some? ==> forall row, like ::
      Selects(r.value.where, r.value.args, row, like) <==> Wanted(user, q, r.value.order.BySimilarity?, row, like)
    ensures r.Some? ==> (r.value.order.BySimilarity? <==>
        q.query != "" && embedding.Embedded? && embedding.literal != "")
    ensures r.Some? && r.value.order.BySimilarity? ==>
      1 <= r.value.order.arg <= |r.value.args| && r.value.args[r.value.order.arg - 1] == Vector(embedding.literal)
    ensures r.Some? ==> r.value.limit == if q.limit <= 0 then 20 else if q.limit > 100 then 100 else q.limit
  {
    var limit := q.limit;
    if limit <= 0 {
      limit := 20;
    }
    if limit > 100 {
      limit := 100;
    }
    if q.query != "" && embedding.EmbedFailed? {
      return None;
    }
    var ranked := q.query != "" && embedding.Embedded? && embedding.literal != "";
    var b := Start(user, ranked, if ranked then embedding.literal else "");
    var order := if ranked then BySimilarity(2) else ByCapturedAt;
    ghost var first := b.args;
    b := AddStatus(b, q.statuses);
    b := AddText(b, q, ranked);
    b := AddIn(b, Layer, q.layers);
    b := AddIn(b, Category, q.categories);
    b := AddIn(b, Type, q.types);
    b := AddTags(b, q.tags);
    r := Some(Query(b.where, b.args, order, limit));
    assert first <= b.args;
    forall row, like
      ensures Selects(b.where, b.args, row, like) <==> Wanted(user, q, ranked, row, like)
    {
      assert b.Picks(row, like) <==> Selects(b.where, b.args, row, like);
    }
  }

  // The user's id, and behind it the vector if there is one.
  method Start(user: string, ranked: bool, literal: string) returns (b: Builder)
    ensures b.Valid() && b.args == (if ranked then [One(user), Vector(literal)] else [One(user)])
    ensures forall row, like :: b.Picks(row, like) <==> row.user == user
  {
    var args := [One(user)];
    var idx := 2;
    if ranked {
      args := args + [Vector(literal)];
      idx := idx + 1;
    }
    b := Builder([UserIs(1)], args, idx);
    forall row, like
      ensures b.Picks(row, like) <==> row.user == user
    {
      assert b.where[0] == UserIs(1);
    }
  }
}
