/**
 Runs are serialised per task only: statements about other tasks come in between anywhere. They
 make no difference to a task's own rows, so what is proved about a task's history alone holds
 in the middle of everybody else's.
 */
module TaskInterleaving {
  import opened Prelude
  import opened TaskRows
  import opened TaskWorkflow
  import opened TaskTheorems
  import opened TaskOutcomes
  import opened TaskHistories

  // Two databases that one task cannot tell apart by its row and its topic rows.
  ghost predicate SameFor(a: DB, b: DB, id: TaskId) {
    (id in a.tasks <==> id in b.tasks) && (id in a.tasks ==> a.tasks[id] == b.tasks[id]) &&
    (forall t :: Key(id, t) in a.links <==> Key(id, t) in b.links) &&
    (forall t | Key(id, t) in a.links :: a.links[Key(id, t)] == b.links[Key(id, t)])
  }

  // The statements about one task.
  function Own(ws: seq<Write>, id: TaskId): seq<Write> {
    if ws == [] then [] else (if ws[0].id == id then [ws[0]] else []) + Own(ws[1..], id)
  }

  lemma OwnStatement(a: DB, b: DB, w: Write)
    requires SameFor(a, b, w.id)
    ensures SameFor(Apply(a, w), Apply(b, w), w.id)
  {
  }

  lemma OtherStatement(a: DB, b: DB, w: Write, id: TaskId)
    requires SameFor(a, b, id) && w.id != id
    ensures SameFor(Apply(a, w), b, id)
  {
  }

  // Whatever is interleaved, a task's rows are those that its own statements make.
  lemma {:induction false} OnlyOwnStatements(a: DB, b: DB, ws: seq<Write>, id: TaskId)
    requires SameFor(a, b, id)
    ensures SameFor(ApplyAll(a, ws), ApplyAll(b, Own(ws, id)), id)
    decreases |ws|
  {
    hide Apply, SameFor;
    if ws != [] {
      if ws[0].id == id {
        OwnStatement(a, b, ws[0]);
        OnlyOwnStatements(Apply(a, ws[0]), Apply(b, ws[0]), ws[1..], id);
        assert Own(ws, id)[0] == ws[0] && Own(ws, id)[1..] == Own(ws[1..], id);
      } else {
        OtherStatement(a, b, ws[0], id);
        OnlyOwnStatements(Apply(a, ws[0]), b, ws[1..], id);
        assert Own(ws, id) == Own(ws[1..], id);
      }
    }
  }

  // A run decides by its own task's rows alone.
  lemma PlanByOwnRows(a: DB, b: DB, run: Run)
    requires SameFor(a, b, run.id)
    ensures Plan(a, run) == Plan(b, run)
  {
    assert RunningTopics(a, run.id) == RunningTopics(b, run.id) by {
      forall t
        ensures t in RunningTopics(a, run.id) <==> t in RunningTopics(b, run.id)
      {
        RunningKey(a, run.id, t);
        RunningKey(b, run.id, t);
      }
    }
    hide RunningTopics;
    assert Refused(a, run) == Refused(b, run);
  }

  lemma RunningKey(db: DB, id: TaskId, t: TopicId)
    ensures t in RunningTopics(db, id) <==> Key(id, t) in db.links && db.links[Key(id, t)].status.TopicRunning?
  {
    if t in RunningTopics(db, id) {
      var k :| k in db.links && k.task == id && db.links[k].status.TopicRunning? && k.topic == t;
      assert k == Key(id, t);
    }
  }

  // A trace in which one task goes through these runs, each with the plan it makes from the state
  // in which it starts, while other tasks do anything they like before, between and within them.
  ghost predicate Goes(db: DB, ws: seq<Write>, id: TaskId, runs: seq<Run>)
    decreases |runs|
  {
    if runs == [] then Own(ws, id) == []
    else
      runs[0].id == id &&
      exists i, j :: 0 <= i <= j <= |ws| && Own(ws[..i], id) == [] && RunWithin(db, ws, i, j, runs[0]) &&
                     Goes(ApplyAll(db, ws[..j]), ws[j..], id, runs[1..])
  }

  // The run takes place between statements i and j of the trace.
  ghost predicate RunWithin(db: DB, ws: seq<Write>, i: int, j: int, run: Run)
    requires 0 <= i <= j <= |ws|
  {
    Own(ws[i..j], run.id) == Plan(ApplyAll(db, ws[..i]), run)
  }

  lemma OwnFirst(ws: seq<Write>, id: TaskId)
    requires ws != []
    ensures Own(ws, id) == (if ws[0].id == id then [ws[0]] else []) + Own(ws[1..], id)
  {
  }

  lemma OwnNone(id: TaskId)
    ensures Own([], id) == []
  {
  }

  lemma Associative(a: seq<Write>, b: seq<Write>, c: seq<Write>)
    ensures a + (b + c) == (a + b) + c
  {
  }

  lemma {:induction false} OwnConcat(a: seq<Write>, b: seq<Write>, id: TaskId)
    ensures Own(a + b, id) == Own(a, id) + Own(b, id)
  {
    hide Own;
    if a == [] {
      OwnNone(id);
      assert a + b == b;
    } else {
      OwnFirst(a, id);
      OwnFirst(a + b, id);
      assert (a + b)[0] == a[0] && (a + b)[1..] == a[1..] + b;
      OwnConcat(a[1..], b, id);
      Associative(if a[0].id == id then [a[0]] else [], Own(a[1..], id), Own(b, id));
    }
  }

  // Interleaved with anything, a task ends with the rows of its history alone ...
  lemma {:induction false} InterleavedHistory(a: DB, b: DB, ws: seq<Write>, id: TaskId, runs: seq<Run>)
    requires SameFor(a, b, id) && Goes(a, ws, id, runs)
    ensures SameFor(ApplyAll(a, ws), History(b, runs), id)
    decreases |runs|
  {
    hide SameFor, Plan, ApplyAll, Own, Exec, RunWithin;
    if runs == [] {
      OnlyOwnStatements(a, b, ws, id);
      ApplyNone(b);
    } else {
      var i, j :| 0 <= i <= j <= |ws| && Own(ws[..i], id) == [] && RunWithin(a, ws, i, j, runs[0]) &&
                  Goes(ApplyAll(a, ws[..j]), ws[j..], id, runs[1..]);
      OneRun(a, b, ws, i, j, runs[0]);
      InterleavedHistory(ApplyAll(a, ws[..j]), Exec(b, runs[0]), ws[j..], id, runs[1..]);
      ApplyConcat(a, ws[..j], ws[j..]);
      assert ws[..j] + ws[j..] == ws;
    }
  }

  lemma OneRun(a: DB, b: DB, ws: seq<Write>, i: int, j: int, run: Run)
    requires 0 <= i <= j <= |ws| && Own(ws[..i], run.id) == []
    requires SameFor(a, b, run.id) && RunWithin(a, ws, i, j, run)
    ensures SameFor(ApplyAll(a, ws[..j]), Exec(b, run), run.id)
  {
    hide SameFor, Plan;
    OnlyOwnStatements(a, b, ws[..i], run.id);
    ApplyNone(b);
    PlanByOwnRows(ApplyAll(a, ws[..i]), b, run);
    OnlyOwnStatements(a, b, ws[..j], run.id);
    assert ws[..i] + ws[i..j] == ws[..j];
    OwnConcat(ws[..i], ws[i..j], run.id);
    assert [] + Plan(b, run) == Plan(b, run);
  }

  // What a database holds about one task.
  function Alone(db: DB, id: TaskId): DB {
    DB(map t | t in db.tasks && t == id :: db.tasks[t], map k | k in db.links && k.task == id :: db.links[k], db.topics)
  }

  lemma AloneIsSame(db: DB, id: TaskId)
    ensures SameFor(db, Alone(db, id), id)
    ensures RunningTopics(db, id) == {} ==> Quiet(Alone(db, id))
  {
    if RunningTopics(db, id) == {} {
      forall k | k in Alone(db, id).links
        ensures !db.links[k].status.TopicRunning?
      {
        RunningKey(db, id, k.topic);
      }
    }
  }

  // ... and so exactly once, with nothing running, however often its activities ran, whatever topics
  // its runs brought, and whatever was running or happening in other tasks.
  lemma InterleavedExactlyOnce(db: DB, ws: seq<Write>, id: TaskId, runs: seq<Run>)
    requires RunningTopics(db, id) == {} && Goes(db, ws, id, runs)
    ensures SameFor(ApplyAll(db, ws), History(Alone(db, id), OnceEach(runs)), id)
    ensures RunningTopics(ApplyAll(db, ws), id) == {}
  {
    AloneIsSame(db, id);
    InterleavedHistory(db, Alone(db, id), ws, id, runs);
    ExactlyOnce(Alone(db, id), runs);
    HistoryKeepsQuiet(Alone(db, id), runs);
    forall t
      ensures t !in RunningTopics(ApplyAll(db, ws), id)
    {
      RunningKey(ApplyAll(db, ws), id, t);
    }
  }

  // With new topics the numbering of a task's topics holds as well.
  lemma InterleavedNumbering(db: DB, ws: seq<Write>, id: TaskId, runs: seq<Run>)
    requires id in db.tasks && RunningTopics(db, id) == {} && Numbered(db, id)
    requires FreshTopics(db, runs) && Goes(db, ws, id, runs)
    ensures id in ApplyAll(db, ws).tasks && Numbered(ApplyAll(db, ws), id)
  {
    var alone := Alone(db, id);
    AloneIsSame(db, id);
    NumberedFor(db, alone, id);
    assert Consistent(alone);
    InterleavedHistory(db, alone, ws, id, runs);
    HistoryKeepsConsistent(alone, runs);
    HistoryKeepsTasks(alone, runs);
    NumberedFor(History(alone, runs), ApplyAll(db, ws), id);
  }

  lemma {:induction false} HistoryKeepsTasks(db: DB, runs: seq<Run>)
    ensures History(db, runs).tasks.Keys == db.tasks.Keys
    decreases |runs|
  {
    if runs != [] {
      StatementsKeepTasks(db, Plan(db, runs[0]));
      HistoryKeepsTasks(Exec(db, runs[0]), runs[1..]);
    }
  }

  lemma {:induction false} StatementsKeepTasks(db: DB, ws: seq<Write>)
    ensures ApplyAll(db, ws).tasks.Keys == db.tasks.Keys
    decreases |ws|
  {
    if ws != [] {
      StatementsKeepTasks(Apply(db, ws[0]), ws[1..]);
    }
  }

  lemma NumberedFor(a: DB, b: DB, id: TaskId)
    requires SameFor(b, a, id) && id in a.tasks && id in b.tasks && Numbered(a, id)
    ensures Numbered(b, id)
  {
    forall k: Key | k.task == id
      ensures k in a.links <==> k in b.links
      ensures k in a.links ==> b.links[k] == a.links[k]
    {
      assert k == Key(id, k.topic);
    }
    SameLinksNumbered(a, b, id);
  }
}
