/**
 PostgresStore of runtime/task/pg_store.go: the three tables as fields and the statements as
 methods, each proved to be the statement of TaskRows with the same name.
 */
module TaskPostgres {
  import opened Prelude
  import opened TaskRows

  // ----- UPDATE tasks SET ... -----

  datatype Value = Text(text: string) | Number(n: int) | Stamp(at: Time) | StatusText(status: Status)

  // The row that a query makes of a link.
  function RowOf(k: Key, l: Link): TopicRow {
    TopicRow(k.topic, l.operation, l.ordinal, l.status)
  }

  function ValueOf(f: Field): Value {
    match f
    case StartedAt(at) => Stamp(at)
    case CompletedAt(at) => Stamp(at)
    case Error(message) => Text(message)
    case TotalTopics(n) => Number(n)
    case CurrentTopic(topic) => Text(topic)
    case Assignee(agent) => Text(agent)
    case ConsecutiveErrors(n) => Number(n)
    case ScheduleStartedAt(at) => Stamp(at)
    case Unknown(c) => Text(c)
  }

  // One assignment of an UPDATE, by column name.
  function SetColumn(r: TaskRow, column: string, v: Value): TaskRow {
    TaskRow(r.info,
            if column == "status" && v.StatusText? then v.status else r.status,
            if column == "error" && v.Text? then v.text else r.error,
            if column == "assignee_agent_id" && v.Text? then Some(v.text) else r.assignee,
            if column == "current_topic_id" && v.Text? then Some(v.text) else r.currentTopic,
            if column == "total_topics" && v.Number? then v.n else r.total,
            if column == "started_at" && v.Stamp? then Some(v.at) else r.startedAt,
            if column == "completed_at" && v.Stamp? then Some(v.at) else r.completedAt,
            r.heartbeat, r.config)
  }

  // The clauses and arguments that UpdateStatus has built after these fields: clause j names the
  // column of field j and its placeholder points at the value of field j.
  predicate Built(id: TaskId, status: Status, fields: seq<Field>, clauses: seq<Clause>, args: seq<Value>) {
    |clauses| == |fields| + 1 && |args| == |fields| + 2 &&
    clauses[0] == Clause("status", 2) && args[0] == Text(id) && args[1] == StatusText(status) &&
    forall j | 0 <= j < |fields| ::
      Allowed(fields[j]) && clauses[j + 1] == Clause(Column(fields[j]), j + 3) && args[j + 2] == ValueOf(fields[j])
  }

  lemma ClauseAt(id: TaskId, status: Status, fields: seq<Field>, clauses: seq<Clause>, args: seq<Value>, i: nat)
    requires Built(id, status, fields, clauses, args) && i < |clauses|
    ensures clauses[i].arg == i + 2
    ensures i > 0 ==> clauses[i].column == Column(fields[i - 1]) && args[i + 1] == ValueOf(fields[i - 1])
    ensures i > 0 ==> Allowed(fields[i - 1])
  {
    if i > 0 {
      assert clauses[(i - 1) + 1] == Clause(Column(fields[i - 1]), (i - 1) + 3);
      assert args[(i - 1) + 2] == ValueOf(fields[i - 1]);
    }
  }

  // Executing one more assignment is patching with one more field.
  lemma SetOneMore(r: TaskRow, status: Status, fields: seq<Field>)
    requires fields != [] && Allowed(fields[|fields|-1])
    ensures var f := fields[|fields|-1];
      SetColumn(PatchRow(r, status, fields[..|fields|-1]), Column(f), ValueOf(f)) == PatchRow(r, status, fields)
  {
  }

  class PostgresStore {
    var tasks: map<TaskId, TaskRow>
    var links: map<Key, Link>
    var topics: map<TopicId, Topic>

    ghost function View(): DB
      reads this
    {
      DB(tasks, links, topics)
    }

    // UpdateStatus: no unknown field reaches the statement, and every placeholder meets its value.
    method UpdateStatus(id: TaskId, status: Status, fields: seq<Field>) returns (ok: bool)
      modifies this`tasks
      ensures View() == Apply(old(View()), Patch(id, status, fields))
      ensures ok == Accepted(fields)
    {
      var setClauses := [Clause("status", 2)];
      var args := [Text(id), StatusText(status)];
      var argIdx := 3;
      for i := 0 to |fields|
        invariant argIdx == i + 3
        invariant Built(id, status, fields[..i], setClauses, args)
        invariant tasks == old(tasks)
      {
        if !Allowed(fields[i]) {
          assert !Accepted(fields);
          return false;
        }
        setClauses := setClauses + [Clause(Column(fields[i]), argIdx)];
        args := args + [ValueOf(fields[i])];
        argIdx := argIdx + 1;
        assert fields[..i + 1] == fields[..i] + [fields[i]];
      }
      assert fields[..|fields|] == fields;
      ok := Exec(id, status, fields, setClauses, args);
    }

    // Postgres executing the statement: it refuses to assign a column twice.
    method Exec(id: TaskId, ghost status: Status, ghost fields: seq<Field>, clauses: seq<Clause>, args: seq<Value>)
      returns (ok: bool)
      requires Built(id, status, fields, clauses, args)
      modifies this`tasks
      ensures View() == Apply(old(View()), Patch(id, status, fields))
      ensures ok == Accepted(fields)
    {
      ok := forall i, j | 0 <= i < j < |clauses| :: clauses[i].column != clauses[j].column;
      DistinctColumns(id, status, fields, clauses, args);
      if id in tasks {
        assert tasks[id := tasks[id]] == tasks;
        if ok {
          var row := SetRow(tasks[id], id, status, fields, clauses, args);
          tasks := tasks[id := row];
        }
      }
    }

    // The assignments of the statement, each placeholder read from the arguments (the first is $1).
    static method SetRow(was: TaskRow, ghost id: TaskId, ghost status: Status, ghost fields: seq<Field>,
                         clauses: seq<Clause>, args: seq<Value>)
      returns (row: TaskRow)
      requires Built(id, status, fields, clauses, args)
      ensures row == PatchRow(was, status, fields)
    {
      row := SetColumn(was, clauses[0].column, args[clauses[0].arg - 1]);
      var i := 1;
      while i < |clauses|
        invariant 1 <= i <= |clauses|
        invariant row == PatchRow(was, status, fields[..i - 1])
      {
        ClauseAt(id, status, fields, clauses, args, i);
        row := SetColumn(row, clauses[i].column, args[clauses[i].arg - 1]);
        assert fields[..i][..i - 1] == fields[..i - 1];
        SetOneMore(was, status, fields[..i]);
        i := i + 1;
      }
      assert fields[..|fields|] == fields;
    }

    // AddTaskTopic: one transaction, both rows left alone when they exist.
    method AddTaskTopic(id: TaskId, topic: TopicId, operation: string, ordinal: int) returns (ok: bool)
      modifies this
      ensures View() == Apply(old(View()), AddTopic(id, topic, operation, ordinal))
      ensures ok == (id in tasks)
    {
      assert id in tasks ==> tasks[id := tasks[id]] == tasks;
      if id !in tasks {
        return false;
      }
      var row := tasks[id];
      if topic !in topics {
        topics := topics[topic := Topic(row.info.owner, TopicAgent(row.assignee), row.info.name)];
      }
      if Key(id, topic) !in links {
        links := links[Key(id, topic) := Link(operation, ordinal, TopicRunning, None)];
      }
      ok := true;
    }

    method UpdateTaskTopicStatus(id: TaskId, topic: TopicId, mark: TopicStatus)
      modifies this`links
      ensures View() == Apply(old(View()), MarkTopic(id, topic, mark))
    {
      assert id in tasks ==> tasks[id := tasks[id]] == tasks;
      if Key(id, topic) in links {
        links := links[Key(id, topic) := Marked(links[Key(id, topic)], mark)];
      }
    }

    method UpdateHeartbeat(id: TaskId, now: Time)
      modifies this`tasks
      ensures View() == Apply(old(View()), Beat(id, now))
    {
      if id in tasks {
        var r := tasks[id];
        tasks := tasks[id := TaskRow(r.info, r.status, r.error, r.assignee, r.currentTopic, r.total, r.startedAt,
                                     r.completedAt, Some(now), r.config)];
      }
    }

    method UpdateTaskConfig(id: TaskId, c: Config)
      modifies this`tasks
      ensures View() == Apply(old(View()), Configure(id, c))
    {
      if id in tasks {
        var r := tasks[id];
        tasks := tasks[id := TaskRow(r.info, r.status, r.error, r.assignee, r.currentTopic, r.total, r.startedAt,
                                     r.completedAt, r.heartbeat, c)];
      }
    }

    // TimeoutRunningTopics, returning the number of rows it failed.
    method TimeoutRunningTopics(id: TaskId, timeout: int, now: Time) returns (n: nat)
      modifies this`links
      ensures View() == Apply(old(View()), Expire(id, now - timeout))
      ensures n == |set k | k in old(links) && links[k] != old(links)[k]|
    {
      assert id in tasks ==> tasks[id := tasks[id]] == tasks;
      var stale := set k | k in links && k.task == id && Stale(links[k], now - timeout);
      links := Expired(links, id, now - timeout);
      n := |stale|;
      assert stale == set k | k in old(links) && links[k] != old(links)[k];
    }

    lemma LeastOrdinal(rest: set<Key>) returns (k: Key)
      requires rest <= links.Keys && rest != {}
      ensures k in rest && forall j | j in rest :: links[k].ordinal <= links[j].ordinal
      decreases |rest|
    {
      k :| k in rest;
      if rest != {k} {
        assert rest - {k} != {};
        var least := LeastOrdinal(rest - {k});
        if links[least].ordinal < links[k].ordinal {
          k := least;
        }
      }
    }

    // ORDER BY seq, in any order where that is the same.
    method ListRunningTopics(id: TaskId) returns (topics: seq<TopicRow>)
      ensures forall t :: t in topics <==>
                          exists k :: k in links && k.task == id && links[k].status.TopicRunning?
                            && t == RowOf(k, links[k])
      ensures forall i, j | 0 <= i < j < |topics| ::
                topics[i].ordinal <= topics[j].ordinal && topics[i].topic != topics[j].topic
    {
      var selected := set k | k in links && k.task == id && links[k].status.TopicRunning?;
      var rest := selected;
      topics := [];
      while rest != {}
        invariant rest <= selected
        invariant forall t :: t in topics <==> exists k :: k in selected - rest && t == RowOf(k, links[k])
        invariant forall i, j | 0 <= i < j < |topics| ::
            topics[i].ordinal <= topics[j].ordinal && topics[i].topic != topics[j].topic
        invariant forall i, k | 0 <= i < |topics| && k in rest ::
            topics[i].ordinal <= links[k].ordinal && topics[i].topic != k.topic
      {
        ghost var least := LeastOrdinal(rest);
        var k :| k in rest && forall j | j in rest :: links[k].ordinal <= links[j].ordinal;
        topics := topics + [RowOf(k, links[k])];
        rest := rest - {k};
      }
    }

    // ResolveTask by id.
    method ResolveTask(id: TaskId) returns (t: Option<TaskItem>)
      ensures t == if id in tasks then Some(Resolve(tasks[id])) else None
    {
      t := if id in tasks then Some(Resolve(tasks[id])) else None;
    }
  }

  lemma DistinctColumns(id: TaskId, status: Status, fields: seq<Field>, clauses: seq<Clause>, args: seq<Value>)
    requires Built(id, status, fields, clauses, args)
    ensures Accepted(fields) <==> forall i, j | 0 <= i < j < |clauses| :: clauses[i].column != clauses[j].column
  {
    forall j | 0 <= j < |fields|
      ensures Column(fields[j]) == clauses[j + 1].column != "status"
    {
    }
    if Accepted(fields) {
      forall i, j | 0 <= i < j < |clauses|
        ensures clauses[i].column != clauses[j].column
      {
        ClauseAt(id, status, fields, clauses, args, i);
        ClauseAt(id, status, fields, clauses, args, j);
        assert i > 0 ==> Column(fields[i - 1]) != Column(fields[j - 1]);
      }
    }
    if forall i, j | 0 <= i < j < |clauses| :: clauses[i].column != clauses[j].column {
      forall i, j | 0 <= i < j < |fields|
        ensures Column(fields[i]) != Column(fields[j])
      {
        assert clauses[i + 1].column != clauses[j + 1].column;
      }
    }
  }
}
