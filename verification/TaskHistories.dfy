/**
 Whole histories of runs, one after the other. Between runs no topic is running and the topics
 of every task are numbered 1 to total_topics; at every single statement of every run at most
 one topic is running; and re-executed activities leave no trace at all.
 */
module TaskHistories {
  import opened Prelude
  import opened TaskRows
  import opened TaskWorkflow
  import opened TaskTheorems
  import opened TaskOutcomes

  predicate HasOrdinal(db: DB, id: TaskId, n: int) {
    exists k :: k in db.links && k.task == id && db.links[k].ordinal == n
  }

  // The topics of a task carry exactly the ordinals 1 to total_topics, each once.
  predicate Numbered(db: DB, id: TaskId)
    requires id in db.tasks
  {
    db.tasks[id].total >= 0 &&
    (forall k | k in db.links && k.task == id :: 1 <= db.links[k].ordinal <= db.tasks[id].total) &&
    (forall j, k | j in db.links && k in db.links && j.task == id == k.task &&
                   db.links[j].ordinal == db.links[k].ordinal :: j == k) &&
    (forall n | 1 <= n <= db.tasks[id].total :: HasOrdinal(db, id, n))
  }

  // What holds between runs.
  predicate Consistent(db: DB) {
    Quiet(db) && forall id | id in db.tasks :: Numbered(db, id)
  }

  // The run reaches step 5b with a topic of its own.
  predicate AddsTopic(db: DB, run: Run) {
    !Refused(db, run) && run.promptBuilt && LinksNewTopic(run)
  }

  predicate FreshTopic(db: DB, run: Run)
    requires run.agent.AgentDone?
  {
    Key(run.id, run.agent.topic) !in db.links
  }

  lemma SameLinksNumbered(db: DB, after: DB, id: TaskId)
    requires id in db.tasks && id in after.tasks && Numbered(db, id)
    requires after.tasks[id].total == db.tasks[id].total
    requires forall k: Key | k.task == id :: k in db.links <==> k in after.links
    requires forall k: Key | k.task == id && k in db.links :: after.links[k].ordinal == db.links[k].ordinal
    ensures Numbered(after, id)
  {
    forall n | 1 <= n <= after.tasks[id].total
      ensures HasOrdinal(after, id, n)
    {
      assert HasOrdinal(db, id, n);
    }
  }

  // A new topic under the next ordinal keeps the numbering.
  lemma NextNumbered(db: DB, after: DB, key: Key, link: Link)
    requires key.task in db.tasks && key.task in after.tasks && Numbered(db, key.task)
    requires key !in db.links && after.links == db.links[key := link]
    requires after.tasks[key.task].total == db.tasks[key.task].total + 1 == link.ordinal
    ensures Numbered(after, key.task)
  {
    var id := key.task;
    forall n | 1 <= n <= after.tasks[id].total
      ensures HasOrdinal(after, id, n)
    {
      if n == link.ordinal {
        assert key in after.links;
      } else {
        assert HasOrdinal(db, id, n);
        var k :| k in db.links && k.task == id && db.links[k].ordinal == n;
        assert k in after.links;
      }
    }
  }

  lemma SuccessConsistent(db: DB, run: Run)
    requires Consistent(db) && !Refused(db, run) && run.promptBuilt && run.agent.AgentDone?
    requires LinksNewTopic(run) ==> FreshTopic(db, run)
    ensures Consistent(Exec(db, run))
  {
    hide Exec, SuccessRow, Numbered, Conflict;
    SuccessfulRun(db, run);
    TotalAfterSuccess(db.tasks[run.id], run);
    var after, key := Exec(db, run), Key(run.id, run.agent.topic);
    forall id | id in after.tasks
      ensures Numbered(after, id)
    {
      if id == run.id && LinksNewTopic(run) {
        NextNumbered(db, after, key, after.links[key]);
      } else {
        SameLinksNumbered(db, after, id);
      }
    }
  }

  lemma TotalAfterSuccess(row: TaskRow, run: Run)
    requires run.agent.AgentDone?
    ensures SuccessRow(row, run).total == row.total + (if LinksNewTopic(run) then 1 else 0)
  {
  }

  lemma FailureConsistent(db: DB, run: Run)
    requires Consistent(db) && !Refused(db, run) && run.promptBuilt && run.agent.AgentFailed?
    ensures Consistent(Exec(db, run))
  {
    FailedRun(db, run);
    var after := Exec(db, run);
    forall id | id in after.tasks
      ensures Numbered(after, id)
    {
      SameLinksNumbered(db, after, id);
    }
  }

  // Linking a topic that is linked already counts it a second time.
  lemma StaleTopicMiscounts(db: DB, run: Run)
    requires Consistent(db) && AddsTopic(db, run) && !FreshTopic(db, run)
    ensures !Consistent(Exec(db, run))
  {
    SuccessfulRun(db, run);
    var after, total := Exec(db, run), db.tasks[run.id].total;
    TotalAfterSuccess(db.tasks[run.id], run);
    assert after.tasks[run.id].total == total + 1;
    assert !HasOrdinal(after, run.id, total + 1) by {
      forall k | k in after.links && k.task == run.id
        ensures after.links[k].ordinal <= total
      {
        assert k in db.links && after.links[k].ordinal == db.links[k].ordinal;
      }
    }
    assert Numbered(after, run.id) ==> HasOrdinal(after, run.id, total + 1);
  }

  // A run keeps the state between runs exactly when the topic it adds, if any, is new.
  lemma RunKeepsConsistent(db: DB, run: Run)
    requires Consistent(db)
    ensures Consistent(Exec(db, run)) <==> (AddsTopic(db, run) ==> FreshTopic(db, run))
  {
    if Refused(db, run) {
      assert Plan(db, run) == [];
      ApplyNone(db);
    } else if !run.promptBuilt {
      ExecByParts(db, run);
    } else if run.agent.AgentFailed? {
      FailureConsistent(db, run);
    } else if AddsTopic(db, run) && !FreshTopic(db, run) {
      StaleTopicMiscounts(db, run);
    } else {
      SuccessConsistent(db, run);
    }
  }

  // ----- histories -----

  // Every run brings a topic of its own.
  predicate FreshTopics(db: DB, runs: seq<Run>) {
    (forall i | 0 <= i < |runs| && LinksNewTopic(runs[i]) :: FreshTopic(db, runs[i])) &&
    (forall i, j | 0 <= i < j < |runs| && LinksNewTopic(runs[i]) && LinksNewTopic(runs[j]) ::
       Key(runs[i].id, runs[i].agent.topic) != Key(runs[j].id, runs[j].agent.topic))
  }

  // The links of a run are those there were and at most its own topic.
  lemma OnlyOwnTopic(db: DB, run: Run)
    requires Consistent(db)
    ensures Exec(db, run).links.Keys <=
            db.links.Keys + if LinksNewTopic(run) then {Key(run.id, run.agent.topic)} else {}
  {
    if Refused(db, run) {
      assert Plan(db, run) == [];
      ApplyNone(db);
    } else if !run.promptBuilt {
      ExecByParts(db, run);
    } else if run.agent.AgentFailed? {
      FailedRun(db, run);
    } else {
      SuccessfulRun(db, run);
    }
  }

  lemma FreshForTheRest(db: DB, runs: seq<Run>)
    requires Consistent(db) && runs != [] && FreshTopics(db, runs)
    ensures FreshTopics(Exec(db, runs[0]), runs[1..])
  {
    hide Exec, Consistent;
    OnlyOwnTopic(db, runs[0]);
    var after, rest := Exec(db, runs[0]), runs[1..];
    forall i | 0 <= i < |rest| && LinksNewTopic(rest[i])
      ensures FreshTopic(after, rest[i])
    {
      assert rest[i] == runs[i + 1] && FreshTopic(db, runs[i + 1]);
    }
  }

  lemma {:induction false} HistoryKeepsConsistent(db: DB, runs: seq<Run>)
    requires Consistent(db) && FreshTopics(db, runs)
    ensures Consistent(History(db, runs))
    decreases |runs|
  {
    if runs != [] {
      RunKeepsConsistent(db, runs[0]);
      assert LinksNewTopic(runs[0]) ==> FreshTopic(db, runs[0]);
      FreshForTheRest(db, runs);
      HistoryKeepsConsistent(Exec(db, runs[0]), runs[1..]);
    }
  }

  // Whatever topic a run brings, new or linked before, no topic is running when it is over.
  lemma RunKeepsQuiet(db: DB, run: Run)
    requires Quiet(db)
    ensures Quiet(Exec(db, run))
  {
    if Refused(db, run) {
      assert Plan(db, run) == [];
      ApplyNone(db);
    } else if !run.promptBuilt {
      ExecByParts(db, run);
    } else if run.agent.AgentFailed? {
      FailedRun(db, run);
    } else {
      SuccessfulRun(db, run);
    }
  }

  lemma {:induction false} HistoryKeepsQuiet(db: DB, runs: seq<Run>)
    requires Quiet(db)
    ensures Quiet(History(db, runs))
    decreases |runs|
  {
    if runs != [] {
      RunKeepsQuiet(db, runs[0]);
      HistoryKeepsQuiet(Exec(db, runs[0]), runs[1..]);
    }
  }

  // Exactly once: a history in which activities ran again, any number of times and cut short
  // anywhere, leaves the very rows of the history in which each ran once.
  lemma {:induction false} ExactlyOnce(db: DB, runs: seq<Run>)
    requires Quiet(db)
    ensures History(db, runs) == History(db, OnceEach(runs))
    decreases |runs|
  {
    if runs != [] {
      ExactlyOnceRun(db, runs[0]);
      RunKeepsQuiet(db, runs[0]);
      ExactlyOnce(Exec(db, runs[0]), runs[1..]);
      assert OnceEach(runs)[1..] == OnceEach(runs[1..]);
    }
  }

  // ----- every moment of a run -----

  // No topic but this one is running.
  predicate Only(db: DB, key: Key) {
    forall k | k in db.links && db.links[k].status.TopicRunning? :: k == key
  }

  predicate AtMostOneRunning(db: DB) {
    forall j, k | j in db.links && k in db.links && db.links[j].status.TopicRunning?
        && db.links[k].status.TopicRunning? ::
      j == k
  }

  // A statement about this task that starts no topic but this one.
  predicate Starts(w: Write, key: Key) {
    w.id == key.task &&
    (w.AddTopic? ==> Key(w.id, w.topic) == key) && (w.MarkTopic? ==> !w.mark.TopicRunning?)
  }

  lemma StartsKeepsOnly(db: DB, w: Write, key: Key)
    requires Only(db, key) && Starts(w, key)
    ensures Only(Apply(db, w), key)
  {
  }

  lemma {:induction false} AllStartOnly(db: DB, ws: seq<Write>, key: Key)
    requires Only(db, key) && forall w | w in ws :: Starts(w, key)
    ensures Only(ApplyAll(db, ws), key)
    decreases |ws|
  {
    if ws != [] {
      StartsKeepsOnly(db, ws[0], key);
      AllStartOnly(Apply(db, ws[0]), ws[1..], key);
    }
  }

  predicate StartsOnly(act: Activity, topic: TopicId) {
    act.LinkTopic? ==> act.topic == topic
  }

  lemma {:induction false} LostStarts(id: TaskId, act: Activity, lost: seq<Try>, topic: TopicId)
    requires StartsOnly(act, topic)
    ensures forall w | w in Lost(id, act, lost) :: Starts(w, Key(id, topic))
  {
    if lost != [] {
      LostStarts(id, act, lost[1..], topic);
      var first := Upto(Statements(id, act, lost[0].now), lost[0].cut);
      forall w | w in first
        ensures Starts(w, Key(id, topic))
      {
        assert w in Statements(id, act, lost[0].now);
      }
    }
  }

  lemma PerformedStarts(id: TaskId, act: Activity, a: Attempts, topic: TopicId)
    requires StartsOnly(act, topic)
    ensures forall w | w in Performed(id, act, a) :: Starts(w, Key(id, topic))
  {
    LostStarts(id, act, a.lost, topic);
  }

  lemma {:induction false} CompensationsStart(cs: seq<Compensation>, row: TaskRow, run: Run, error: string, key: Key)
    requires key.task == run.id
    ensures forall w | w in CompensationPlan(cs, row, run, error) :: Starts(w, key)
  {
    if cs != [] {
      CompensationsStart(cs[..|cs|-1], row, run, error, key);
      TimesPatch(CompensationWrite(cs[|cs|-1], row, run, error), cs[|cs|-1], row, run, error);
    }
  }

  lemma TimesPatch(ws: seq<Write>, c: Compensation, row: TaskRow, run: Run, error: string)
    requires ws == CompensationWrite(c, row, run, error)
    ensures forall w | w in ws :: w.Patch? && w.id == run.id
  {
    TimesAll(Patch(run.id, row.status, if c.RollbackAssignee? then [Assignee(c.previous)] else []),
      run.rollbackAssignee);
    TimesAll(Patch(run.id, Paused, [Error(TruncateForLog(error, 500))]), run.rollbackPaused);
  }

  lemma {:induction false} TimesAll(w: Write, n: nat)
    ensures forall v | v in Times(w, n) :: v == w
  {
    if n > 0 {
      TimesAll(w, n - 1);
    }
  }

  function TopicOf(run: Run): TopicId {
    if run.agent.AgentDone? then run.agent.topic else ""
  }

  predicate AllStart(ws: seq<Write>, key: Key) {
    forall w | w in ws :: Starts(w, key)
  }

  lemma StepStarts(run: Run, act: Activity, s: Step)
    requires StartsOnly(act, TopicOf(run))
    ensures AllStart(Performed(run.id, act, run.Tries(s)), Key(run.id, TopicOf(run)))
  {
    PerformedStarts(run.id, act, run.Tries(s), TopicOf(run));
  }

  lemma SuccessStarts(row: TaskRow, run: Run)
    requires run.agent.AgentDone?
    ensures AllStart(SuccessPlan(row, run), Key(run.id, TopicOf(run)))
  {
    hide Performed;
    StepStarts(run, UpdateTaskStatus(Running, [TotalTopics(row.total + 1), CurrentTopic(run.agent.topic)]), CountStep);
    StepStarts(run, LinkTopic(run.agent.topic, run.agent.operation, row.total + 1), LinkStep);
    StepStarts(run, UpdateHeartbeat, BeatStep);
    StepStarts(run, CompleteTopic(run.agent.topic, ReasonDone), CompleteStep);
  }

  lemma FailureStarts(row: TaskRow, run: Run)
    requires run.agent.AgentFailed?
    ensures AllStart(FailurePlan(row, run), Key(run.id, TopicOf(run)))
  {
    hide Performed;
    CompensationsStart(Registered(row), row, run, run.agent.error, Key(run.id, TopicOf(run)));
    StepStarts(run, UpdateTaskStatus(Paused, [Error(TruncateForLog(run.agent.error, 500))]), FinalStep);
  }

  lemma PlanStarts(db: DB, run: Run)
    ensures AllStart(Plan(db, run), Key(run.id, TopicOf(run)))
  {
    if !Refused(db, run) {
      hide Performed, SuccessPlan, FailurePlan;
      var row := db.tasks[run.id];
      StepStarts(run, TimeoutTopics(row.info.timeout), TimeoutStep);
      StepStarts(run, UpdateTaskStatus(Running, [StartedAt(run.startedAt), Error("")]), ClaimStep);
      StepStarts(run, UpdateTaskStatus(Running, [Error("")]), ClaimStep);
      StepStarts(run, SaveConfig(ModelledConfig(row, run)), BackfillStep);
      if run.agent.AgentDone? {
        SuccessStarts(row, run);
      } else {
        FailureStarts(row, run);
      }
    }
  }

  // In the middle of any run, after any of its statements, lost attempts included, at most one
  // topic in the whole table is running.
  lemma OneTopicAtATime(db: DB, runs: seq<Run>, i: nat, k: nat)
    requires Quiet(db) && i < |runs|
    requires k <= |Plan(History(db, runs[..i]), runs[i])|
    ensures var before := History(db, runs[..i]);
      AtMostOneRunning(ApplyAll(before, Plan(before, runs[i])[..k]))
  {
    HistoryKeepsQuiet(db, runs[..i]);
    var before := History(db, runs[..i]);
    var plan, key := Plan(before, runs[i]), Key(runs[i].id, TopicOf(runs[i]));
    PlanStarts(before, runs[i]);
    assert AllStart(plan, key);
    AllStartOnly(before, plan[..k], key);
  }

  lemma {:induction false} Untouched(db: DB, ws: seq<Write>, key: Key, other: TaskId)
    requires AllStart(ws, key) && other != key.task
    ensures ApplyAll(db, ws).tasks.Keys == db.tasks.Keys
    ensures other in db.tasks ==> ApplyAll(db, ws).tasks[other] == db.tasks[other]
    ensures forall k: Key | k.task == other :: k in ApplyAll(db, ws).links <==> k in db.links
    ensures forall k: Key | k.task == other && k in db.links :: ApplyAll(db, ws).links[k] == db.links[k]
    decreases |ws|
  {
    if ws != [] {
      assert Starts(ws[0], key);
      Untouched(Apply(db, ws[0]), ws[1..], key, other);
    }
  }

  // The rows of another task are the same after any number of statements of a run.
  lemma OthersUntouched(db: DB, run: Run, k: nat, other: TaskId)
    requires k <= |Plan(db, run)| && other != run.id && other in db.tasks
    ensures var now := ApplyAll(db, Plan(db, run)[..k]);
      other in now.tasks && now.tasks[other] == db.tasks[other] &&
      (forall t :: Key(other, t) in now.links <==> Key(other, t) in db.links) &&
      (forall t | Key(other, t) in db.links :: now.links[Key(other, t)] == db.links[Key(other, t)])
  {
    PlanStarts(db, run);
    Untouched(db, Plan(db, run)[..k], Key(run.id, TopicOf(run)), other);
  }
}
