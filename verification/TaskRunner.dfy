/**
 OnTopicComplete and TaskRunWorkflow as the methods that drive the store, statement by
 statement. What they leave in the store is the plan of TaskWorkflow, so every result about
 plans and histories is a result about them.
 */
module TaskRunner {
  import opened Prelude
  import opened TaskRows
  import opened TaskWorkflow
  import opened TaskTheorems
  import opened TaskOutcomes
  import opened TaskPostgres

  lemma CompletionStatements(db: DB, id: TaskId, topic: TopicId, reason: Reason, now: Time)
    ensures var beaten := Apply(db, Beat(id, now));
      var marked := if topic == "" then beaten else Apply(beaten, MarkTopic(id, topic, TopicOutcome(reason)));
      ApplyAll(db, Statements(id, CompleteTopic(topic, reason), now)) == Apply(marked, Settle(id, reason, now))
  {
    hide ApplyAll, Apply;
    if topic == "" {
      ApplyTwo(db, Beat(id, now), Settle(id, reason, now));
    } else {
      ApplyThree(db, Beat(id, now), MarkTopic(id, topic, TopicOutcome(reason)), Settle(id, reason, now));
    }
  }

  // A heartbeat changes nothing that ResolveTask reads, a mark on a link nothing of the task.
  lemma ReadsTheSame(db: DB, id: TaskId, topic: TopicId, mark: TopicStatus, now: Time)
    ensures id in Apply(db, Beat(id, now)).tasks <==> id in db.tasks
    ensures Apply(db, MarkTopic(id, topic, mark)).tasks == db.tasks
    ensures id in db.tasks ==> Resolve(Apply(db, Beat(id, now)).tasks[id]) == Resolve(db.tasks[id])
    ensures id !in db.tasks ==> Apply(db, Beat(id, now)) == db
  {
    assert id in db.tasks ==> db.tasks[id := db.tasks[id]] == db.tasks;
  }

  // OnTopicComplete on Postgres. Its review stub accepts nothing and schedule_started_at reads
  // as NULL, so the transition is never to Completed and the cascade of step 5 is not reached.
  method OnTopicComplete(store: PostgresStore, id: TaskId, topic: TopicId, reason: Reason, now: Time)
    returns (result: Option<(Status, bool)>)
    modifies store
    ensures result.Some? <==> id in old(store.tasks)
    ensures store.View() == if result.None? then old(store.View())
                            else ApplyAll(old(store.View()), Statements(id, CompleteTopic(topic, reason), now))
    ensures result.Some? ==> id in store.tasks && store.tasks[id].status == result.value.0
    ensures result.Some? ==> result.value == Lifecycle(Resolve(old(store.tasks)[id]), reason)
    ensures result.Some? ==> !result.value.0.Completed? || old(store.tasks)[id].status.Completed?
  {
    hide ApplyAll, Apply, Lifecycle, TopicOutcome, Statements;
    ghost var db, mark := store.View(), TopicOutcome(reason);
    CompletionStatements(db, id, topic, reason, now);
    ReadsTheSame(db, id, topic, mark, now);
    ReadsTheSame(Apply(db, Beat(id, now)), id, topic, mark, now);
    store.UpdateHeartbeat(id, now);
    var latest := store.ResolveTask(id);
    if latest.None? {
      return None;
    }
    if topic != "" {
      store.UpdateTaskTopicStatus(id, topic, TopicOutcome(reason));
    }
    var transition := Transition(store, id, latest.value, reason, now);
    result := Some(transition);
  }

  // Steps 3 to 5 of OnTopicComplete, from the task as it was reloaded.
  method Transition(store: PostgresStore, id: TaskId, latest: TaskItem, reason: Reason, now: Time)
    returns (result: (Status, bool))
    requires id in store.tasks && latest == Resolve(store.tasks[id])
    modifies store
    ensures store.View() == Apply(old(store.View()), Settle(id, reason, now))
    ensures id in store.tasks && store.tasks[id].status == result.0 && result == Lifecycle(latest, reason)
    ensures !result.0.Completed? || old(store.tasks)[id].status.Completed?
  {
    var (newStatus, terminated) := Lifecycle(latest, reason);
    result := (newStatus, terminated);
    SettleRowIs(store.tasks[id], reason, now);
    if newStatus == latest.status {
      assert store.tasks[id := store.tasks[id]] == store.tasks;
      return;
    }
    var fields := [];
    if newStatus.Running? {
      fields := fields + [StartedAt(now)];
    }
    if IsTerminal(newStatus) {
      fields := fields + [CompletedAt(now)];
    }
    var ok := store.UpdateStatus(id, newStatus, fields);
  }

  // One statement on its own: what is left of an attempt that was lost.
  method RunStatement(store: PostgresStore, w: Write)
    requires !w.Settle?
    modifies store
    ensures store.View() == Apply(old(store.View()), w)
  {
    match w
    case Patch(id, status, fields) => var ok := store.UpdateStatus(id, status, fields);
    case AddTopic(id, topic, operation, ordinal) => var ok := store.AddTaskTopic(id, topic, operation, ordinal);
    case MarkTopic(id, topic, mark) => store.UpdateTaskTopicStatus(id, topic, mark);
    case Expire(id, before) => var n := store.TimeoutRunningTopics(id, 0, before);
    case Beat(id, now) => store.UpdateHeartbeat(id, now);
    case Configure(id, c) => store.UpdateTaskConfig(id, c);
  }

  // One whole attempt of an activity.
  method Attempt(store: PostgresStore, id: TaskId, act: Activity, now: Time)
    requires id in store.tasks
    modifies store
    ensures store.View() == ApplyAll(old(store.View()), Statements(id, act, now))
    ensures id in store.tasks
  {
    if act.CompleteTopic? {
      var result := OnTopicComplete(store, id, act.topic, act.reason, now);
    } else {
      ApplyOne(store.View(), Statements(id, act, now)[0]);
      RunStatement(store, Statements(id, act, now)[0]);
    }
  }

  // An attempt that is lost after `cut` statements.
  method LostAttempt(store: PostgresStore, id: TaskId, act: Activity, try: Try)
    requires id in store.tasks
    modifies store
    ensures store.View() == ApplyAll(old(store.View()), Upto(Statements(id, act, try.now), try.cut))
    ensures id in store.tasks
  {
    var all := Statements(id, act, try.now);
    if try.cut >= |all| {
      Attempt(store, id, act, try.now);
      return;
    }
    ghost var db := store.View();
    var i := 0;
    while i < try.cut
      invariant 0 <= i <= try.cut && id in store.tasks
      invariant store.View() == ApplyAll(db, all[..i])
    {
      RunStatement(store, all[i]);
      ApplyConcat(db, all[..i], [all[i]]);
      ApplyOne(ApplyAll(db, all[..i]), all[i]);
      assert all[..i + 1] == all[..i] + [all[i]];
      i := i + 1;
    }
  }

  // ExecuteActivity(...).Get(...): the lost attempts, then the one whose result is returned.
  method ExecuteActivity(store: PostgresStore, id: TaskId, act: Activity, a: Attempts)
    requires id in store.tasks
    modifies store
    ensures store.View() == ApplyAll(old(store.View()), Performed(id, act, a))
    ensures id in store.tasks
  {
    hide Statements, Apply, Upto;
    ghost var db := store.View();
    var i := 0;
    while i < |a.lost|
      invariant 0 <= i <= |a.lost| && id in store.tasks
      invariant ApplyAll(store.View(), Lost(id, act, a.lost[i..])) == ApplyAll(db, Lost(id, act, a.lost))
    {
      ghost var part := Upto(Statements(id, act, a.lost[i].now), a.lost[i].cut);
      ApplyConcat(store.View(), part, Lost(id, act, a.lost[i + 1..]));
      assert Lost(id, act, a.lost[i..]) == part + Lost(id, act, a.lost[i + 1..]) by {
        assert a.lost[i..][0] == a.lost[i] && a.lost[i..][1..] == a.lost[i + 1..];
      }
      LostAttempt(store, id, act, a.lost[i]);
      i := i + 1;
    }
    ApplyNone(store.View());
    ApplyConcat(db, Lost(id, act, a.lost), Statements(id, act, a.last));
    Attempt(store, id, act, a.last);
  }

  // A compensation, which may take effect any number of times.
  method Compensate(store: PostgresStore, c: Compensation, row: TaskRow, run: Run, error: string)
    requires run.id in store.tasks
    modifies store
    ensures store.View() == ApplyAll(old(store.View()), CompensationWrite(c, row, run, error))
    ensures run.id in store.tasks
  {
    var n := if c.RollbackAssignee? then run.rollbackAssignee else run.rollbackPaused;
    var w := match c
      case RollbackAssignee(previous) => Patch(run.id, row.status, [Assignee(previous)])
      case RollbackToPaused => Patch(run.id, Paused, [Error(TruncateForLog(error, 500))]);
    ghost var db := store.View();
    var i := 0;
    while i < n
      invariant 0 <= i <= n && run.id in store.tasks
      invariant ApplyAll(store.View(), Times(w, n - i)) == ApplyAll(db, Times(w, n))
    {
      assert Times(w, n - i)[1..] == Times(w, n - i - 1);
      RunStatement(store, w);
      i := i + 1;
    }
    ApplyNone(store.View());
  }

  // runCompensations: from the last registered to the first.
  method RunCompensations(store: PostgresStore, comps: seq<Compensation>, row: TaskRow, run: Run, error: string)
    requires run.id in store.tasks
    modifies store
    ensures store.View() == ApplyAll(old(store.View()), CompensationPlan(comps, row, run, error))
    ensures run.id in store.tasks
  {
    ghost var db := store.View();
    var i := |comps| - 1;
    assert comps[..i + 1] == comps;
    while i >= 0
      invariant -1 <= i < |comps| && run.id in store.tasks
      invariant ApplyAll(store.View(), CompensationPlan(comps[..i + 1], row, run, error))
             == ApplyAll(db, CompensationPlan(comps, row, run, error))
    {
      ghost var tail := CompensationPlan(comps[..i], row, run, error);
      assert comps[..i + 1][..i] == comps[..i];
      ApplyConcat(store.View(), CompensationWrite(comps[i], row, run, error), tail);
      Compensate(store, comps[i], row, run, error);
      i := i - 1;
    }
    ApplyNone(store.View());
  }

  datatype RunResult = NotFound | NoInbox | TopicConflict | PromptFailed | AgentError(error: string)
                     | Finished(topic: TopicId, operation: string)

  // Steps 3 and 4: the model that the agent gets.
  method Prepare(store: PostgresStore, row: TaskRow, run: Run, assignee: string)
    requires run.id in store.tasks && assignee == AssigneeOf(row, run)
    modifies store
    ensures store.View() == ApplyAll(ApplyAll(old(store.View()), ClaimPlan(row, run)), BackfillPlan(row, run))
    ensures run.id in store.tasks
  {
    ApplyNone(store.View());
    if !row.status.Running? {
      ExecuteActivity(store, run.id, UpdateTaskStatus(Running, [StartedAt(run.startedAt), Error("")]),
                      run.Tries(ClaimStep));
    } else if row.error != "" {
      ExecuteActivity(store, run.id, UpdateTaskStatus(Running, [Error("")]), run.Tries(ClaimStep));
    }
    Backfill(store, row, run, assignee);
  }

  // BackfillModelConfig: the agent's model joins the raw entries, if the config that arrives has any.
  method Backfill(store: PostgresStore, row: TaskRow, run: Run, assignee: string)
    requires run.id in store.tasks && assignee == AssigneeOf(row, run)
    modifies store
    ensures store.View() == ApplyAll(old(store.View()), BackfillPlan(row, run))
    ensures run.id in store.tasks
  {
    ApplyNone(store.View());
    if row.config.model != "" && row.config.provider != "" {
      return;
    }
    if assignee == "" || run.agentModel.None? {
      return;
    }
    ExecuteActivity(store, run.id, SaveConfig(Backfilled(Sent(row.config), run.agentModel.value)),
                    run.Tries(BackfillStep));
  }

  // Steps 5b to 6.
  method Finish(store: PostgresStore, row: TaskRow, run: Run, topic: TopicId, operation: string)
    requires run.id in store.tasks && run.agent == AgentDone(topic, operation)
    modifies store
    ensures store.View() == ApplyAll(old(store.View()), SuccessPlan(row, run))
    ensures run.id in store.tasks
  {
    hide Performed, ApplyAll, Apply;
    ghost var db := store.View();
    ApplyNone(db);
    if topic != "" && run.continueTopic == "" {
      var count := UpdateTaskStatus(Running, [TotalTopics(row.total + 1), CurrentTopic(topic)]);
      var link := LinkTopic(topic, operation, row.total + 1);
      ApplyConcat(db, Performed(run.id, count, run.Tries(CountStep)), Performed(run.id, link, run.Tries(LinkStep)));
      ExecuteActivity(store, run.id, count, run.Tries(CountStep));
      ExecuteActivity(store, run.id, link, run.Tries(LinkStep));
    }
    assert store.View() == ApplyAll(db, LinkPlan(row, run));
    ApplyConcat3(db, LinkPlan(row, run), Performed(run.id, UpdateHeartbeat, run.Tries(BeatStep)),
                 Performed(run.id, CompleteTopic(topic, ReasonDone), run.Tries(CompleteStep)));
    ExecuteActivity(store, run.id, UpdateHeartbeat, run.Tries(BeatStep));
    ExecuteActivity(store, run.id, CompleteTopic(topic, ReasonDone), run.Tries(CompleteStep));
  }

  // Step 5 when the agent has failed for good.
  method GiveUp(store: PostgresStore, row: TaskRow, run: Run, compensations: seq<Compensation>, error: string)
    requires run.id in store.tasks && run.agent == AgentFailed(error) && compensations == Registered(row)
    modifies store
    ensures store.View() == ApplyAll(old(store.View()), FailurePlan(row, run))
    ensures run.id in store.tasks
  {
    var last := UpdateTaskStatus(Paused, [Error(TruncateForLog(error, 500))]);
    ApplyConcat(store.View(), CompensationPlan(compensations, row, run, error),
                Performed(run.id, last, run.Tries(FinalStep)));
    RunCompensations(store, compensations, row, run, error);
    ExecuteActivity(store, run.id, last, run.Tries(FinalStep));
  }

  // Step 1: what stops a run before its first statement.
  function Refusal(db: DB, run: Run): Option<RunResult> {
    if run.id !in db.tasks then Some(NotFound)
    else if OrEmpty(db.tasks[run.id].assignee) == "" && run.inbox.None? then Some(NoInbox)
    else if Conflict(db, run) then Some(TopicConflict)
    else None
  }

  function Answer(db: DB, run: Run): RunResult {
    if Refusal(db, run).Some? then Refusal(db, run).value
    else if !run.promptBuilt then PromptFailed
    else match run.agent
      case AgentFailed(error) => AgentError(error)
      case AgentDone(topic, operation) => Finished(topic, operation)
  }

  // Nothing stands in the way of a run: there is the task, somebody to do it, and no running topic, or
  // none that the run continues.
  ghost predicate Admitted(db: DB, run: Run) {
    && run.id in db.tasks && (db.tasks[run.id].assignee in {None, Some("")} ==> run.inbox.Some?)
    && forall k | k in db.links && k.task == run.id && db.links[k].status.TopicRunning? ::
         run.continueTopic != "" && k.topic != run.continueTopic
  }

  lemma AdmittedUnlessRefused(db: DB, run: Run)
    ensures Admitted(db, run) <==> !Refused(db, run)
  {
    if run.id in db.tasks && Conflict(db, run) {
      ConflictingTopic(db, run);
    } else if run.id in db.tasks {
      forall k | k in db.links && k.task == run.id && db.links[k].status.TopicRunning?
        ensures k.topic in RunningTopics(db, run.id)
      {
      }
    }
  }

  // What the answer of a run tells about its task.
  lemma AnswerTells(db: DB, run: Run)
    ensures var after, id := Exec(db, run), run.id;
      match Answer(db, run)
      case NotFound => id !in db.tasks && after == db
      case NoInbox => id in db.tasks && db.tasks[id].assignee in {None, Some("")} && run.inbox.None? && after == db
      case TopicConflict =>
        id in db.tasks && after == db &&
        (exists k :: k in db.links && k.task == id && db.links[k].status.TopicRunning? &&
                     (run.continueTopic == "" || k.topic == run.continueTopic))
      case PromptFailed => Admitted(db, run) && !run.promptBuilt && (Quiet(db) ==> after == db)
      case AgentError(error) =>
        Admitted(db, run) && run.agent == AgentFailed(error) && (Quiet(db) ==>
          id in after.tasks && after.tasks[id].status == Paused && after.tasks[id].error == TruncateForLog(error, 500))
      case Finished(topic, operation) =>
        Admitted(db, run) && run.agent == AgentDone(topic, operation) && (Quiet(db) ==>
          id in after.tasks && after.tasks[id].status in {Paused, Scheduled} && after.tasks[id].error == "" &&
          (topic != "" && (run.continueTopic == "" || Key(id, topic) in db.links) ==>
            Key(id, topic) in after.links && after.links[Key(id, topic)].status.TopicCompleted?))
  {
    hide ApplyAll, TruncateForLog, Performed, Admitted;
    ApplyNone(db);
    AdmittedUnlessRefused(db, run);
    if !Refused(db, run) && Quiet(db) {
      if !run.promptBuilt {
        ExecByParts(db, run);
      } else if run.agent.AgentDone? {
        SuccessfulRun(db, run);
      } else {
        FailedRun(db, run);
      }
    } else if run.id in db.tasks && Conflict(db, run) {
      ConflictingTopic(db, run);
    }
  }

  lemma ConflictingTopic(db: DB, run: Run)
    requires Conflict(db, run)
    ensures exists k :: k in db.links && k.task == run.id && db.links[k].status.TopicRunning? &&
                        (run.continueTopic == "" || k.topic == run.continueTopic)
  {
    var x :| x in RunningTopics(db, run.id) && (run.continueTopic == "" || x == run.continueTopic);
  }

  // The list of running topics decides step 1c as the rows do.
  lemma ListedConflict(db: DB, run: Run, running: seq<TopicRow>)
    requires forall t :: t in running <==> exists k :: k in db.links && k.task == run.id &&
                                             db.links[k].status.TopicRunning? && t == RowOf(k, db.links[k])
    ensures Conflict(db, run) <==>
            exists t :: t in running && (run.continueTopic == "" || t.topic == run.continueTopic)
  {
    forall k | k in db.links && k.task == run.id && db.links[k].status.TopicRunning?
      ensures RowOf(k, db.links[k]) in running && k.topic in RunningTopics(db, run.id)
    {
    }
    assert forall x | x in RunningTopics(db, run.id) ::
        exists k :: k in db.links && k.task == run.id && db.links[k].status.TopicRunning? && k.topic == x;
  }

  method TaskRunWorkflow(store: PostgresStore, run: Run) returns (result: RunResult)
    modifies store
    ensures store.View() == Exec(old(store.View()), run)
    ensures result == Answer(old(store.View()), run)
  {
    hide ApplyAll, Apply, Performed, ClaimPlan, BackfillPlan, SuccessPlan, FailurePlan;
    ghost var db := store.View();
    ApplyNone(db);
    if run.id !in store.tasks {
      return NotFound;
    }
    var row := store.tasks[run.id];
    var compensations: seq<Compensation> := [];
    var assignee := OrEmpty(row.assignee);
    if assignee == "" {
      if run.inbox.None? {
        return NoInbox;
      }
      compensations := compensations + [RollbackAssignee(assignee)];
      assignee := run.inbox.value;
    }
    var running := store.ListRunningTopics(run.id);
    var conflict := Conflicting(running, run.continueTopic);
    ListedConflict(db, run, running);
    if conflict {
      return TopicConflict;
    }
    assert !Refused(db, run);
    if row.heartbeat.Some? && row.info.timeout > 0 {
      ExecuteActivity(store, run.id, TimeoutTopics(row.info.timeout), run.Tries(TimeoutStep));
    }
    assert store.View() == ApplyAll(db, TimeoutPlan(row, run));
    if !run.promptBuilt {
      assert Plan(db, run) == TimeoutPlan(row, run) + [];
      ApplyConcat(db, TimeoutPlan(row, run), []);
      ApplyNone(store.View());
      return PromptFailed;
    }
    WholePlan(db, run);
    Prepare(store, row, run, assignee);
    if !row.status.Running? {
      compensations := compensations + [RollbackToPaused];
    }
    if run.agent.AgentFailed? {
      GiveUp(store, row, run, compensations, run.agent.error);
      return AgentError(run.agent.error);
    }
    Finish(store, row, run, run.agent.topic, run.agent.operation);
    return Finished(run.agent.topic, run.agent.operation);
  }

  lemma WholePlan(db: DB, run: Run)
    requires !Refused(db, run) && run.promptBuilt
    ensures var row := db.tasks[run.id];
      var ready := ApplyAll(ApplyAll(ApplyAll(db, TimeoutPlan(row, run)), ClaimPlan(row, run)), BackfillPlan(row, run));
      Exec(db, run) == ApplyAll(ready, if run.agent.AgentDone? then SuccessPlan(row, run) else FailurePlan(row, run))
  {
    var row := db.tasks[run.id];
    var tail := ClaimPlan(row, run) + BackfillPlan(row, run) + Rest(row, run);
    assert Plan(db, run) == TimeoutPlan(row, run) + tail;
    ApplyConcat(db, TimeoutPlan(row, run), tail);
    ApplyConcat3(ApplyAll(db, TimeoutPlan(row, run)), ClaimPlan(row, run), BackfillPlan(row, run), Rest(row, run));
  }

  // One run after the other.
  method RunHistory(store: PostgresStore, runs: seq<Run>)
    modifies store
    ensures store.View() == History(old(store.View()), runs)
  {
    ghost var db := store.View();
    var i := 0;
    while i < |runs|
      invariant 0 <= i <= |runs|
      invariant History(store.View(), runs[i..]) == History(db, runs)
    {
      assert runs[i..][0] == runs[i] && runs[i..][1..] == runs[i + 1..];
      var result := TaskRunWorkflow(store, runs[i]);
      i := i + 1;
    }
  }
}
