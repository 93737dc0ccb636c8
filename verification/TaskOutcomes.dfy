/**
 Where a run of the task workflow leaves the rows of its task, for every outcome of the agent,
 and what whole histories of runs keep: one running topic at most, none between runs, and
 ordinals that count the topics.
 */
module TaskOutcomes {
  import opened Prelude
  import opened TaskRows
  import opened TaskWorkflow
  import opened TaskTheorems

  // ----- the rows after each part of a run -----

  function RunningRow(r: TaskRow, startedAt: Option<Time>): TaskRow {
    TaskRow(r.info, Running, "", r.assignee, r.currentTopic, r.total, startedAt, r.completedAt, r.heartbeat, r.config)
  }

  lemma LatestOne<T>(v: T, f: Field, pick: Field -> Option<T>)
    ensures Latest(v, [f], pick) == if pick(f).Some? then pick(f).value else v
  {
    assert [f][..0] == [];
  }

  lemma PatchOne(r: TaskRow, status: Status, f: Field)
    requires Allowed(f)
    ensures Patched(r, status, [f]) == TaskRow(r.info, status,
      if f.Error? then f.message else r.error, if f.Assignee? then Some(f.agent) else r.assignee,
      if f.CurrentTopic? then Some(f.topic) else r.currentTopic, if f.TotalTopics? then f.n else r.total,
      if f.StartedAt? then Some(f.at) else r.startedAt, if f.CompletedAt? then Some(f.at) else r.completedAt,
      r.heartbeat, r.config)
  {
    LatestOne(r.error, f, TheError);
    LatestOne(r.assignee, f, TheAssignee);
    LatestOne(r.currentTopic, f, TheCurrentTopic);
    LatestOne(r.total, f, TheTotal);
    LatestOne(r.startedAt, f, TheStart);
    LatestOne(r.completedAt, f, TheCompletion);
  }

  lemma PatchTwo(r: TaskRow, status: Status, f: Field, g: Field)
    requires Allowed(f) && Allowed(g) && Column(f) != Column(g)
    ensures Patched(r, status, [f, g]) == Patched(Patched(r, status, [f]), status, [g])
  {
    assert [f, g][..1] == [f];
    PatchOne(r, status, f);
    PatchOne(Patched(r, status, [f]), status, g);
  }

  lemma ClaimRow(db: DB, id: TaskId, row: TaskRow, run: Run)
    requires id in db.tasks && db.tasks[id] == row && run.id == id
    ensures var start := if row.status.Running? then row.startedAt else Some(run.startedAt);
      ApplyAll(db, ClaimPlan(row, run)) == DB(db.tasks[id := RunningRow(row, start)], db.links, db.topics)
  {
    if !row.status.Running? {
      var act := UpdateTaskStatus(Running, [StartedAt(run.startedAt), Error("")]);
      StepOnce(db, run, act, ClaimStep);
      ApplyOne(db, Patch(id, Running, act.fields));
      PatchTwo(row, Running, StartedAt(run.startedAt), Error(""));
      PatchOne(row, Running, StartedAt(run.startedAt));
      PatchOne(Patched(row, Running, [StartedAt(run.startedAt)]), Running, Error(""));
    } else if row.error != "" {
      StepOnce(db, run, UpdateTaskStatus(Running, [Error("")]), ClaimStep);
      ApplyOne(db, Patch(id, Running, [Error("")]));
      PatchOne(row, Running, Error(""));
    } else {
      assert RunningRow(row, row.startedAt) == row;
      assert db.tasks[id := row] == db.tasks;
    }
  }

  // The model snapshot after step 4.
  function ModelledConfig(row: TaskRow, run: Run): Config {
    if NeedsModel(row, run) then Config(run.agentModel.value.model, run.agentModel.value.provider, 0, None, map[])
    else row.config
  }

  function StartOf(row: TaskRow, run: Run): Option<Time> {
    if row.status.Running? then row.startedAt else Some(run.startedAt)
  }

  // The row that the agent runs on.
  function ReadyRow(row: TaskRow, run: Run): TaskRow {
    TaskRow(row.info, Running, "", row.assignee, row.currentTopic, row.total, StartOf(row, run), row.completedAt,
            row.heartbeat, ModelledConfig(row, run))
  }

  lemma ReadyRows(db: DB, run: Run)
    requires run.id in db.tasks
    ensures var row := db.tasks[run.id];
      ApplyAll(ApplyAll(db, ClaimPlan(row, run)), BackfillPlan(row, run))
        == DB(db.tasks[run.id := ReadyRow(row, run)], db.links, db.topics)
  {
    hide ApplyAll, Performed, ClaimPlan;
    var row := db.tasks[run.id];
    ClaimRow(db, run.id, row, run);
    var claimed := ApplyAll(db, ClaimPlan(row, run));
    ApplyNone(claimed);
    if NeedsModel(row, run) {
      StepOnce(claimed, run, SaveConfig(ModelledConfig(row, run)), BackfillStep);
      ApplyOne(claimed, Configure(run.id, ModelledConfig(row, run)));
    }
  }

  // ----- one completion -----

  // What a completion makes of the task and of its topic. The store reads no failures and no schedule
  // start, so no task is ever completed, and none paused for having failed too often.
  lemma CompletionTells(db: DB, id: TaskId, topic: TopicId, reason: Reason, now: Time)
    requires id in db.tasks
    ensures var after, row := ApplyAll(db, Statements(id, CompleteTopic(topic, reason), now)), db.tasks[id];
      && after.tasks == db.tasks[id := TaskRow(row.info,
           match reason
           case ReasonDone => if row.info.mode == "heartbeat" || row.info.mode == "schedule" then Scheduled else Paused
           case ReasonInterrupted => Paused
           case _ => row.status,
           row.error, row.assignee, row.currentTopic, row.total, row.startedAt, row.completedAt, Some(now), row.config)]
      && after.topics == db.topics
      && (topic != "" && Key(id, topic) in db.links ==>
            var l := db.links[Key(id, topic)];
            after.links == db.links[Key(id, topic) := Link(l.operation, l.ordinal,
              match reason
              case ReasonDone => TopicCompleted
              case ReasonInterrupted => TopicCanceled
              case _ => TopicFailed,
              l.heartbeat)])
      && (topic == "" || Key(id, topic) !in db.links ==> after.links == db.links)
    ensures Lifecycle(Resolve(db.tasks[id]), reason).1 <==> reason == ReasonInterrupted
  {
    CompletionIs(db, id, topic, reason, now, 3);
    SettledRow(RowAfter(db.tasks[id], Beat("", now)), reason, now);
    hide ApplyAll, SettleRow, Patched;
  }

  // The timeout of a task's topics fails those that were running and have been silent for too long.
  lemma TimeoutTells(db: DB, id: TaskId, timeout: int, now: Time)
    ensures var after := ApplyAll(db, Statements(id, TimeoutTopics(timeout), now));
      && after.tasks == db.tasks && after.topics == db.topics && after.links.Keys == db.links.Keys
      && forall k | k in db.links ::
           var l := db.links[k];
           after.links[k] == if k.task == id && l.status.TopicRunning? && l.heartbeat.Some? &&
                                now - l.heartbeat.value > timeout
                             then Link(l.operation, l.ordinal, TopicFailed, l.heartbeat) else l
  {
    ApplyOne(db, Expire(id, now - timeout));
    assert id in db.tasks ==> db.tasks[id := db.tasks[id]] == db.tasks;
  }

  // When the attempts of an activity wrote something.
  function Effective(lost: seq<Try>, last: Time): set<Time> {
    if lost == [] then {last} else (if lost[0].cut > 0 then {lost[0].now} else {}) + Effective(lost[1..], last)
  }

  predicate SilentAt(l: Link, timeout: int, nows: set<Time>) {
    l.status.TopicRunning? && l.heartbeat.Some? && exists now :: now in nows && now - l.heartbeat.value > timeout
  }

  // Whatever attempts it took, the timeout fails the topics that one of them found silent.
  lemma {:induction false} AttemptsTimeOut(db: DB, id: TaskId, timeout: int, lost: seq<Try>, last: Time)
    ensures var after := ApplyAll(db, Lost(id, TimeoutTopics(timeout), lost) +
                                      Statements(id, TimeoutTopics(timeout), last));
      && after.tasks == db.tasks && after.topics == db.topics && after.links.Keys == db.links.Keys
      && forall k | k in db.links ::
           var l := db.links[k];
           after.links[k] == if k.task == id && SilentAt(l, timeout, Effective(lost, last))
                             then Link(l.operation, l.ordinal, TopicFailed, l.heartbeat) else l
    decreases |lost|
  {
    var act := TimeoutTopics(timeout);
    if lost == [] {
      assert Lost(id, act, lost) + Statements(id, act, last) == Statements(id, act, last);
      TimeoutTells(db, id, timeout, last);
    } else {
      var first := Upto(Statements(id, act, lost[0].now), lost[0].cut);
      var rest := Lost(id, act, lost[1..]) + Statements(id, act, last);
      assert Lost(id, act, lost) + Statements(id, act, last) == first + rest;
      ApplyConcat(db, first, rest);
      ApplyNone(db);
      TimeoutTells(db, id, timeout, lost[0].now);
      AttemptsTimeOut(ApplyAll(db, first), id, timeout, lost[1..], last);
      hide ApplyAll;
    }
  }

  // Step 1d of a run: if the task has a heartbeat and a timeout, its silent topics are failed. A run
  // that gets no prompt does nothing else.
  lemma SilentTopicsFail(db: DB, run: Run)
    requires !Refused(db, run) && !run.promptBuilt
    ensures var after, row, a := Exec(db, run), db.tasks[run.id], run.Tries(TimeoutStep);
      && after.tasks == db.tasks && after.topics == db.topics && after.links.Keys == db.links.Keys
      && forall k | k in db.links ::
           var l := db.links[k];
           after.links[k] == if k.task == run.id && row.heartbeat.Some? && row.info.timeout > 0 &&
                                SilentAt(l, row.info.timeout, Effective(a.lost, a.last))
                             then Link(l.operation, l.ordinal, TopicFailed, l.heartbeat) else l
  {
    var row, a := db.tasks[run.id], run.Tries(TimeoutStep);
    assert Plan(db, run) == TimeoutPlan(row, run);
    ApplyNone(db);
    AttemptsTimeOut(db, run.id, row.info.timeout, a.lost, a.last);
    hide ApplyAll, Lost;
  }

  // ----- the agent succeeded -----

  predicate Automated(row: TaskRow) {
    row.info.mode == "heartbeat" || row.info.mode == "schedule"
  }

  function SuccessRow(row: TaskRow, run: Run): TaskRow
    requires run.agent.AgentDone?
  {
    TaskRow(row.info, if Automated(row) then Scheduled else Paused, "", row.assignee,
            if LinksNewTopic(run) then Some(run.agent.topic) else row.currentTopic,
            row.total + (if LinksNewTopic(run) then 1 else 0),
            StartOf(row, run), row.completedAt, Some(run.Tries(CompleteStep).last), ModelledConfig(row, run))
  }

  function SuccessLinks(db: DB, run: Run): map<Key, Link>
    requires run.agent.AgentDone? && run.id in db.tasks
  {
    var key := Key(run.id, run.agent.topic);
    if run.agent.topic == "" then db.links
    else if key in db.links then db.links[key := Marked(db.links[key], TopicCompleted)]
    else if LinksNewTopic(run)
    then db.links[key := Link(run.agent.operation, db.tasks[run.id].total + 1, TopicCompleted, None)]
    else db.links
  }

  // A new topic gets a row with the task's owner and name, and with its assignee if that is an agent.
  function SuccessTopics(db: DB, run: Run): map<TopicId, Topic>
    requires run.agent.AgentDone? && run.id in db.tasks
  {
    var info, a := db.tasks[run.id].info, db.tasks[run.id].assignee;
    if !LinksNewTopic(run) || run.agent.topic in db.topics then db.topics
    else db.topics[run.agent.topic := Topic(info.owner,
      if a.Some? && |a.value| >= 4 && a.value[..4] == "agt_" then a else None, info.name)]
  }

  // The row and the links after step 5b.
  lemma LinkRows(db: DB, row: TaskRow, run: Run)
    requires run.agent.AgentDone? && run.id in db.tasks
    requires db.tasks[run.id] == ReadyRow(row, run)
    ensures var done := ApplyAll(db, LinkPlan(row, run));
      if LinksNewTopic(run) then
        var counted := Apply(db, Patch(run.id, Running, [TotalTopics(row.total + 1), CurrentTopic(run.agent.topic)]));
        done == Apply(counted, AddTopic(run.id, run.agent.topic, run.agent.operation, row.total + 1))
      else done == db
  {
    hide ApplyAll, Apply, Performed, ReadyRow;
    ApplyNone(db);
    if LinksNewTopic(run) {
      var count := UpdateTaskStatus(Running, [TotalTopics(row.total + 1), CurrentTopic(run.agent.topic)]);
      var link := LinkTopic(run.agent.topic, run.agent.operation, row.total + 1);
      ApplyConcat(db, Performed(run.id, count, run.Tries(CountStep)), Performed(run.id, link, run.Tries(LinkStep)));
      StepOnce(db, run, count, CountStep);
      ApplyOne(db, Patch(run.id, Running, count.fields));
      var counted := Apply(db, Patch(run.id, Running, count.fields));
      StepOnce(counted, run, link, LinkStep);
      ApplyOne(counted, AddTopic(run.id, run.agent.topic, run.agent.operation, row.total + 1));
    }
  }

  function LinkedRow(row: TaskRow, run: Run): TaskRow
    requires run.agent.AgentDone?
  {
    TaskRow(row.info, Running, "", row.assignee,
            if LinksNewTopic(run) then Some(run.agent.topic) else row.currentTopic,
            row.total + (if LinksNewTopic(run) then 1 else 0),
            StartOf(row, run), row.completedAt, row.heartbeat, ModelledConfig(row, run))
  }

  lemma LinkedRowIs(row: TaskRow, run: Run)
    requires LinksNewTopic(run)
    ensures Patched(ReadyRow(row, run), Running, [TotalTopics(row.total + 1), CurrentTopic(run.agent.topic)])
         == LinkedRow(row, run)
  {
    var f, g := TotalTopics(row.total + 1), CurrentTopic(run.agent.topic);
    PatchTwo(ReadyRow(row, run), Running, f, g);
    PatchOne(ReadyRow(row, run), Running, f);
    PatchOne(Patched(ReadyRow(row, run), Running, [f]), Running, g);
  }

  // The row after the heartbeat and the completion.
  lemma CompletedRowIs(row: TaskRow, run: Run)
    requires run.agent.AgentDone?
    ensures CompletionRow(RowAfter(LinkedRow(row, run), Beat(run.id, run.Tries(BeatStep).last)),
                          ReasonDone, run.Tries(CompleteStep).last, true, true)
         == SuccessRow(row, run)
  {
    var beat := RowAfter(LinkedRow(row, run), Beat(run.id, run.Tries(BeatStep).last));
    SettleRowIs(RowAfter(beat, Beat("", run.Tries(CompleteStep).last)), ReasonDone, run.Tries(CompleteStep).last);
  }

  lemma SuccessRows(db: DB, row: TaskRow, run: Run)
    requires run.agent.AgentDone? && run.id in db.tasks
    requires db.tasks[run.id] == ReadyRow(row, run)
    ensures ApplyAll(db, SuccessPlan(row, run)).tasks == db.tasks[run.id := SuccessRow(row, run)]
    ensures ApplyAll(db, SuccessPlan(row, run)).links == SuccessLinks(db, run)
  {
    hide ApplyAll, Performed, LinkPlan, Patched, CompletionRow, SuccessRow, StartOf, ModelledConfig, Lifecycle;
    var done := CompleteTopic(run.agent.topic, ReasonDone);
    var b, c := Performed(run.id, UpdateHeartbeat, run.Tries(BeatStep)),
        Performed(run.id, done, run.Tries(CompleteStep));
    ApplyConcat3(db, LinkPlan(row, run), b, c);
    LinkRows(db, row, run);
    var linked := ApplyAll(db, LinkPlan(row, run));
    StepOnce(linked, run, UpdateHeartbeat, BeatStep);
    ApplyOne(linked, Beat(run.id, run.Tries(BeatStep).last));
    var beaten := ApplyAll(linked, b);
    StepOnce(beaten, run, done, CompleteStep);
    CompletionIs(beaten, run.id, run.agent.topic, ReasonDone, run.Tries(CompleteStep).last, 3);
    if LinksNewTopic(run) {
      LinkedRowIs(row, run);
    }
    CompletedRowIs(row, run);
  }

  lemma SuccessTopicRows(db: DB, row: TaskRow, run: Run)
    requires run.agent.AgentDone? && run.id in db.tasks
    requires db.tasks[run.id] == ReadyRow(row, run)
    ensures ApplyAll(db, SuccessPlan(row, run)).topics == SuccessTopics(db, run)
  {
    hide ApplyAll, Performed, LinkPlan, Patched, CompletionRow, StartOf, ModelledConfig, Lifecycle, LinksAfter;
    var done := CompleteTopic(run.agent.topic, ReasonDone);
    var b, c := Performed(run.id, UpdateHeartbeat, run.Tries(BeatStep)),
        Performed(run.id, done, run.Tries(CompleteStep));
    ApplyConcat3(db, LinkPlan(row, run), b, c);
    LinkRows(db, row, run);
    var linked := ApplyAll(db, LinkPlan(row, run));
    StepOnce(linked, run, UpdateHeartbeat, BeatStep);
    ApplyOne(linked, Beat(run.id, run.Tries(BeatStep).last));
    var beaten := ApplyAll(linked, b);
    StepOnce(beaten, run, done, CompleteStep);
    CompletionIs(beaten, run.id, run.agent.topic, ReasonDone, run.Tries(CompleteStep).last, 3);
    if LinksNewTopic(run) {
      LinkedRowIs(row, run);
    }
  }

  // A run whose agent succeeds: the whole task row, every link and every topic row.
  lemma SuccessfulRun(db: DB, run: Run)
    requires Quiet(db) && !Refused(db, run) && run.promptBuilt && run.agent.AgentDone?
    ensures Exec(db, run).tasks == db.tasks[run.id := SuccessRow(db.tasks[run.id], run)]
    ensures Exec(db, run).links == SuccessLinks(db, run)
    ensures Exec(db, run).topics == SuccessTopics(db, run)
  {
    hide ApplyAll, Apply, Plan, Exec, ClaimPlan, BackfillPlan, SuccessPlan, SuccessRow;
    var row := db.tasks[run.id];
    ExecByParts(db, run);
    ReadyRows(db, run);
    var ready := DB(db.tasks[run.id := ReadyRow(row, run)], db.links, db.topics);
    SuccessRows(ready, row, run);
    SuccessTopicRows(ready, row, run);
  }

  // A topic is counted and linked exactly when the agent names one and the run continues none; the
  // agent's topic, if it is linked, is completed.
  lemma TopicCounted(db: DB, run: Run)
    requires Quiet(db) && !Refused(db, run) && run.promptBuilt && run.agent.AgentDone?
    ensures run.id in Exec(db, run).tasks
    ensures var before, topic := db.tasks[run.id], run.agent.topic;
      var counted := topic != "" && run.continueTopic == "";
      var after, links, key := Exec(db, run).tasks[run.id], Exec(db, run).links, Key(run.id, topic);
      && after.total == before.total + (if counted then 1 else 0)
      && after.currentTopic == (if counted then Some(topic) else before.currentTopic)
      && links.Keys == db.links.Keys + (if counted then {key} else {})
      && (key in links && topic != "" ==> links[key].status.TopicCompleted?)
      && (counted && key !in db.links ==>
            links[key].ordinal == before.total + 1 && links[key].operation == run.agent.operation)
      && forall k | k in db.links && (k != key || topic == "") :: links[k] == db.links[k]
  {
    hide Exec, Quiet, Refused;
    SuccessfulRun(db, run);
  }

  // ----- the agent failed -----

  function FailureRow(row: TaskRow, run: Run): TaskRow
    requires run.agent.AgentFailed?
  {
    TaskRow(row.info, Paused, TruncateForLog(run.agent.error, 500),
            if OrEmpty(row.assignee) == "" && run.rollbackAssignee > 0 then Some("") else row.assignee,
            row.currentTopic, row.total, StartOf(row, run), row.completedAt, row.heartbeat, ModelledConfig(row, run))
  }

  lemma ApplyPatch(db: DB, id: TaskId, status: Status, fields: seq<Field>)
    requires id in db.tasks
    ensures Apply(db, Patch(id, status, fields)) ==
        DB(db.tasks[id := Patched(db.tasks[id], status, fields)], db.links, db.topics)
  {
  }

  // What a failed run's compensations send: the pause first, the assignee last.
  lemma CompensationsAre(row: TaskRow, run: Run, error: string)
    ensures CompensationPlan(Registered(row), row, run, error) ==
      (if !row.status.Running?
        then Times(Patch(run.id, Paused, [Error(TruncateForLog(error, 500))]), run.rollbackPaused) else []) +
      (if OrEmpty(row.assignee) == "" then Times(Patch(run.id, row.status, [Assignee("")]), run.rollbackAssignee)
        else [])
  {
    hide TruncateForLog, Times;
    var cs := Registered(row);
    if |cs| > 0 {
      var init := cs[..|cs|-1];
      assert CompensationPlan(cs, row, run, error) ==
             CompensationWrite(cs[|cs|-1], row, run, error) + CompensationPlan(init, row, run, error);
      if |init| > 0 {
        assert init == [RollbackAssignee("")] && init[..0] == [];
      }
    }
  }

  // One compensation, taking effect or not.
  lemma CompensationStep(db: DB, id: TaskId, status: Status, f: Field, registered: bool, n: nat)
    requires id in db.tasks && Allowed(f)
    ensures ApplyAll(db, if registered then Times(Patch(id, status, [f]), n) else []) ==
            if registered && n > 0 then DB(db.tasks[id := Patched(db.tasks[id], status, [f])], db.links, db.topics)
                else db
  {
    hide Apply, Patched, ApplyAll;
    ApplyNone(db);
    TimesIsOnce(db, Patch(id, status, [f]), n);
    ApplyPatch(db, id, status, [f]);
  }

  // The row after the compensations: they may or may not have run, so only what the final
  // write cannot repair is said exactly.
  lemma CompensatedRows(db: DB, row: TaskRow, run: Run)
    requires run.agent.AgentFailed? && run.id in db.tasks
    requires db.tasks[run.id] == ReadyRow(row, run)
    ensures var after := ApplyAll(db, CompensationPlan(Registered(row), row, run, run.agent.error));
      after == DB(db.tasks[run.id := CompensatedRow(row, run)], db.links, db.topics)
  {
    hide ApplyAll, Apply, Patched, TruncateForLog, Times, CompensationPlan, Registered, ModelledConfig, StartOf;
    var error, id, ready := run.agent.error, run.id, db.tasks[run.id];
    var message := TruncateForLog(error, 500);
    CompensationsAre(row, run, error);
    var first := if !row.status.Running? then Times(Patch(id, Paused, [Error(message)]), run.rollbackPaused) else [];
    var second := if OrEmpty(row.assignee) == ""
        then Times(Patch(id, row.status, [Assignee("")]), run.rollbackAssignee) else [];
    ApplyConcat(db, first, second);
    CompensationStep(db, id, Paused, Error(message), !row.status.Running?, run.rollbackPaused);
    var mid := ApplyAll(db, first);
    assert db.tasks[id := ready] == db.tasks && id in mid.tasks;
    CompensationStep(mid, id, row.status, Assignee(""), OrEmpty(row.assignee) == "", run.rollbackAssignee);
    PatchOne(ready, Paused, Error(message));
    PatchOne(mid.tasks[id], row.status, Assignee(""));
  }

  function CompensatedRow(row: TaskRow, run: Run): TaskRow
    requires run.agent.AgentFailed?
  {
    var paused := !row.status.Running? && run.rollbackPaused > 0;
    var unassigned := OrEmpty(row.assignee) == "" && run.rollbackAssignee > 0;
    TaskRow(row.info,
            if unassigned then row.status else if paused then Paused else Running,
            if paused then TruncateForLog(run.agent.error, 500) else "",
            if unassigned then Some("") else row.assignee,
            row.currentTopic, row.total, StartOf(row, run), row.completedAt, row.heartbeat, ModelledConfig(row, run))
  }

  // A run whose agent fails for good, whichever compensations took effect: the task is paused
  // with the error, the topics are untouched.
  lemma FailedRun(db: DB, run: Run)
    requires Quiet(db) && !Refused(db, run) && run.promptBuilt && run.agent.AgentFailed?
    ensures Exec(db, run) == DB(db.tasks[run.id := FailureRow(db.tasks[run.id], run)], db.links, db.topics)
  {
    hide ApplyAll, Plan, Exec, ClaimPlan, BackfillPlan, CompensationPlan, TruncateForLog, Performed, Patched;
    var row, error := db.tasks[run.id], run.agent.error;
    ExecByParts(db, run);
    ReadyRows(db, run);
    var ready := DB(db.tasks[run.id := ReadyRow(row, run)], db.links, db.topics);
    CompensatedRows(ready, row, run);
    var last := UpdateTaskStatus(Paused, [Error(TruncateForLog(error, 500))]);
    var compensated := ApplyAll(ready, CompensationPlan(Registered(row), row, run, error));
    ApplyConcat(ready, CompensationPlan(Registered(row), row, run, error),
      Performed(run.id, last, run.Tries(FinalStep)));
    StepOnce(compensated, run, last, FinalStep);
    ApplyOne(compensated, Patch(run.id, Paused, last.fields));
    PatchOne(CompensatedRow(row, run), Paused, Error(TruncateForLog(error, 500)));
  }

  // What the agent failed with is in the row, without white space around it, in full if it is not
  // too long.
  lemma ErrorKept(db: DB, run: Run, pre: string, mid: string, post: string)
    requires Quiet(db) && !Refused(db, run) && run.promptBuilt && run.agent.AgentFailed?
    requires Padded(run.agent.error, pre, mid, post)
    ensures run.id in Exec(db, run).tasks
    ensures var row := Exec(db, run).tasks[run.id];
      row.status == Paused && row.error == if |mid| <= 500 then mid else mid[..500] + "\U{2026}"
  {
    hide Exec, Quiet, TruncateForLog, Padded;
    FailedRun(db, run);
    TruncatedIs(run.agent.error, pre, mid, post, 500);
  }

  // The saga's promise: of a failed run nothing is left for a reader of the task but the pause and
  // its error, and a config of nothing but the model if one was missing. The assignee column itself is
  // as it was unless it was NULL and its rollback took effect, which writes the empty string that NULL
  // is read as.
  lemma NothingGained(db: DB, run: Run)
    requires Quiet(db) && !Refused(db, run) && run.promptBuilt && run.agent.AgentFailed?
    ensures run.id in Exec(db, run).tasks
    ensures var before, after := db.tasks[run.id], Exec(db, run).tasks[run.id];
      var read := Resolve(before);
      && Resolve(after) == TaskItem(Paused, TruncateForLog(run.agent.error, 500), read.assignee, read.total, read.mode,
                                    read.consecutiveErrors, read.scheduleStartedAt, ModelledConfig(before, run))
      && (after.assignee == before.assignee <==> !(before.assignee.None? && run.rollbackAssignee > 0))
      && after.currentTopic == before.currentTopic
    ensures Exec(db, run).links == db.links && Exec(db, run).topics == db.topics
  {
    FailedRun(db, run);
  }

  predicate OnlyModel(c: Config) {
    c.cap == 0 && c.before.None? && c.rest == map[]
  }

  predicate SameBesidesModel(c: Config, d: Config) {
    c.cap == d.cap && c.before == d.before && c.rest == d.rest
  }

  // The backfill is to add a model and keep what else the config says. A run that gets as far does so
  // exactly if no model was missing, or none was known, or the config said nothing else. The model is
  // that of the assignee or else of the inbox agent.
  lemma ConfigKeptIff(db: DB, run: Run)
    requires Quiet(db) && !Refused(db, run) && run.promptBuilt
    ensures run.id in Exec(db, run).tasks
    ensures var row, config := db.tasks[run.id], Exec(db, run).tasks[run.id].config;
      var missing := (row.config.model == "" || row.config.provider == "") && run.agentModel.Some? &&
                     (row.assignee !in {None, Some("")} || run.inbox != Some(""));
      && config.model == (if missing then run.agentModel.value.model else row.config.model)
      && config.provider == (if missing then run.agentModel.value.provider else row.config.provider)
      && (SameBesidesModel(config, row.config) <==> !missing || OnlyModel(row.config))
  {
    hide Exec, Quiet;
    if run.agent.AgentDone? {
      SuccessfulRun(db, run);
    } else {
      FailedRun(db, run);
    }
  }

  // It fails, for one, for a task that was capped and had no model.
  lemma CapLost() returns (db: DB, run: Run)
    ensures Quiet(db) && !Refused(db, run) && run.promptBuilt && run.id in Exec(db, run).tasks
    ensures db.tasks[run.id].config.cap == 3 && Exec(db, run).tasks[run.id].config.cap == 0
  {
    var info := TaskInfo("T-1", "usr_1", "", 0, "schedule");
    var row := TaskRow(info, Backlog, "", Some("agt_1"), None, 0, None, None, None, Config("", "", 3, None, map[]));
    db := DB(map["t" := row], map[], map[]);
    run := Run("t", "", None, true, 0, Some(Model("m", "p")), AgentFailed("down"), 0, 0, map[]);
    hide Exec;
    FailedRun(db, run);
  }
}
