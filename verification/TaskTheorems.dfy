/**
 What the task workflow guarantees about its rows in Postgres: executing activities again
 changes nothing, topics run one at a time and are numbered without gaps, and a failed run
 leaves the task paused with its error and nothing gained.
 */
module TaskTheorems {
  import opened Prelude
  import opened TaskRows
  import opened TaskWorkflow

  // ----- an activity executed again -----

  lemma SettleRowIs(r: TaskRow, reason: Reason, now: Time)
    ensures SettleRow(r, reason, now) == PatchRow(r, Lifecycle(Resolve(r), reason).0, [])
    ensures SettleRow(r, reason, now).status == Lifecycle(Resolve(r), reason).0
  {
    var status := Lifecycle(Resolve(r), reason).0;
    assert status == r.status || status == Paused || status == Scheduled;
    assert PatchRow(r, r.status, []) == r;
  }

  // A statement of an activity that goes straight at the database is absorbed by its repetition.
  lemma WriteTwice(db: DB, w: Write)
    requires !w.Settle?
    ensures Apply(Apply(db, w), w) == Apply(db, w)
  {
    if w.Patch? && w.id in db.tasks {
      PatchTwice(db.tasks[w.id], w.status, w.fields);
    }
  }

  // Assigning a column twice by the same list: the second time finds what it would write.
  lemma {:induction false} LatestTwice<T>(v: T, w: T, fs: seq<Field>, pick: Field -> Option<T>)
    ensures Latest(w, fs, pick) == Latest(v, fs, pick) || (Latest(w, fs, pick) == w && Latest(v, fs, pick) == v)
    ensures Latest(Latest(v, fs, pick), fs, pick) == Latest(v, fs, pick)
  {
    if fs != [] && pick(fs[|fs|-1]).None? {
      LatestTwice(v, w, fs[..|fs|-1], pick);
    }
  }

  lemma PatchTwice(r: TaskRow, status: Status, fs: seq<Field>)
    ensures Patched(Patched(r, status, fs), status, fs) == Patched(r, status, fs)
  {
    LatestTwice(r.error, r.error, fs, TheError);
    LatestTwice(r.assignee, r.assignee, fs, TheAssignee);
    LatestTwice(r.currentTopic, r.currentTopic, fs, TheCurrentTopic);
    LatestTwice(r.total, r.total, fs, TheTotal);
    LatestTwice(r.startedAt, r.startedAt, fs, TheStart);
    LatestTwice(r.completedAt, r.completedAt, fs, TheCompletion);
  }

  lemma ApplyNone(db: DB)
    ensures ApplyAll(db, []) == db
  {
  }

  lemma ApplyOne(db: DB, w: Write)
    ensures ApplyAll(db, [w]) == Apply(db, w)
  {
    assert [w][1..] == [];
  }

  lemma ApplyTwo(db: DB, v: Write, w: Write)
    ensures ApplyAll(db, [v, w]) == Apply(Apply(db, v), w)
  {
    assert [v, w][1..] == [w];
    ApplyOne(Apply(db, v), w);
  }

  lemma ApplyThree(db: DB, u: Write, v: Write, w: Write)
    ensures ApplyAll(db, [u, v, w]) == Apply(Apply(Apply(db, u), v), w)
  {
    assert [u, v, w][1..] == [v, w];
    ApplyTwo(Apply(db, u), v, w);
  }

  // OnTopicComplete cut short: the heartbeat, the topic row, the transition.
  function CompletionRow(r: TaskRow, reason: Reason, now: Time, beat: bool, settle: bool): TaskRow {
    var b := if beat then RowAfter(r, Beat("", now)) else r;
    if settle then SettleRow(b, reason, now) else b
  }

  function Completion(db: DB, id: TaskId, topic: TopicId, reason: Reason, now: Time,
                      beat: bool, mark: bool, settle: bool): DB {
    DB(if id in db.tasks then db.tasks[id := CompletionRow(db.tasks[id], reason, now, beat, settle)] else db.tasks,
       if mark then LinksAfter(db, MarkTopic(id, topic, TopicOutcome(reason))) else db.links,
       db.topics)
  }

  lemma CompletionIs(db: DB, id: TaskId, topic: TopicId, reason: Reason, now: Time, cut: nat)
    ensures ApplyAll(db, Upto(Statements(id, CompleteTopic(topic, reason), now), cut))
         == Completion(db, id, topic, reason, now, cut >= 1, topic != "" && cut >= 2,
                       cut >= if topic == "" then 2 else 3)
  {
    hide SettleRow, TopicOutcome, Marked, Expired, Patched;
    var b, m, t := Beat(id, now), MarkTopic(id, topic, TopicOutcome(reason)), Settle(id, reason, now);
    ApplyNone(db);
    ApplyOne(db, b);
    ApplyTwo(db, b, m);
    ApplyTwo(db, b, t);
    ApplyThree(db, b, m, t);
    assert [b, m, t][..2] == [b, m] && [b, m, t][..1] == [b] && [b, t][..1] == [b];
  }

  // The transition moves the status alone ...
  lemma SettledRow(r: TaskRow, reason: Reason, now: Time)
    ensures SettleRow(r, reason, now) ==
      TaskRow(r.info, Lifecycle(Resolve(r), reason).0, r.error, r.assignee, r.currentTopic, r.total, r.startedAt,
              r.completedAt, r.heartbeat, r.config)
  {
    SettleRowIs(r, reason, now);
  }

  // ... to where it leaves it the next time.
  lemma LifecycleAgain(r: TaskRow, now: Time, reason: Reason)
    ensures Lifecycle(Resolve(RowAfter(r, Beat("", now))), reason) == Lifecycle(Resolve(r), reason)
    ensures Lifecycle(Resolve(SettleRow(r, reason, now)), reason).0 == Lifecycle(Resolve(r), reason).0
  {
    SettledRow(r, reason, now);
    hide SettleRow;
  }

  lemma CompletionRowTwice(r: TaskRow, reason: Reason, now: Time, last: Time, beat: bool, settle: bool)
    ensures CompletionRow(CompletionRow(r, reason, now, beat, settle), reason, last, true, true)
         == CompletionRow(r, reason, last, true, true)
  {
    hide SettleRow, Lifecycle, Resolve;
    var one := if beat then RowAfter(r, Beat("", now)) else r;
    var two := if settle then SettleRow(one, reason, now) else one;
    LifecycleAgain(r, now, reason);
    LifecycleAgain(r, last, reason);
    LifecycleAgain(one, now, reason);
    LifecycleAgain(two, last, reason);
    SettledRow(one, reason, now);
    SettledRow(RowAfter(r, Beat("", last)), reason, last);
    SettledRow(RowAfter(two, Beat("", last)), reason, last);
  }

  lemma CompletionTwice(db: DB, id: TaskId, topic: TopicId, reason: Reason, now: Time, last: Time,
                        beat: bool, mark: bool, settle: bool)
    requires mark ==> topic != ""
    ensures Completion(Completion(db, id, topic, reason, now, beat, mark, settle),
                       id, topic, reason, last, true, topic != "", true)
         == Completion(db, id, topic, reason, last, true, topic != "", true)
  {
    if id in db.tasks {
      CompletionRowTwice(db.tasks[id], reason, now, last, beat, settle);
    }
  }

  // An attempt lost after any of its statements leaves no trace once the activity has succeeded.
  lemma Absorbed(db: DB, id: TaskId, act: Activity, try: Try, last: Time)
    requires act.TimeoutTopics? ==> RunningTopics(db, id) == {}
    ensures ApplyAll(ApplyAll(db, Upto(Statements(id, act, try.now), try.cut)), Statements(id, act, last))
         == ApplyAll(db, Statements(id, act, last))
  {
    if act.CompleteTopic? {
      CompletionIs(db, id, act.topic, act.reason, try.now, try.cut);
      var part := ApplyAll(db, Upto(Statements(id, act, try.now), try.cut));
      assert Upto(Statements(id, act, last), 3) == Statements(id, act, last);
      CompletionIs(db, id, act.topic, act.reason, last, 3);
      CompletionIs(part, id, act.topic, act.reason, last, 3);
      CompletionTwice(db, id, act.topic, act.reason, try.now, last, try.cut >= 1,
                      act.topic != "" && try.cut >= 2, try.cut >= if act.topic == "" then 2 else 3);
    } else {
      AbsorbedOne(db, id, act, try, last);
    }
  }

  lemma NoneToExpire(db: DB, id: TaskId, before: Time)
    requires RunningTopics(db, id) == {}
    ensures Apply(db, Expire(id, before)) == db
  {
    forall k | k in db.links && k.task == id
      ensures !db.links[k].status.TopicRunning?
    {
      assert db.links[k].status.TopicRunning? ==> k.topic in RunningTopics(db, id);
    }
    assert Expired(db.links, id, before) == db.links;
  }

  lemma AbsorbedOne(db: DB, id: TaskId, act: Activity, try: Try, last: Time)
    requires !act.CompleteTopic?
    requires act.TimeoutTopics? ==> RunningTopics(db, id) == {}
    ensures ApplyAll(ApplyAll(db, Upto(Statements(id, act, try.now), try.cut)), Statements(id, act, last))
         == ApplyAll(db, Statements(id, act, last))
  {
    var w, again := Statements(id, act, try.now)[0], Statements(id, act, last)[0];
    assert Statements(id, act, try.now) == [w] && Statements(id, act, last) == [again];
    assert Upto([w], try.cut) == if try.cut == 0 then [] else [w];
    ApplyOne(db, w);
    ApplyOne(db, again);
    ApplyOne(Apply(db, w), again);
    if act.TimeoutTopics? {
      NoneToExpire(db, id, w.before);
    } else if w == again {
      WriteTwice(db, w);
    }
  }

  // No task has a running topic: the state between runs.
  predicate Quiet(db: DB) {
    forall k | k in db.links :: !db.links[k].status.TopicRunning?
  }

  lemma {:induction false} LostAbsorbed(db: DB, id: TaskId, act: Activity, lost: seq<Try>, last: Time)
    requires act.TimeoutTopics? ==> Quiet(db)
    ensures ApplyAll(db, Lost(id, act, lost) + Statements(id, act, last)) == ApplyAll(db, Statements(id, act, last))
    decreases |lost|
  {
    hide Apply, Upto;
    var whole := Statements(id, act, last);
    if lost == [] {
      assert [] + whole == whole;
    } else {
      QuietMeansNoneIf(db, id, act);
      var first := Upto(Statements(id, act, lost[0].now), lost[0].cut);
      assert Lost(id, act, lost) + whole == first + (Lost(id, act, lost[1..]) + whole);
      ApplyConcat(db, first, Lost(id, act, lost[1..]) + whole);
      if act.TimeoutTopics? {
        ExpireQuiet(db, id, act, lost[0]);
      }
      LostAbsorbed(ApplyAll(db, first), id, act, lost[1..], last);
      Absorbed(db, id, act, lost[0], last);
    }
  }

  lemma QuietMeansNoneIf(db: DB, id: TaskId, act: Activity)
    requires act.TimeoutTopics? ==> Quiet(db)
    ensures act.TimeoutTopics? ==> RunningTopics(db, id) == {}
  {
  }

  lemma ExpireQuiet(db: DB, id: TaskId, act: Activity, try: Try)
    requires act.TimeoutTopics? && Quiet(db)
    ensures ApplyAll(db, Upto(Statements(id, act, try.now), try.cut)) == db
  {
    ApplyOne(db, Expire(id, try.now - act.timeout));
    NoneToExpire(db, id, try.now - act.timeout);
  }

  // However often an activity ran before it succeeded, it succeeded once.
  lemma Retried(db: DB, id: TaskId, act: Activity, a: Attempts)
    requires act.TimeoutTopics? ==> Quiet(db)
    ensures ApplyAll(db, Performed(id, act, a)) == ApplyAll(db, Statements(id, act, a.last))
  {
    LostAbsorbed(db, id, act, a.lost, a.last);
  }

  lemma {:induction false} TimesIsOnce(db: DB, w: Write, n: nat)
    requires !w.Settle?
    ensures ApplyAll(db, Times(w, n)) == if n == 0 then db else Apply(db, w)
    decreases n
  {
    if n > 0 {
      assert Times(w, n)[1..] == Times(w, n - 1);
      TimesIsOnce(Apply(db, w), w, n - 1);
      WriteTwice(db, w);
    }
  }

  // ----- a run executed again -----

  lemma OnceTries(run: Run, s: Step)
    ensures Once(run).Tries(s) == Attempts([], run.Tries(s).last)
  {
  }

  lemma PerformedOnce(id: TaskId, act: Activity, a: Attempts)
    ensures Performed(id, act, Attempts([], a.last)) == Statements(id, act, a.last)
  {
  }

  // The activity of one step, in the run as it was and in the run without losses.
  lemma StepOnce(db: DB, run: Run, act: Activity, s: Step)
    requires act.TimeoutTopics? ==> Quiet(db)
    ensures ApplyAll(db, Performed(run.id, act, run.Tries(s))) ==
        ApplyAll(db, Performed(run.id, act, Once(run).Tries(s)))
    ensures ApplyAll(db, Performed(run.id, act, run.Tries(s))) ==
        ApplyAll(db, Statements(run.id, act, run.Tries(s).last))
  {
    Retried(db, run.id, act, run.Tries(s));
    OnceTries(run, s);
    PerformedOnce(run.id, act, run.Tries(s));
  }

  lemma TimeoutOnce(db: DB, row: TaskRow, run: Run)
    requires Quiet(db)
    ensures ApplyAll(db, TimeoutPlan(row, run)) == db == ApplyAll(db, TimeoutPlan(row, Once(run)))
  {
    if row.heartbeat.Some? && row.info.timeout > 0 {
      var act := TimeoutTopics(row.info.timeout);
      StepOnce(db, run, act, TimeoutStep);
      ExpireQuiet(db, run.id, act, Try(run.Tries(TimeoutStep).last, 1));
    }
  }

  lemma ClaimOnce(db: DB, row: TaskRow, run: Run)
    ensures ApplyAll(db, ClaimPlan(row, run)) == ApplyAll(db, ClaimPlan(row, Once(run)))
  {
    StepOnce(db, run, UpdateTaskStatus(Running, [StartedAt(run.startedAt), Error("")]), ClaimStep);
    StepOnce(db, run, UpdateTaskStatus(Running, [Error("")]), ClaimStep);
  }

  lemma BackfillOnce(db: DB, row: TaskRow, run: Run)
    ensures ApplyAll(db, BackfillPlan(row, run)) == ApplyAll(db, BackfillPlan(row, Once(run)))
  {
    if NeedsModel(row, run) {
      StepOnce(db, run, SaveConfig(Backfilled(Sent(row.config), run.agentModel.value)), BackfillStep);
    }
  }

  lemma LinkOnce(db: DB, row: TaskRow, run: Run)
    requires run.agent.AgentDone?
    ensures ApplyAll(db, LinkPlan(row, run)) == ApplyAll(db, LinkPlan(row, Once(run)))
  {
    if LinksNewTopic(run) {
      var count := UpdateTaskStatus(Running, [TotalTopics(row.total + 1), CurrentTopic(run.agent.topic)]);
      var link := LinkTopic(run.agent.topic, run.agent.operation, row.total + 1);
      StepOnce(db, run, count, CountStep);
      ApplyConcat(db, Performed(run.id, count, run.Tries(CountStep)), Performed(run.id, link, run.Tries(LinkStep)));
      ApplyConcat(db, Performed(run.id, count, Once(run).Tries(CountStep)),
                  Performed(run.id, link, Once(run).Tries(LinkStep)));
      StepOnce(ApplyAll(db, Performed(run.id, count, run.Tries(CountStep))), run, link, LinkStep);
    }
  }

  lemma SuccessOnce(db: DB, row: TaskRow, run: Run)
    requires run.agent.AgentDone?
    ensures ApplyAll(db, SuccessPlan(row, run)) == ApplyAll(db, SuccessPlan(row, Once(run)))
  {
    var once := Once(run);
    var done := CompleteTopic(run.agent.topic, ReasonDone);
    var b, c := Performed(run.id, UpdateHeartbeat, run.Tries(BeatStep)),
        Performed(run.id, done, run.Tries(CompleteStep));
    var b', c' := Performed(run.id, UpdateHeartbeat, once.Tries(BeatStep)),
        Performed(run.id, done, once.Tries(CompleteStep));
    ApplyConcat3(db, LinkPlan(row, run), b, c);
    ApplyConcat3(db, LinkPlan(row, once), b', c');
    LinkOnce(db, row, run);
    var linked := ApplyAll(db, LinkPlan(row, run));
    StepOnce(linked, run, UpdateHeartbeat, BeatStep);
    StepOnce(ApplyAll(linked, b), run, done, CompleteStep);
  }

  lemma ApplyConcat3(db: DB, a: seq<Write>, b: seq<Write>, c: seq<Write>)
    ensures ApplyAll(db, a + b + c) == ApplyAll(ApplyAll(ApplyAll(db, a), b), c)
  {
    ApplyConcat(db, a + b, c);
    ApplyConcat(db, a, b);
  }

  lemma CompensationOnce(db: DB, c: Compensation, row: TaskRow, run: Run, error: string)
    ensures ApplyAll(db, CompensationWrite(c, row, run, error)) ==
        ApplyAll(db, CompensationWrite(c, row, Once(run), error))
  {
    match c
    case RollbackAssignee(previous) =>
      var w := Patch(run.id, row.status, [Assignee(previous)]);
      TimesIsOnce(db, w, run.rollbackAssignee);
      TimesIsOnce(db, w, Once(run).rollbackAssignee);
    case RollbackToPaused =>
      var w := Patch(run.id, Paused, [Error(TruncateForLog(error, 500))]);
      TimesIsOnce(db, w, run.rollbackPaused);
      TimesIsOnce(db, w, Once(run).rollbackPaused);
  }

  lemma {:induction false} CompensationsOnce(db: DB, cs: seq<Compensation>, row: TaskRow, run: Run, error: string)
    ensures ApplyAll(db, CompensationPlan(cs, row, run, error)) ==
        ApplyAll(db, CompensationPlan(cs, row, Once(run), error))
    decreases |cs|
  {
    if cs != [] {
      var c, rest := cs[|cs|-1], cs[..|cs|-1];
      ApplyConcat(db, CompensationWrite(c, row, run, error), CompensationPlan(rest, row, run, error));
      ApplyConcat(db, CompensationWrite(c, row, Once(run), error), CompensationPlan(rest, row, Once(run), error));
      CompensationOnce(db, c, row, run, error);
      CompensationsOnce(ApplyAll(db, CompensationWrite(c, row, run, error)), rest, row, run, error);
    }
  }

  lemma FailureOnce(db: DB, row: TaskRow, run: Run)
    requires run.agent.AgentFailed?
    ensures ApplyAll(db, FailurePlan(row, run)) == ApplyAll(db, FailurePlan(row, Once(run)))
  {
    var once, error := Once(run), run.agent.error;
    var last := UpdateTaskStatus(Paused, [Error(TruncateForLog(error, 500))]);
    ApplyConcat(db, CompensationPlan(Registered(row), row, run, error), Performed(run.id, last, run.Tries(FinalStep)));
    ApplyConcat(db, CompensationPlan(Registered(row), row, once, error),
      Performed(run.id, last, once.Tries(FinalStep)));
    CompensationsOnce(db, Registered(row), row, run, error);
    StepOnce(ApplyAll(db, CompensationPlan(Registered(row), row, run, error)), run, last, FinalStep);
  }

  // The plan of a run that is not refused, once its timeouts have found nothing to do.
  function Rest(row: TaskRow, run: Run): seq<Write> {
    if run.agent.AgentDone? then SuccessPlan(row, run) else FailurePlan(row, run)
  }

  lemma RestOnce(db: DB, row: TaskRow, run: Run)
    ensures ApplyAll(db, Rest(row, run)) == ApplyAll(db, Rest(row, Once(run)))
  {
    if run.agent.AgentDone? {
      SuccessOnce(db, row, run);
    } else {
      FailureOnce(db, row, run);
    }
  }

  lemma ExecByParts(db: DB, run: Run)
    requires Quiet(db) && !Refused(db, run)
    ensures var row := db.tasks[run.id];
      Exec(db, run) == if !run.promptBuilt then db
                       else ApplyAll(ApplyAll(ApplyAll(db, ClaimPlan(row, run)), BackfillPlan(row, run)),
                           Rest(row, run))
  {
    var row := db.tasks[run.id];
    TimeoutOnce(db, row, run);
    if run.promptBuilt {
      var tail := ClaimPlan(row, run) + BackfillPlan(row, run) + Rest(row, run);
      assert Plan(db, run) == TimeoutPlan(row, run) + tail;
      ApplyConcat(db, TimeoutPlan(row, run), tail);
      ApplyConcat3(db, ClaimPlan(row, run), BackfillPlan(row, run), Rest(row, run));
    } else {
      assert Plan(db, run) == TimeoutPlan(row, run);
    }
  }

  lemma ExactlyOnceRun(db: DB, run: Run)
    requires Quiet(db)
    ensures Exec(db, run) == Exec(db, Once(run))
  {
    if !Refused(db, run) {
      var row := db.tasks[run.id];
      ExecByParts(db, run);
      ExecByParts(db, Once(run));
      ClaimOnce(db, row, run);
      var claimed := ApplyAll(db, ClaimPlan(row, run));
      BackfillOnce(claimed, row, run);
      RestOnce(ApplyAll(claimed, BackfillPlan(row, run)), row, run);
    }
  }

  // OnTopicComplete a second time, for any reason: the topic rows stay, and of the task row only
  // the heartbeat moves.
  lemma CompletedAgain(db: DB, id: TaskId, topic: TopicId, reason: Reason, now: Time, later: Time)
    requires id in db.tasks
    ensures var act := CompleteTopic(topic, reason);
      var once := ApplyAll(db, Statements(id, act, now));
      var twice := ApplyAll(once, Statements(id, act, later));
      id in once.tasks && twice.links == once.links && twice.topics == once.topics &&
      twice.tasks == once.tasks[id := RowAfter(once.tasks[id], Beat(id, later))]
  {
    hide ApplyAll;
    var once := Completion(db, id, topic, reason, now, true, topic != "", true);
    assert Upto(Statements(id, CompleteTopic(topic, reason), now), 3) ==
        Statements(id, CompleteTopic(topic, reason), now);
    assert Upto(Statements(id, CompleteTopic(topic, reason), later), 3) ==
        Statements(id, CompleteTopic(topic, reason), later);
    CompletionIs(db, id, topic, reason, now, 3);
    CompletionIs(once, id, topic, reason, later, 3);
    CompletionTwice(db, id, topic, reason, now, later, true, topic != "", true);
    SettleRowIs(RowAfter(db.tasks[id], Beat("", now)), reason, now);
    SettleRowIs(RowAfter(db.tasks[id], Beat("", later)), reason, later);
  }
}
