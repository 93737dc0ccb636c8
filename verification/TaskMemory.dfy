/**
 InMemoryStore of runtime/task/store.go: tasks are objects reachable under their id and under
 their identifier, a status that is set again drops the fields that come with it, and a list
 of fields is applied up to the first one that the store does not know.
 */
module TaskMemory {
  import opened Prelude
  import opened TaskRows
  import opened TaskWorkflow

  // The fields of a task that the modelled methods write, and those they decide by.
  datatype MemTask = MemTask(
    info: TaskInfo, config: Config, assignee: string,
    status: Status, error: string, total: int, startedAt: Option<Time>, completedAt: Option<Time>,
    consecutiveErrors: int, scheduleStartedAt: Option<Time>)

  predicate Known(f: Field) {
    !(f.CurrentTopic? || f.Assignee? || f.Unknown?)
  }

  // One arm of the switch over the field names.
  function SetField(m: MemTask, f: Field): MemTask {
    MemTask(m.info, m.config, m.assignee, m.status,
            if f.Error? then f.message else m.error,
            if f.TotalTopics? then f.n else m.total,
            if f.StartedAt? then Some(f.at) else m.startedAt,
            if f.CompletedAt? then Some(f.at) else m.completedAt,
            if f.ConsecutiveErrors? then f.n else m.consecutiveErrors,
            if f.ScheduleStartedAt? then Some(f.at) else m.scheduleStartedAt)
  }

  function WithStatus(m: MemTask, status: Status): MemTask {
    MemTask(m.info, m.config, m.assignee, status, m.error, m.total, m.startedAt, m.completedAt,
            m.consecutiveErrors, m.scheduleStartedAt)
  }

  // The fields up to the first unknown one.
  function SetFields(m: MemTask, fs: seq<Field>): MemTask
    decreases |fs|
  {
    if fs == [] || !Known(fs[0]) then m else SetFields(SetField(m, fs[0]), fs[1..])
  }

  function MemPatch(m: MemTask, status: Status, fs: seq<Field>): MemTask {
    if m.status == status then m else SetFields(WithStatus(m, status), fs)
  }

  // The first row of the topic gets the mark.
  function MarkFirst(rows: seq<TopicRow>, topic: TopicId, mark: TopicStatus): seq<TopicRow> {
    if rows == [] then []
    else if rows[0].topic == topic
    then [TopicRow(topic, rows[0].operation, rows[0].ordinal, mark)] + rows[1..]
    else [rows[0]] + MarkFirst(rows[1..], topic, mark)
  }

  lemma {:induction false} MarkFirstAt(rows: seq<TopicRow>, topic: TopicId, mark: TopicStatus, i: nat)
    requires i <= |rows| && (forall j | 0 <= j < i :: rows[j].topic != topic) && (i < |rows| ==> rows[i].topic == topic)
    ensures MarkFirst(rows, topic, mark) ==
            if i < |rows| then rows[i := TopicRow(topic, rows[i].operation, rows[i].ordinal, mark)] else rows
  {
    if i > 0 {
      MarkFirstAt(rows[1..], topic, mark, i - 1);
    }
  }

  function RunningRows(rows: seq<TopicRow>): seq<TopicRow> {
    if rows == [] then []
    else RunningRows(rows[..|rows|-1]) + if rows[|rows|-1].status.TopicRunning? then [rows[|rows|-1]] else []
  }

  lemma {:induction false} RunningRowsAre(rows: seq<TopicRow>)
    ensures forall r :: r in RunningRows(rows) <==> r in rows && r.status.TopicRunning?
  {
    if rows != [] {
      RunningRowsAre(rows[..|rows|-1]);
    }
  }

  function MemItem(m: MemTask): TaskItem {
    TaskItem(m.status, m.error, m.assignee, m.total, m.info.mode, m.consecutiveErrors, m.scheduleStartedAt, m.config)
  }

  function WithConfig(m: MemTask, config: Config): MemTask {
    MemTask(m.info, config, m.assignee, m.status, m.error, m.total, m.startedAt, m.completedAt,
            m.consecutiveErrors, m.scheduleStartedAt)
  }

  class Task {
    const info: TaskInfo
    const id: TaskId
    var config: Config
    var assignee: string
    var status: Status
    var error: string
    var total: int
    var startedAt: Option<Time>
    var completedAt: Option<Time>
    var consecutiveErrors: int
    var scheduleStartedAt: Option<Time>
    var heartbeat: Option<Time>

    function View(): MemTask
      reads this
    {
      MemTask(info, config, assignee, status, error, total, startedAt, completedAt, consecutiveErrors,
        scheduleStartedAt)
    }

    constructor (id: TaskId, m: MemTask)
      ensures this.id == id && View() == m
    {
      this.id, info, config, assignee, status := id, m.info, m.config, m.assignee, m.status;
      error, total, startedAt, completedAt := m.error, m.total, m.startedAt, m.completedAt;
      consecutiveErrors, scheduleStartedAt, heartbeat := m.consecutiveErrors, m.scheduleStartedAt, None;
    }

    // The switch over the field name.
    method Assign(f: Field) returns (known: bool)
      modifies this`startedAt, this`completedAt, this`error, this`total, this`consecutiveErrors, this`scheduleStartedAt
      ensures known == Known(f)
      ensures View() == if known then SetField(old(View()), f) else old(View())
    {
      match f
      case StartedAt(at) => startedAt := Some(at); known := true;
      case CompletedAt(at) => completedAt := Some(at); known := true;
      case Error(message) => error := message; known := true;
      case TotalTopics(n) => total := n; known := true;
      case ConsecutiveErrors(n) => consecutiveErrors := n; known := true;
      case ScheduleStartedAt(at) => scheduleStartedAt := Some(at); known := true;
      case _ => known := false;
    }
  }

  class InMemoryStore {
    var tasks: map<string, Task>
    var taskTopics: map<TaskId, seq<TopicRow>>

    constructor ()
      ensures tasks == map[] && taskTopics == map[]
    {
      tasks, taskTopics := map[], map[];
    }

    function Topics(id: TaskId): seq<TopicRow>
      reads this
    {
      if id in taskTopics then taskTopics[id] else []
    }

    // One object under two keys: what UpdateStatus writes under either is read under both.
    method AddTask(t: Task)
      modifies this`tasks
      ensures forall k :: k in tasks <==> k in old(tasks) || k == t.id || (k == t.info.identifier && k != "")
      ensures forall k | k in tasks ::
        tasks[k] == if k == t.id || (k == t.info.identifier && k != "") then t else old(tasks)[k]
    {
      tasks := tasks[t.id := t];
      if t.info.identifier != "" {
        tasks := tasks[t.info.identifier := t];
      }
    }

    // A copy, so that nothing done to the result reaches the store.
    method ResolveTask(key: string) returns (t: Option<MemTask>)
      ensures t == if key in tasks then Some(tasks[key].View()) else None
    {
      t := if key in tasks then Some(tasks[key].View()) else None;
    }

    method UpdateStatus(key: string, status: Status, fields: seq<Field>) returns (ok: bool)
      modifies if key in tasks then {tasks[key]} else {}
      ensures key in tasks ==> tasks[key].View() == MemPatch(old(tasks[key].View()), status, fields)
      ensures key in tasks ==> tasks[key].heartbeat == old(tasks[key].heartbeat)
      ensures forall k | k in tasks ::
        tasks[k].View() == if key in tasks && tasks[k] == tasks[key] then MemPatch(old(tasks[k].View()), status, fields)
                           else old(tasks[k].View())
      ensures ok <==> key in tasks && (old(tasks[key].status) == status || forall f | f in fields :: Known(f))
    {
      if key !in tasks {
        return false;
      }
      var t := tasks[key];
      if t.status == status {
        return true;
      }
      hide SetField;
      t.status := status;
      ghost var was := t.View();
      var i := 0;
      while i < |fields|
        invariant 0 <= i <= |fields|
        invariant SetFields(was, fields) == SetFields(t.View(), fields[i..])
        invariant forall j | 0 <= j < i :: Known(fields[j])
        invariant t.heartbeat == old(t.heartbeat)
      {
        assert fields[i..][0] == fields[i] && fields[i..][1..] == fields[i + 1..];
        var known := t.Assign(fields[i]);
        if !known {
          return false;
        }
        i := i + 1;
      }
      ok := true;
    }

    method UpdateTaskConfig(key: string, config: Config)
      modifies if key in tasks then {tasks[key]} else {}
      ensures key in tasks ==> tasks[key].View() == WithConfig(old(tasks[key].View()), config)
      ensures key in tasks ==> tasks[key].heartbeat == old(tasks[key].heartbeat)
    {
      if key in tasks {
        tasks[key].config := config;
      }
    }

    method UpdateHeartbeat(key: string, now: Time)
      modifies if key in tasks then {tasks[key]} else {}
      ensures key in tasks ==> tasks[key].heartbeat == Some(now) && tasks[key].View() == old(tasks[key].View())
    {
      if key in tasks {
        tasks[key].heartbeat := Some(now);
      }
    }

    // AddTaskTopic appends without looking.
    method AddTaskTopic(id: TaskId, topic: TopicId, operation: string, ordinal: int)
      modifies this`taskTopics
      ensures taskTopics == old(taskTopics)[id := old(Topics(id)) + [TopicRow(topic, operation, ordinal, TopicRunning)]]
    {
      var rows := if id in taskTopics then taskTopics[id] else [];
      taskTopics := taskTopics[id := rows + [TopicRow(topic, operation, ordinal, TopicRunning)]];
    }

    method UpdateTaskTopicStatus(id: TaskId, topic: TopicId, mark: TopicStatus)
      modifies this`taskTopics
      ensures taskTopics == if id in old(taskTopics)
          then old(taskTopics)[id := MarkFirst(old(taskTopics)[id], topic, mark)]
                            else old(taskTopics)
    {
      if id !in taskTopics {
        return;
      }
      var rows := taskTopics[id];
      var i := 0;
      while i < |rows|
        invariant 0 <= i <= |rows|
        invariant forall j | 0 <= j < i :: rows[j].topic != topic
      {
        if rows[i].topic == topic {
          MarkFirstAt(rows, topic, mark, i);
          taskTopics := taskTopics[id := rows[i := TopicRow(topic, rows[i].operation, rows[i].ordinal, mark)]];
          return;
        }
        i := i + 1;
      }
      MarkFirstAt(rows, topic, mark, i);
      assert taskTopics[id := rows] == taskTopics;
    }

    method ListRunningTopics(id: TaskId) returns (running: seq<TopicRow>)
      ensures running == RunningRows(Topics(id))
    {
      var rows := if id in taskTopics then taskTopics[id] else [];
      running := [];
      for i := 0 to |rows|
        invariant running == RunningRows(rows[..i])
      {
        assert rows[..i + 1][..i] == rows[..i];
        if rows[i].status.TopicRunning? {
          running := running + [rows[i]];
        }
      }
      assert rows[..|rows|] == rows;
    }

    // OnTopicComplete over this store: it has no dependency edges, so a cascade finds nothing.
    method OnTopicComplete(id: TaskId, topic: TopicId, reason: Reason, now: Time)
        returns (result: Option<(Status, bool)>)
      modifies this`taskTopics
      modifies if id in tasks then {tasks[id]} else {}
      ensures result.Some? <==> id in tasks
      ensures result.Some? ==> tasks[id].View() == MemSettle(old(tasks[id].View()), reason, now)
      ensures result.Some? ==> tasks[id].status == result.value.0 && tasks[id].heartbeat == Some(now)
      ensures result.Some? ==> result.value == Lifecycle(MemItem(old(tasks[id].View())), reason)
      ensures taskTopics == if id !in tasks || topic == "" || id !in old(taskTopics) then old(taskTopics)
                            else old(taskTopics)[id := MarkFirst(old(taskTopics)[id], topic, TopicOutcome(reason))]
    {
      UpdateHeartbeat(id, now);
      var latest := ResolveTask(id);
      if latest.None? {
        return None;
      }
      if topic != "" {
        UpdateTaskTopicStatus(id, topic, TopicOutcome(reason));
      }
      var (newStatus, terminated) := Lifecycle(MemItem(latest.value), reason);
      result := Some((newStatus, terminated));
      if newStatus == latest.value.status {
        return;
      }
      SettledStatus(latest.value, reason, now);
      var fields := StampFields(newStatus, now);
      var ok := UpdateStatus(id, newStatus, fields);
    }
  }

  // The task after the transition of OnTopicComplete.
  function MemSettle(m: MemTask, reason: Reason, now: Time): MemTask {
    MemPatch(m, Lifecycle(MemItem(m), reason).0, StampFields(Lifecycle(MemItem(m), reason).0, now))
  }

  lemma SetFieldsOne(m: MemTask, f: Field)
    ensures SetFields(m, [f]) == if Known(f) then SetField(m, f) else m
  {
    assert [f][1..] == [];
  }

  // The transition stores the status it computed, and beyond it touches only the time stamps.
  lemma SettledStatus(m: MemTask, reason: Reason, now: Time)
    ensures var status := Lifecycle(MemItem(m), reason).0;
      MemSettle(m, reason, now).status == status &&
      MemSettle(m, reason, now) == MemTask(m.info, m.config, m.assignee, status, m.error, m.total, m.startedAt,
        if status.Completed? && !m.status.Completed? then Some(now) else m.completedAt,
        m.consecutiveErrors, m.scheduleStartedAt)
  {
    var status := Lifecycle(MemItem(m), reason).0;
    assert status == m.status || status == Paused || status == Scheduled || status == Completed;
    assert StampFields(Completed, now) == [CompletedAt(now)];
    assert StampFields(Paused, now) == [] == StampFields(Scheduled, now);
    SetFieldsOne(WithStatus(m, status), CompletedAt(now));
  }

  predicate Fails(reason: Reason) {
    reason.ReasonError? || reason.ReasonMaxSteps? || reason.ReasonCostLimit?
  }

  // Where a completion takes the task: only a schedule that has reached its cap is completed.
  lemma SettledTells(m: MemTask, reason: Reason, now: Time)
    ensures MemSettle(m, reason, now).status ==
      match reason
      case ReasonDone =>
        if m.info.mode == "schedule" && m.scheduleStartedAt.Some? && 0 < m.config.cap <= m.total then Completed
        else if m.info.mode == "heartbeat" || m.info.mode == "schedule" then Scheduled else Paused
      case ReasonInterrupted => Paused
      case ReasonOther => m.status
      case _ => if m.info.mode == "heartbeat" && m.consecutiveErrors >= 2 then Paused else m.status
  {
    SettledStatus(m, reason, now);
  }

  // Nobody is to re-arm the task after it was completed, interrupted, or has failed too often.
  lemma TerminatedIff(m: MemTask, reason: Reason)
    ensures Lifecycle(MemItem(m), reason).1 <==>
      reason == ReasonInterrupted ||
      (reason == ReasonDone && m.info.mode == "schedule" && m.scheduleStartedAt.Some? && 0 < m.config.cap <= m.total) ||
      (Fails(reason) && m.info.mode == "heartbeat" && m.consecutiveErrors >= 2)
  {
  }

  // The task after failing again and again.
  function Failing(m: MemTask, reasons: seq<Reason>, now: Time): MemTask
    decreases |reasons|
  {
    if reasons == [] then m else Failing(MemSettle(m, reasons[0], now), reasons[1..], now)
  }

  // The fuse is to pause a heartbeat task that has failed three times in a row. The failures are
  // counted on a copy of the task and never stored, so that any number of them leaves the task as it
  // was unless two had been stored before.
  lemma {:induction false} FuseNeverFills(m: MemTask, reasons: seq<Reason>, now: Time)
    requires forall r | r in reasons :: Fails(r)
    ensures Failing(m, reasons, now) ==
      if reasons != [] && m.info.mode == "heartbeat" && m.consecutiveErrors >= 2 then WithStatus(m, Paused) else m
    decreases |reasons|
  {
    if reasons != [] {
      var once := MemSettle(m, reasons[0], now);
      assert reasons[0] in reasons;
      SettledStatus(m, reasons[0], now);
      SettledTells(m, reasons[0], now);
      FuseNeverFills(once, reasons[1..], now);
    }
  }

  // Completing a second time, whatever the reason, finds nothing to change in the task row ...
  lemma CompleteTwice(m: MemTask, reason: Reason, now: Time, later: Time)
    ensures MemSettle(MemSettle(m, reason, now), reason, later) == MemSettle(m, reason, now)
  {
    SettledStatus(m, reason, now);
    SettledStatus(MemSettle(m, reason, now), reason, later);
  }

  // ... nor in the topic rows.
  lemma {:induction false} MarkTwice(rows: seq<TopicRow>, topic: TopicId, mark: TopicStatus)
    ensures MarkFirst(MarkFirst(rows, topic, mark), topic, mark) == MarkFirst(rows, topic, mark)
  {
    if rows != [] && rows[0].topic != topic {
      MarkTwice(rows[1..], topic, mark);
      assert MarkFirst(rows, topic, mark)[1..] == MarkFirst(rows[1..], topic, mark);
    }
  }

  function MarkAll(rows: seq<TopicRow>, topic: TopicId, marks: seq<TopicStatus>): seq<TopicRow>
    decreases |marks|
  {
    if marks == [] then rows else MarkAll(MarkFirst(rows, topic, marks[0]), topic, marks[1..])
  }

  // A topic that is linked a second time has a second row, which no completion ever reaches: it
  // stays as it is, running, whatever the first row is marked with and however often.
  lemma {:induction false} SecondLinkStays(rows: seq<TopicRow>, topic: TopicId, last: TopicRow, marks: seq<TopicStatus>)
    requires exists i :: 0 <= i < |rows| && rows[i].topic == topic
    ensures var after := MarkAll(rows + [last], topic, marks); |after| == |rows| + 1 && after[|rows|] == last
    decreases |marks|
  {
    if marks != [] {
      MarkFirstInside(rows, topic, marks[0], last);
      SecondLinkStays(MarkFirst(rows, topic, marks[0]), topic, last, marks[1..]);
    }
  }

  lemma {:induction false} MarkFirstInside(rows: seq<TopicRow>, topic: TopicId, mark: TopicStatus, last: TopicRow)
    requires exists i :: 0 <= i < |rows| && rows[i].topic == topic
    ensures var marked := MarkFirst(rows, topic, mark);
      && MarkFirst(rows + [last], topic, mark) == marked + [last] && |marked| == |rows|
      && exists i :: 0 <= i < |marked| && marked[i].topic == topic
  {
    var i :| 0 <= i < |rows| && rows[i].topic == topic;
    assert (rows + [last])[1..] == rows[1..] + [last];
    if rows[0].topic != topic {
      assert rows[1..][i - 1].topic == topic;
      MarkFirstInside(rows[1..], topic, mark, last);
      var rest := MarkFirst(rows[1..], topic, mark);
      var j :| 0 <= j < |rest| && rest[j].topic == topic;
      assert ([rows[0]] + rest)[j + 1].topic == topic;
    } else {
      assert MarkFirst(rows, topic, mark)[0].topic == topic;
    }
  }

  // ----- a failed run over this store -----

  // UpdateStatus n times over.
  function Repeated(m: MemTask, status: Status, fs: seq<Field>, n: nat): MemTask
    decreases n
  {
    if n == 0 then m else Repeated(MemPatch(m, status, fs), status, fs, n - 1)
  }

  lemma {:induction false} SetFieldsKeepsStatus(m: MemTask, fs: seq<Field>)
    ensures SetFields(m, fs).status == m.status
    decreases |fs|
  {
    if fs != [] && Known(fs[0]) {
      SetFieldsKeepsStatus(SetField(m, fs[0]), fs[1..]);
    }
  }

  // The second write of a status is no write.
  lemma {:induction false} RepeatedIsOnce(m: MemTask, status: Status, fs: seq<Field>, n: nat)
    ensures Repeated(m, status, fs, n) == if n == 0 then m else MemPatch(m, status, fs)
    decreases n
  {
    if n > 0 {
      SetFieldsKeepsStatus(WithStatus(m, status), fs);
      RepeatedIsOnce(MemPatch(m, status, fs), status, fs, n - 1);
    }
  }

  // How often the write of each activity took effect.
  datatype Efforts = Efforts(claims: nat, saves: nat, paused: nat, unassigned: nat, finals: nat)

  // Step 3 of the workflow.
  function MemClaimed(m: MemTask, startedAt: Time, n: nat): MemTask {
    if !m.status.Running? then Repeated(m, Running, [StartedAt(startedAt), Error("")], n)
    else if m.error != "" then Repeated(m, Running, [Error("")], n)
    else m
  }

  // Step 4, for the task as it was resolved; `model` is what is stored for its agent, or for the inbox
  // agent, which this store always has.
  function MemModelled(m: MemTask, task: MemTask, model: Option<Model>, n: nat): MemTask {
    if (task.config.model == "" || task.config.provider == "") && model.Some? && n > 0
    then WithConfig(m, Backfilled(Sent(task.config), model.value)) else m
  }

  // The compensations, the last registered first, with the task as it was resolved.
  function MemCompensated(m: MemTask, task: MemTask, error: string, e: Efforts): MemTask {
    var first := if task.status.Running? then m
                 else Repeated(m, Paused, [Error(TruncateForLog(error, 500))], e.paused);
    if task.assignee == "" then Repeated(first, task.status, [Assignee("")], e.unassigned) else first
  }

  function MemFailure(task: MemTask, startedAt: Time, model: Option<Model>, error: string, e: Efforts): MemTask {
    var ready := MemModelled(MemClaimed(task, startedAt, e.claims), task, model, e.saves);
    Repeated(MemCompensated(ready, task, error, e), Paused, [Error(TruncateForLog(error, 500))], e.finals)
  }

  // The error of a failed run is lost exactly when the task was paused before, the rollback of its
  // assignee took effect (it brings the status back before it is refused) and the rollback to paused
  // did not: the final write then finds the status it wants and drops the error.
  predicate ErrorLost(task: MemTask, e: Efforts) {
    task.status.Paused? && task.assignee == "" && e.paused == 0 && e.unassigned > 0
  }

  lemma FailureInMemory(task: MemTask, startedAt: Time, model: Option<Model>, error: string, e: Efforts)
    requires e.claims > 0 && e.finals > 0
    ensures MemFailure(task, startedAt, model, error, e).status == Paused
    ensures MemFailure(task, startedAt, model, error, e).error
         == if ErrorLost(task, e) then "" else TruncateForLog(error, 500)
    ensures MemFailure(task, startedAt, model, error, e).assignee == task.assignee
    ensures MemFailure(task, startedAt, model, error, e).total == task.total
    ensures MemFailure(task, startedAt, model, error, e).startedAt
         == if task.status.Running? then task.startedAt else Some(startedAt)
    ensures MemFailure(task, startedAt, model, error, e).completedAt == task.completedAt
    ensures MemFailure(task, startedAt, model, error, e).config == MemModelled(task, task, model, e.saves).config
  {
    hide TruncateForLog;
    var message := TruncateForLog(error, 500);
    var claimed := MemClaimed(task, startedAt, e.claims);
    ClaimedIs(task, startedAt, e.claims);
    var ready := MemModelled(claimed, task, model, e.saves);
    CompensatedIs(ready, task, error, e);
    var compensated := MemCompensated(ready, task, error, e);
    RepeatedIsOnce(compensated, Paused, [Error(message)], e.finals);
    SetFieldsOne(WithStatus(compensated, Paused), Error(message));
  }

  // If the two compensations of a run take effect together or not at all, as when the context that
  // both are given decides it, the run ends paused with its error, whatever the task was before.
  lemma FailureKeepsError(task: MemTask, startedAt: Time, model: Option<Model>, error: string, e: Efforts)
    requires e.claims > 0 && e.finals > 0 && (e.paused > 0 <==> e.unassigned > 0)
    ensures MemFailure(task, startedAt, model, error, e).status == Paused
    ensures MemFailure(task, startedAt, model, error, e).error == TruncateForLog(error, 500)
  {
    FailureInMemory(task, startedAt, model, error, e);
  }

  // That is the agent's message without the white space around it, in full if it is not too long.
  lemma ErrorKept(task: MemTask, startedAt: Time, model: Option<Model>, error: string, e: Efforts,
                  pre: string, mid: string, post: string)
    requires e.claims > 0 && e.finals > 0 && !ErrorLost(task, e) && Padded(error, pre, mid, post)
    ensures MemFailure(task, startedAt, model, error, e).error
         == if |mid| <= 500 then mid else mid[..500] + "\U{2026}"
  {
    hide MemFailure, TruncateForLog, Padded;
    FailureInMemory(task, startedAt, model, error, e);
    TruncatedIs(error, pre, mid, post, 500);
  }

  // Only a rollback of the assignee without the one to paused loses it: so it does for every paused
  // task without assignee and every error that says anything.
  lemma LoneRollbackLosesError(task: MemTask, startedAt: Time, model: Option<Model>, error: string)
    requires task.status.Paused? && task.assignee == "" && TruncateForLog(error, 500) != ""
    ensures var lost := MemFailure(task, startedAt, model, error, Efforts(1, 1, 0, 1, 1));
      lost.status == Paused && lost.error == "" != TruncateForLog(error, 500)
  {
    FailureInMemory(task, startedAt, model, error, Efforts(1, 1, 0, 1, 1));
  }

  lemma ClaimedIs(task: MemTask, startedAt: Time, n: nat)
    requires n > 0
    ensures var c := MemClaimed(task, startedAt, n);
      c.status == Running && c.assignee == task.assignee && c.total == task.total && c.config == task.config &&
      c.startedAt == (if task.status.Running? then task.startedAt else Some(startedAt)) &&
      c.completedAt == task.completedAt &&
      (!task.status.Running? ==> c.error == "")
  {
    var fs := [StartedAt(startedAt), Error("")];
    RepeatedIsOnce(task, Running, fs, n);
    RepeatedIsOnce(task, Running, [Error("")], n);
    assert fs[1..] == [Error("")];
    SetFieldsOne(SetField(WithStatus(task, Running), StartedAt(startedAt)), Error(""));
  }

  lemma CompensatedIs(m: MemTask, task: MemTask, error: string, e: Efforts)
    requires m.status == Running
    ensures var c, message := MemCompensated(m, task, error, e), TruncateForLog(error, 500);
      c.assignee == m.assignee && c.total == m.total && c.config == m.config &&
      c.startedAt == m.startedAt && c.completedAt == m.completedAt &&
      c.status == (if task.assignee == "" && e.unassigned > 0 then task.status
                   else if !task.status.Running? && e.paused > 0 then Paused else Running) &&
      c.error == (if !task.status.Running? && e.paused > 0 then message else m.error)
  {
    hide TruncateForLog;
    var message := TruncateForLog(error, 500);
    RepeatedIsOnce(m, Paused, [Error(message)], e.paused);
    SetFieldsOne(WithStatus(m, Paused), Error(message));
    var first := if task.status.Running? then m else Repeated(m, Paused, [Error(message)], e.paused);
    RepeatedIsOnce(first, task.status, [Assignee("")], e.unassigned);
    SetFieldsOne(WithStatus(first, task.status), Assignee(""));
  }

  // An UpdateTaskStatus activity that takes effect n times.
  method UpdateTimes(store: InMemoryStore, id: TaskId, status: Status, fields: seq<Field>, n: nat)
    requires id in store.tasks
    modifies store.tasks[id]
    ensures store.tasks[id].View() == Repeated(old(store.tasks[id].View()), status, fields, n)
  {
    ghost var was := store.tasks[id].View();
    var i := 0;
    while i < n
      invariant 0 <= i <= n
      invariant Repeated(store.tasks[id].View(), status, fields, n - i) == Repeated(was, status, fields, n)
    {
      var ok := store.UpdateStatus(id, status, fields);
      i := i + 1;
    }
  }

  // runCompensations: the list from its end to its start.
  method RunCompensations(store: InMemoryStore, id: TaskId, comps: seq<Compensation>, task: MemTask, error: string,
                          e: Efforts)
    requires id in store.tasks
    requires comps == (if task.assignee == "" then [RollbackAssignee("")] else []) +
                      (if !task.status.Running? then [RollbackToPaused] else [])
    modifies store.tasks[id]
    ensures store.tasks[id].View() == MemCompensated(old(store.tasks[id].View()), task, error, e)
  {
    ghost var was := store.tasks[id].View();
    ghost var first := if task.status.Running? then was
                       else Repeated(was, Paused, [Error(TruncateForLog(error, 500))], e.paused);
    var i := |comps| - 1;
    while i >= 0
      invariant -1 <= i < |comps|
      invariant store.tasks[id].View() ==
                if i == |comps| - 1 then was
                else if i >= 0 then first
                else MemCompensated(was, task, error, e)
    {
      if comps[i].RollbackToPaused? {
        UpdateTimes(store, id, Paused, [Error(TruncateForLog(error, 500))], e.paused);
      } else {
        UpdateTimes(store, id, task.status, [Assignee(comps[i].previous)], e.unassigned);
      }
      i := i - 1;
    }
  }

  // BackfillModelConfig, taking effect n times.
  method Backfill(store: InMemoryStore, id: TaskId, task: MemTask, model: Option<Model>, n: nat)
    requires id in store.tasks
    modifies store.tasks[id]
    ensures store.tasks[id].View() == MemModelled(old(store.tasks[id].View()), task, model, n)
  {
    if (task.config.model != "" && task.config.provider != "") || model.None? {
      return;
    }
    var merged := Backfilled(Sent(task.config), model.value);
    for i := 0 to n
      invariant store.tasks[id].View() == if i == 0 then old(store.tasks[id].View())
                                          else WithConfig(old(store.tasks[id].View()), merged)
    {
      store.UpdateTaskConfig(id, merged);
    }
  }

  // Step 1c: some running topic, or the one to be continued if that is running.
  predicate InTheWay(rows: seq<TopicRow>, continueTopic: TopicId) {
    exists i :: 0 <= i < |rows| && rows[i].status.TopicRunning? &&
                (continueTopic == "" || rows[i].topic == continueTopic)
  }

  // Steps 1 to 5 of a run over this store whose agent fails for good. Step 1d does nothing here, as
  // topic rows have no heartbeat.
  method FailedRun(store: InMemoryStore, id: TaskId, continueTopic: TopicId, startedAt: Time, model: Option<Model>,
                   error: string, e: Efforts) returns (conflict: bool)
    requires id in store.tasks
    modifies store.tasks[id]
    ensures conflict == InTheWay(store.Topics(id), continueTopic)
    ensures store.tasks[id].View() == if conflict then old(store.tasks[id].View())
                                      else MemFailure(old(store.tasks[id].View()), startedAt, model, error, e)
  {
    var task := store.tasks[id].View();
    var compensations: seq<Compensation> := [];
    if task.assignee == "" {
      compensations := compensations + [RollbackAssignee(task.assignee)];
    }
    var running := store.ListRunningTopics(id);
    RunningRowsAre(store.Topics(id));
    conflict := Conflicting(running, continueTopic);
    if conflict {
      return;
    }
    if !task.status.Running? {
      UpdateTimes(store, id, Running, [StartedAt(startedAt), Error("")], e.claims);
      compensations := compensations + [RollbackToPaused];
    } else if task.error != "" {
      UpdateTimes(store, id, Running, [Error("")], e.claims);
    }
    Backfill(store, id, task, model, e.saves);
    RunCompensations(store, id, compensations, task, error, e);
    UpdateTimes(store, id, Paused, [Error(TruncateForLog(error, 500))], e.finals);
  }
}
