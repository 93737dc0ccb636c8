/**
 The rows that the task workflow works on in Postgres: tasks, task_topics and topics, and
 what one SQL statement of runtime/task/pg_store.go does to them.
 updated_at is not a column of the model: it is written by every statement and read by none.
 */
module TaskRows {
  import opened Prelude

  type TaskId = string
  type TopicId = string
  type Time = int

  datatype Status = Backlog | Paused | Scheduled | Running | Completed | Failed | Canceled

  predicate IsTerminal(s: Status) {
    s.Completed? || s.Failed? || s.Canceled?
  }

  datatype TopicStatus = TopicRunning | TopicCompleted | TopicFailed | TopicCanceled

  datatype Reason = ReasonDone | ReasonError | ReasonInterrupted | ReasonMaxSteps | ReasonCostLimit | ReasonOther

  // task.config: the entries that the modelled code reads; `rest` stands for all others.
  datatype Config = Config(model: string, provider: string, cap: int, before: Option<seq<string>>,
                           rest: map<string, string>)

  // The columns of a task that no modelled statement writes.
  datatype TaskInfo = TaskInfo(identifier: string, owner: string, name: string, timeout: int, mode: string)

  datatype TaskRow = TaskRow(
    info: TaskInfo,
    status: Status,
    error: string,
    assignee: Option<string>,
    currentTopic: Option<TopicId>,
    total: int,
    startedAt: Option<Time>,
    completedAt: Option<Time>,
    heartbeat: Option<Time>,
    config: Config)

  datatype Key = Key(task: TaskId, topic: TopicId)
  datatype Link = Link(operation: string, ordinal: int, status: TopicStatus, heartbeat: Option<Time>)
  // A row of task_topics as the stores return it.
  datatype TopicRow = TopicRow(topic: TopicId, operation: string, ordinal: int, status: TopicStatus)

  datatype Topic = Topic(owner: string, agent: Option<string>, title: string)

  datatype DB = DB(tasks: map<TaskId, TaskRow>, links: map<Key, Link>, topics: map<TopicId, Topic>)

  // ----- UpdateStatus -----

  datatype Field =
    | StartedAt(at: Time) | CompletedAt(at: Time) | Error(message: string) | TotalTopics(n: int)
    | CurrentTopic(topic: TopicId) | Assignee(agent: string)
    | ConsecutiveErrors(n: int) | ScheduleStartedAt(at: Time)
    | Unknown(column: string)  // a name on neither store's list

  // allowedStatusFields
  predicate Allowed(f: Field) {
    !(f.ConsecutiveErrors? || f.ScheduleStartedAt? || f.Unknown?)
  }

  function Column(f: Field): string {
    match f
    case StartedAt(_) => "started_at"
    case CompletedAt(_) => "completed_at"
    case Error(_) => "error"
    case TotalTopics(_) => "total_topics"
    case CurrentTopic(_) => "current_topic_id"
    case Assignee(_) => "assignee_agent_id"
    case ConsecutiveErrors(_) => "consecutive_errors"
    case ScheduleStartedAt(_) => "schedule_started_at"
    case Unknown(c) => c
  }

  // Postgres refuses an UPDATE that assigns one column twice.
  predicate Accepted(fields: seq<Field>) {
    (forall i | 0 <= i < |fields| :: Allowed(fields[i])) &&
    (forall i, j | 0 <= i < j < |fields| :: Column(fields[i]) != Column(fields[j]))
  }

  // What a list of fields makes of one column: the last assignment to it wins.
  function Latest<T>(v: T, fs: seq<Field>, pick: Field -> Option<T>): T {
    if fs == [] then v
    else if pick(fs[|fs|-1]).Some? then pick(fs[|fs|-1]).value
    else Latest(v, fs[..|fs|-1], pick)
  }

  function TheError(f: Field): Option<string> {
    if f.Error? then Some(f.message) else None
  }

  function TheAssignee(f: Field): Option<Option<string>> {
    if f.Assignee? then Some(Some(f.agent)) else None
  }

  function TheCurrentTopic(f: Field): Option<Option<TopicId>> {
    if f.CurrentTopic? then Some(Some(f.topic)) else None
  }

  function TheTotal(f: Field): Option<int> {
    if f.TotalTopics? then Some(f.n) else None
  }

  function TheStart(f: Field): Option<Option<Time>> {
    if f.StartedAt? then Some(Some(f.at)) else None
  }

  function TheCompletion(f: Field): Option<Option<Time>> {
    if f.CompletedAt? then Some(Some(f.at)) else None
  }

  function PatchRow(r: TaskRow, status: Status, fs: seq<Field>): TaskRow {
    TaskRow(r.info, status, Latest(r.error, fs, TheError), Latest(r.assignee, fs, TheAssignee),
            Latest(r.currentTopic, fs, TheCurrentTopic), Latest(r.total, fs, TheTotal),
            Latest(r.startedAt, fs, TheStart), Latest(r.completedAt, fs, TheCompletion), r.heartbeat, r.config)
  }

  function Patched(r: TaskRow, status: Status, fs: seq<Field>): TaskRow {
    if Accepted(fs) then PatchRow(r, status, fs) else r
  }

  // ----- ResolveTask -----

  // What a store hands to the activities. NULL columns read as the empty string.
  datatype TaskItem = TaskItem(
    status: Status, error: string, assignee: string, total: int, mode: string,
    consecutiveErrors: int, scheduleStartedAt: Option<Time>, config: Config)

  function OrEmpty(v: Option<string>): string {
    if v.Some? then v.value else ""
  }

  // The query reads 0 for consecutive_errors and NULL for schedule_started_at.
  function Resolve(r: TaskRow): TaskItem {
    TaskItem(r.status, r.error, OrEmpty(r.assignee), r.total, r.info.mode, 0, None, r.config)
  }

  // ----- the decisions of OnTopicComplete -----

  const HEARTBEAT_FAILURE_FUSE := 3

  // computeLifecycleTransition
  function Lifecycle(t: TaskItem, reason: Reason): (Status, bool) {
    match reason
    case ReasonDone =>
      if t.mode == "schedule" && t.scheduleStartedAt.Some? && t.config.cap > 0 && t.total >= t.config.cap
      then (Completed, true)
      else if t.mode == "heartbeat" || t.mode == "schedule" then (Scheduled, false)
      else (Paused, false)
    case ReasonInterrupted => (Paused, true)
    case ReasonOther => (t.status, false)
    case _ =>
      if t.mode == "heartbeat" && t.consecutiveErrors + 1 >= HEARTBEAT_FAILURE_FUSE then (Paused, true)
      else (t.status, false)
  }

  function TopicOutcome(reason: Reason): TopicStatus {
    match reason
    case ReasonDone => TopicCompleted
    case ReasonInterrupted => TopicCanceled
    case _ => TopicFailed
  }

  function StampFields(status: Status, now: Time): seq<Field> {
    (if status.Running? then [StartedAt(now)] else []) + (if IsTerminal(status) then [CompletedAt(now)] else [])
  }

  // The task row after steps 3 and 4 of OnTopicComplete, the review stub refusing.
  function SettleRow(r: TaskRow, reason: Reason, now: Time): TaskRow {
    var status := Lifecycle(Resolve(r), reason).0;
    if status == r.status then r else Patched(r, status, StampFields(status, now))
  }

  // ----- one statement -----

  datatype Write =
    | Patch(id: TaskId, status: Status, fields: seq<Field>)                 // UpdateStatus
    | AddTopic(id: TaskId, topic: TopicId, operation: string, ordinal: int)     // AddTaskTopic, one transaction
    | MarkTopic(id: TaskId, topic: TopicId, mark: TopicStatus)              // UpdateTaskTopicStatus
    | Expire(id: TaskId, before: Time)                                      // TimeoutRunningTopics
    | Beat(id: TaskId, now: Time)                                           // UpdateHeartbeat
    | Configure(id: TaskId, config: Config)                                 // UpdateTaskConfig
    | Settle(id: TaskId, reason: Reason, now: Time)                         // OnTopicComplete's transition

  function RowAfter(r: TaskRow, w: Write): TaskRow {
    match w
    case Patch(_, status, fields) => Patched(r, status, fields)
    case Beat(_, now) => TaskRow(r.info, r.status, r.error, r.assignee, r.currentTopic, r.total, r.startedAt,
                                 r.completedAt, Some(now), r.config)
    case Configure(_, c) => TaskRow(r.info, r.status, r.error, r.assignee, r.currentTopic, r.total, r.startedAt,
                                    r.completedAt, r.heartbeat, c)
    case Settle(_, reason, now) => SettleRow(r, reason, now)
    case _ => r
  }

  // A topic row that UPDATE ... WHERE status = 'running' AND last_heartbeat_at < before matches.
  // NULL never compares as smaller.
  predicate Stale(l: Link, before: Time) {
    l.status.TopicRunning? && l.heartbeat.Some? && l.heartbeat.value < before
  }

  function Marked(l: Link, mark: TopicStatus): Link {
    Link(l.operation, l.ordinal, mark, l.heartbeat)
  }

  function Expired(links: map<Key, Link>, id: TaskId, before: Time): map<Key, Link> {
    map k | k in links :: if k.task == id && Stale(links[k], before) then Marked(links[k], TopicFailed) else links[k]
  }

  function LinksAfter(db: DB, w: Write): map<Key, Link> {
    match w
    case AddTopic(id, topic, operation, ordinal) =>
      if id !in db.tasks || Key(id, topic) in db.links then db.links
      else db.links[Key(id, topic) := Link(operation, ordinal, TopicRunning, None)]
    case MarkTopic(id, topic, mark) =>
      if Key(id, topic) !in db.links then db.links
      else db.links[Key(id, topic) := Marked(db.links[Key(id, topic)], mark)]
    case Expire(id, before) => Expired(db.links, id, before)
    case _ => db.links
  }

  // topicAgentID: only a real agent id is written, so that the foreign key holds.
  function TopicAgent(assignee: Option<string>): Option<string> {
    if assignee.Some? && "agt_" <= assignee.value then assignee else None
  }

  function TopicsAfter(db: DB, w: Write): map<TopicId, Topic> {
    if w.AddTopic? && w.id in db.tasks && w.topic !in db.topics
    then db.topics[w.topic := Topic(db.tasks[w.id].info.owner, TopicAgent(db.tasks[w.id].assignee),
                                    db.tasks[w.id].info.name)]
    else db.topics
  }

  function TasksAfter(db: DB, w: Write): map<TaskId, TaskRow> {
    if w.id in db.tasks then db.tasks[w.id := RowAfter(db.tasks[w.id], w)] else db.tasks
  }

  function Apply(db: DB, w: Write): DB {
    DB(TasksAfter(db, w), LinksAfter(db, w), TopicsAfter(db, w))
  }

  function ApplyAll(db: DB, ws: seq<Write>): DB
    decreases |ws|
  {
    if ws == [] then db else ApplyAll(Apply(db, ws[0]), ws[1..])
  }

  lemma {:induction false} ApplyConcat(db: DB, a: seq<Write>, b: seq<Write>)
    ensures ApplyAll(db, a + b) == ApplyAll(ApplyAll(db, a), b)
    decreases |a|
  {
    if a == [] {
      assert a + b == b;
    } else {
      ApplyConcat(Apply(db, a[0]), a[1..], b);
      assert (a + b)[0] == a[0] && (a + b)[1..] == a[1..] + b;
    }
  }
}
