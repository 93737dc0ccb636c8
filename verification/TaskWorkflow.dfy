/**
 TaskRunWorkflow of runtime/task/workflow.go as the statements that one run sends to Postgres.
 Every activity is at least once: attempts that were cut short after some of their statements
 may come before the attempt whose result the workflow sees. A compensation runs with a context
 that carries no activity options, so it may also take effect not at all.
 */
module TaskWorkflow {
  import opened Prelude
  import opened TaskRows

  // ----- activities and their attempts -----

  datatype Activity =
    | UpdateTaskStatus(status: Status, fields: seq<Field>)
    | LinkTopic(topic: TopicId, operation: string, ordinal: int)
    | TimeoutTopics(timeout: int)
    | UpdateHeartbeat
    | SaveConfig(config: Config)
    | CompleteTopic(topic: TopicId, reason: Reason)

  // The statements of one whole attempt at time `now`, in order.
  function Statements(id: TaskId, act: Activity, now: Time): seq<Write> {
    match act
    case UpdateTaskStatus(status, fields) => [Patch(id, status, fields)]
    case LinkTopic(topic, operation, ordinal) => [AddTopic(id, topic, operation, ordinal)]
    case TimeoutTopics(timeout) => [Expire(id, now - timeout)]
    case UpdateHeartbeat => [Beat(id, now)]
    case SaveConfig(c) => [Configure(id, c)]
    case CompleteTopic(topic, reason) =>
      if topic == "" then [Beat(id, now), Settle(id, reason, now)]
      else [Beat(id, now), MarkTopic(id, topic, TopicOutcome(reason)), Settle(id, reason, now)]
  }

  // An attempt that ran at `now` and was lost after `cut` statements.
  datatype Try = Try(now: Time, cut: nat)

  datatype Attempts = Attempts(lost: seq<Try>, last: Time)

  function Upto(ws: seq<Write>, cut: nat): seq<Write> {
    if cut < |ws| then ws[..cut] else ws
  }

  function Lost(id: TaskId, act: Activity, lost: seq<Try>): seq<Write> {
    if lost == [] then [] else Upto(Statements(id, act, lost[0].now), lost[0].cut) + Lost(id, act, lost[1..])
  }

  // Everything an activity sent to the database by the time it returned.
  function Performed(id: TaskId, act: Activity, a: Attempts): seq<Write> {
    Lost(id, act, a.lost) + Statements(id, act, a.last)
  }

  function Times(w: Write, n: nat): seq<Write> {
    if n == 0 then [] else [w] + Times(w, n - 1)
  }

  // ----- one run -----

  datatype Step = TimeoutStep | ClaimStep | BackfillStep | CountStep | LinkStep | BeatStep | CompleteStep | FinalStep

  datatype AgentOutcome = AgentFailed(error: string) | AgentDone(topic: TopicId, operation: string)

  datatype Model = Model(model: string, provider: string)

  // The parameters of a run and what its surroundings answered.
  datatype Run = Run(
    id: TaskId,
    continueTopic: TopicId,           // "" unless a topic is continued
    inbox: Option<string>,            // ResolveInboxAgent
    promptBuilt: bool,                // BuildTaskPrompt
    startedAt: Time,                  // time.Now() of the workflow
    agentModel: Option<Model>,        // GetAgentModelConfig
    agent: AgentOutcome,              // RunAgentExecution after its retries
    rollbackPaused: nat,              // how often each compensation took effect
    rollbackAssignee: nat,
    attempts: map<Step, Attempts>)
  {
    function Tries(s: Step): Attempts {
      if s in attempts then attempts[s] else Attempts([], 0)
    }
  }

  // strings.TrimSpace and the cut of truncateForLog, on the bytes of the message.

  predicate IsSpace(c: char) {
    c == ' ' || ('\t' <= c <= '\r')
  }

  function TrimLeft(s: string): string {
    if s != [] && IsSpace(s[0]) then TrimLeft(s[1..]) else s
  }

  function TrimRight(s: string): string {
    if s != [] && IsSpace(s[|s|-1]) then TrimRight(s[..|s|-1]) else s
  }

  function TruncateForLog(s: string, max: nat): string {
    var t := TrimRight(TrimLeft(s));
    if |t| <= max then t else t[..max] + "\U{2026}"
  }

  // Nothing but white space: blanks, tabs, and the four kinds of line and page ends.
  predicate Blank(s: string) {
    forall c | c in s :: c in " \t\n\U{000B}\U{000C}\r"
  }

  // A message with white space around it.
  predicate Padded(s: string, pre: string, mid: string, post: string) {
    && s == pre + mid + post && Blank(pre) && Blank(post)
    && (mid != "" ==> !Blank(mid[..1]) && !Blank(mid[|mid|-1..]))
  }

  lemma BlankIsSpace(c: char)
    ensures Blank([c]) <==> IsSpace(c)
  {
    assert Blank([c]) ==> [c][0] in " \t\n\U{000B}\U{000C}\r";
  }

  lemma {:induction false} TrimmedLeft(pre: string, s: string)
    requires Blank(pre) && (s != "" ==> !Blank(s[..1]))
    ensures TrimLeft(pre + s) == s
  {
    if pre == "" {
      assert pre + s == s;
      if s != "" {
        BlankIsSpace(s[0]);
        assert s[..1] == [s[0]];
      }
    } else {
      BlankIsSpace(pre[0]);
      assert pre[0] in pre && Blank([pre[0]]);
      assert (pre + s)[1..] == pre[1..] + s;
      TrimmedLeft(pre[1..], s);
    }
  }

  lemma {:induction false} TrimmedRight(s: string, post: string)
    requires Blank(post) && (s != "" ==> !Blank(s[|s|-1..]))
    ensures TrimRight(s + post) == s
  {
    if post == "" {
      assert s + post == s;
      if s != "" {
        BlankIsSpace(s[|s|-1]);
        assert s[|s|-1..] == [s[|s|-1]];
      }
    } else {
      var last := post[|post|-1];
      BlankIsSpace(last);
      assert last in post && Blank([last]);
      assert (s + post)[..|s + post|-1] == s + post[..|post|-1];
      TrimmedRight(s, post[..|post|-1]);
    }
  }

  // What is stored of an error: the message without the white space around it, cut if it is too long.
  lemma TruncatedIs(s: string, pre: string, mid: string, post: string, max: nat)
    requires Padded(s, pre, mid, post)
    ensures TruncateForLog(s, max) == if |mid| <= max then mid else mid[..max] + "\U{2026}"
  {
    if mid == "" {
      assert s == (pre + post) + "" && Blank(pre + post);
      TrimmedLeft(pre + post, "");
      TrimmedRight("", "");
    } else {
      assert s == pre + (mid + post) && (mid + post)[..1] == mid[..1];
      TrimmedLeft(pre, mid + post);
      TrimmedRight(mid, post);
    }
  }

  // Every message is of this kind.
  lemma Unpadded(s: string) returns (pre: string, mid: string, post: string)
    ensures Padded(s, pre, mid, post)
  {
    var rest;
    pre, rest := LeftPadding(s);
    mid, post := RightPadding(rest);
    assert mid != "" ==> mid[..1] == rest[..1];
  }

  lemma {:induction false} LeftPadding(s: string) returns (pre: string, rest: string)
    ensures s == pre + rest && Blank(pre) && (rest != "" ==> !Blank(rest[..1]))
  {
    if s == "" || !Blank(s[..1]) {
      pre, rest := "", s;
    } else {
      pre, rest := LeftPadding(s[1..]);
      assert s[..1] == [s[0]] && s == [s[0]] + s[1..];
      pre := [s[0]] + pre;
    }
  }

  lemma {:induction false} RightPadding(s: string) returns (rest: string, post: string)
    ensures s == rest + post && Blank(post) && (rest != "" ==> !Blank(rest[|rest|-1..]))
  {
    if s == "" || !Blank(s[|s|-1..]) {
      rest, post := s, "";
    } else {
      rest, post := RightPadding(s[..|s|-1]);
      assert s[|s|-1..] == [s[|s|-1]] && s == s[..|s|-1] + [s[|s|-1]];
      post := post + [s[|s|-1]];
    }
  }

  function RunningTopics(db: DB, id: TaskId): set<TopicId> {
    set k | k in db.links && k.task == id && db.links[k].status.TopicRunning? :: k.topic
  }

  // Step 1c
  predicate Conflict(db: DB, run: Run) {
    if run.continueTopic != "" then run.continueTopic in RunningTopics(db, run.id) else RunningTopics(db, run.id) != {}
  }

  // How step 1c reads the list of running topics.
  method Conflicting(running: seq<TopicRow>, continueTopic: TopicId) returns (conflict: bool)
    ensures conflict <==> exists t :: t in running && (continueTopic == "" || t.topic == continueTopic)
  {
    conflict := false;
    if continueTopic == "" {
      conflict := |running| > 0;
      assert conflict ==> running[0] in running;
    } else {
      var i := 0;
      while i < |running| && !conflict
        invariant 0 <= i <= |running|
        invariant conflict <==> exists t :: t in running[..i] && t.topic == continueTopic
      {
        conflict := running[i].topic == continueTopic;
        i := i + 1;
      }
      assert running[..|running|] == running;
    }
  }

  // The exits before the first statement: no such task, no inbox agent, a running topic.
  predicate Refused(db: DB, run: Run) {
    run.id !in db.tasks ||
    (OrEmpty(db.tasks[run.id].assignee) == "" && run.inbox.None?) ||
    Conflict(db, run)
  }

  // Step 1d
  function TimeoutPlan(row: TaskRow, run: Run): seq<Write> {
    if row.heartbeat.Some? && row.info.timeout > 0
    then Performed(run.id, TimeoutTopics(row.info.timeout), run.Tries(TimeoutStep)) else []
  }

  // Step 3
  function ClaimPlan(row: TaskRow, run: Run): seq<Write> {
    if !row.status.Running? then
      Performed(run.id, UpdateTaskStatus(Running, [StartedAt(run.startedAt), Error("")]), run.Tries(ClaimStep))
    else if row.error != "" then
      Performed(run.id, UpdateTaskStatus(Running, [Error("")]), run.Tries(ClaimStep))
    else []
  }

  // Step 4, BackfillModelConfig: the assignee is the stored one or the inbox agent.
  function AssigneeOf(row: TaskRow, run: Run): string {
    if OrEmpty(row.assignee) == "" then OrEmpty(run.inbox) else OrEmpty(row.assignee)
  }

  predicate NeedsModel(row: TaskRow, run: Run) {
    (row.config.model == "" || row.config.provider == "") && AssigneeOf(row, run) != "" && run.agentModel.Some?
  }

  // The agent's model joins the raw entries of the config that the activity was given, if any.
  function Backfilled(raw: Option<Config>, m: Model): Config {
    if raw.None? then Config(m.model, m.provider, 0, None, map[])
    else Config(m.model, m.provider, raw.value.cap, raw.value.before, raw.value.rest)
  }

  // The raw entries that an activity is given: its task is passed as JSON, and JSON leaves TaskConfig.Raw
  // out.
  function Sent(c: Config): Option<Config> {
    None
  }

  function BackfillPlan(row: TaskRow, run: Run): seq<Write> {
    if NeedsModel(row, run)
    then Performed(run.id, SaveConfig(Backfilled(Sent(row.config), run.agentModel.value)), run.Tries(BackfillStep))
    else []
  }

  // Steps 5b to 6
  predicate LinksNewTopic(run: Run) {
    run.agent.AgentDone? && run.agent.topic != "" && run.continueTopic == ""
  }

  function LinkPlan(row: TaskRow, run: Run): seq<Write>
    requires run.agent.AgentDone?
  {
    if LinksNewTopic(run) then
      Performed(run.id, UpdateTaskStatus(Running, [TotalTopics(row.total + 1), CurrentTopic(run.agent.topic)]),
                run.Tries(CountStep)) +
      Performed(run.id, LinkTopic(run.agent.topic, run.agent.operation, row.total + 1), run.Tries(LinkStep))
    else []
  }

  function SuccessPlan(row: TaskRow, run: Run): seq<Write>
    requires run.agent.AgentDone?
  {
    LinkPlan(row, run) +
    Performed(run.id, UpdateHeartbeat, run.Tries(BeatStep)) +
    Performed(run.id, CompleteTopic(run.agent.topic, ReasonDone), run.Tries(CompleteStep))
  }

  // Step 5 on failure: the compensations in reverse order of registration, then the final write.

  datatype Compensation = RollbackAssignee(previous: string) | RollbackToPaused

  function Registered(row: TaskRow): seq<Compensation> {
    (if OrEmpty(row.assignee) == "" then [RollbackAssignee("")] else []) +
    (if !row.status.Running? then [RollbackToPaused] else [])
  }

  function CompensationWrite(c: Compensation, row: TaskRow, run: Run, error: string): seq<Write> {
    match c
    case RollbackAssignee(previous) => Times(Patch(run.id, row.status, [Assignee(previous)]), run.rollbackAssignee)
    case RollbackToPaused => Times(Patch(run.id, Paused, [Error(TruncateForLog(error, 500))]), run.rollbackPaused)
  }

  function CompensationPlan(cs: seq<Compensation>, row: TaskRow, run: Run, error: string): seq<Write> {
    if cs == [] then []
    else CompensationWrite(cs[|cs|-1], row, run, error) + CompensationPlan(cs[..|cs|-1], row, run, error)
  }

  function FailurePlan(row: TaskRow, run: Run): seq<Write>
    requires run.agent.AgentFailed?
  {
    CompensationPlan(Registered(row), row, run, run.agent.error) +
    Performed(run.id, UpdateTaskStatus(Paused, [Error(TruncateForLog(run.agent.error, 500))]), run.Tries(FinalStep))
  }

  function Plan(db: DB, run: Run): seq<Write> {
    if Refused(db, run) then []
    else
      var row := db.tasks[run.id];
      TimeoutPlan(row, run) +
      if !run.promptBuilt then []
      else ClaimPlan(row, run) + BackfillPlan(row, run) +
           if run.agent.AgentDone? then SuccessPlan(row, run) else FailurePlan(row, run)
  }

  function Exec(db: DB, run: Run): DB {
    ApplyAll(db, Plan(db, run))
  }

  // The same run with nothing lost: every activity took effect by its last attempt alone.
  function Once(run: Run): Run {
    Run(run.id, run.continueTopic, run.inbox, run.promptBuilt, run.startedAt, run.agentModel, run.agent,
        if run.rollbackPaused > 0 then 1 else 0, if run.rollbackAssignee > 0 then 1 else 0,
        map s | s in run.attempts :: Attempts([], run.attempts[s].last))
  }

  function History(db: DB, runs: seq<Run>): DB
    decreases |runs|
  {
    if runs == [] then db else History(Exec(db, runs[0]), runs[1..])
  }

  function OnceEach(runs: seq<Run>): seq<Run> {
    seq(|runs|, i requires 0 <= i < |runs| => Once(runs[i]))
  }
}
