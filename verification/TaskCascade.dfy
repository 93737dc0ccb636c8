/**
 Waking downstream tasks: GetUnlockedTasks over task_dependencies, CascadeOnCompletion over
 what it returns, and the promise that holds across any interleaving of status writes and
 cascade queries: a task whose blockers all end satisfied is found by some query.
 */
module TaskCascade {
  import opened Prelude
  import opened TaskRows
  import opened TaskPostgres

  datatype Dependency = Dependency(task: TaskId, dependsOn: TaskId, kind: string)

  predicate Satisfies(s: Status) {
    s.Completed? || s.Canceled?
  }

  // The blockers of a task.
  function Blockers(deps: seq<Dependency>, t: TaskId): set<TaskId> {
    set d | d in deps && d.task == t && d.kind == "blocks" :: d.dependsOn
  }

  // No blocker that exists is in an unsatisfied state; a dependency on a missing task blocks nothing.
  predicate Clear(tasks: map<TaskId, TaskRow>, deps: seq<Dependency>, t: TaskId) {
    forall b | b in Blockers(deps, t) && b in tasks :: Satisfies(tasks[b].status)
  }

  // The answer of the query, as the promise reads: dependents of the completed task that are clear.
  predicate Unlocked(tasks: map<TaskId, TaskRow>, deps: seq<Dependency>, completed: TaskId, t: TaskId) {
    completed in Blockers(deps, t) && Clear(tasks, deps, t)
  }

  // Row by row: some dependency blocks the task on the completed one, and whatever it is blocked on
  // is completed or canceled, or is not there.
  lemma UnlockedMeans(tasks: map<TaskId, TaskRow>, deps: seq<Dependency>, completed: TaskId, t: TaskId)
    ensures Unlocked(tasks, deps, completed, t) <==>
      (exists d :: d in deps && d == Dependency(t, completed, "blocks")) &&
      (forall b | Dependency(t, b, "blocks") in deps && b in tasks :: tasks[b].status in {Completed, Canceled})
  {
    forall b
      ensures b in Blockers(deps, t) <==> Dependency(t, b, "blocks") in deps
    {
      if b in Blockers(deps, t) {
        var d :| d in deps && d.task == t && d.kind == "blocks" && d.dependsOn == b;
        assert d == Dependency(t, b, "blocks");
      }
    }
  }

  predicate NoDuplicates(s: seq<TaskId>) {
    forall i, j | 0 <= i < j < |s| :: s[i] != s[j]
  }

  // The NOT EXISTS of the query: a join of the task's dependencies with the tasks they name.
  method NotExists(tasks: map<TaskId, TaskRow>, deps: seq<Dependency>, t: TaskId) returns (none: bool)
    ensures none == Clear(tasks, deps, t)
  {
    for i := 0 to |deps|
      invariant forall j | 0 <= j < i && deps[j].task == t && deps[j].kind == "blocks" && deps[j].dependsOn in tasks ::
        Satisfies(tasks[deps[j].dependsOn].status)
    {
      var d := deps[i];
      if d.task == t && d.kind == "blocks" && d.dependsOn in tasks &&
         !(tasks[d.dependsOn].status.Completed? || tasks[d.dependsOn].status.Canceled?) {
        assert d.dependsOn in Blockers(deps, t);
        return false;
      }
    }
    none := true;
  }

  // GetUnlockedTasks: each dependent once, and only those whose row can be resolved.
  method GetUnlockedTasks(store: PostgresStore, deps: seq<Dependency>, completed: TaskId) returns (items: seq<TaskId>)
    ensures forall t :: t in items <==> Unlocked(store.tasks, deps, completed, t) && t in store.tasks
    ensures NoDuplicates(items)
  {
    items := [];
    for i := 0 to |deps|
      invariant NoDuplicates(items)
      invariant forall t | t in items :: Unlocked(store.tasks, deps, completed, t) && t in store.tasks
      invariant forall j | 0 <= j < i && deps[j].dependsOn == completed && deps[j].kind == "blocks" &&
                           deps[j].task in store.tasks && Clear(store.tasks, deps, deps[j].task) ::
        deps[j].task in items
    {
      var d := deps[i];
      if d.dependsOn == completed && d.kind == "blocks" {
        var unlocked := NotExists(store.tasks, deps, d.task);
        if unlocked && d.task !in items && d.task in store.tasks {
          assert completed in Blockers(deps, d.task);
          items := items + [d.task];
        }
      }
    }
    forall t | Unlocked(store.tasks, deps, completed, t) && t in store.tasks
      ensures t in items
    {
      var d :| d in deps && d.task == t && d.kind == "blocks" && d.dependsOn == completed;
    }
  }

  // ----- no lost wake-up -----

  // What the outside sees of the tables: somebody writes a status, or a cascade asks.
  datatype Event = SetStatus(id: TaskId, status: Status) | Query(completed: TaskId)

  function Step(tasks: map<TaskId, TaskRow>, e: Event): map<TaskId, TaskRow> {
    if e.SetStatus? && e.id in tasks then tasks[e.id := PatchRow(tasks[e.id], e.status, [])] else tasks
  }

  function After(tasks: map<TaskId, TaskRow>, events: seq<Event>): map<TaskId, TaskRow> {
    if events == [] then tasks else Step(After(tasks, events[..|events|-1]), events[|events|-1])
  }

  predicate Satisfied(tasks: map<TaskId, TaskRow>, b: TaskId) {
    b in tasks && Satisfies(tasks[b].status)
  }

  // A blocker of t that was satisfied once stays satisfied.
  predicate Persistent(tasks: map<TaskId, TaskRow>, deps: seq<Dependency>, t: TaskId, events: seq<Event>) {
    forall b, i, j | b in Blockers(deps, t) && 0 <= i <= j <= |events| && Satisfied(After(tasks, events[..i]), b) ::
      Satisfied(After(tasks, events[..j]), b)
  }

  // Event i satisfies blocker b, which was not satisfied before.
  predicate CompletesAt(tasks: map<TaskId, TaskRow>, events: seq<Event>, i: int, b: TaskId)
    requires 0 <= i < |events|
  {
    !Satisfied(After(tasks, events[..i]), b) && Satisfied(After(tasks, events[..i + 1]), b)
  }

  // Whoever completes a blocker asks for unlocked tasks later on.
  predicate EachCompletionAsks(tasks: map<TaskId, TaskRow>, deps: seq<Dependency>, t: TaskId, events: seq<Event>) {
    forall i, b | b in Blockers(deps, t) && 0 <= i < |events| && CompletesAt(tasks, events, i, b) ::
      exists j :: i < j < |events| && events[j] == Query(b)
  }

  lemma {:induction false} SameTasks(tasks: map<TaskId, TaskRow>, events: seq<Event>)
    ensures After(tasks, events).Keys == tasks.Keys
  {
    if events != [] {
      SameTasks(tasks, events[..|events|-1]);
    }
  }

  lemma ClearStays(tasks: map<TaskId, TaskRow>, deps: seq<Dependency>, t: TaskId, events: seq<Event>, i: nat, j: nat)
    requires Persistent(tasks, deps, t, events) && i <= j <= |events|
    requires Clear(After(tasks, events[..i]), deps, t)
    ensures Clear(After(tasks, events[..j]), deps, t)
  {
    SameTasks(tasks, events[..i]);
    SameTasks(tasks, events[..j]);
    forall b | b in Blockers(deps, t) && b in After(tasks, events[..j])
      ensures Satisfies(After(tasks, events[..j])[b].status)
    {
      assert Satisfied(After(tasks, events[..i]), b);
      assert Satisfied(After(tasks, events[..j]), b);
    }
  }

  // The first event after which the task is clear satisfies one of its blockers.
  lemma {:induction false} FirstClear(tasks: map<TaskId, TaskRow>, deps: seq<Dependency>, t: TaskId,
      events: seq<Event>, n: nat)
      returns (i: nat, b: TaskId)
    requires n <= |events| && !Clear(tasks, deps, t) && Clear(After(tasks, events[..n]), deps, t)
    ensures i < n && b in Blockers(deps, t) && CompletesAt(tasks, events, i, b)
    ensures Clear(After(tasks, events[..i + 1]), deps, t)
  {
    assert events[..0] == [];
    assert n > 0;
    var before, now := After(tasks, events[..n - 1]), After(tasks, events[..n]);
    assert events[..n][..n - 1] == events[..n - 1] && events[..n][n - 1] == events[n - 1];
    assert now == Step(before, events[n - 1]);
    if Clear(before, deps, t) {
      i, b := FirstClear(tasks, deps, t, events, n - 1);
    } else {
      i := n - 1;
      b :| b in Blockers(deps, t) && b in before && !Satisfies(before[b].status);
      assert b in now;
    }
  }

  // No lost wake-up. A task that is blocked at first and clear at the end is returned by a query
  // of the trace: the last blocker to be satisfied asks after every other has been satisfied.
  lemma NoLostWakeup(tasks: map<TaskId, TaskRow>, deps: seq<Dependency>, t: TaskId, events: seq<Event>)
    requires t in tasks && !Clear(tasks, deps, t) && Clear(After(tasks, events), deps, t)
    requires Persistent(tasks, deps, t, events) && EachCompletionAsks(tasks, deps, t, events)
    ensures exists j :: 0 <= j < |events| && events[j].Query? &&
              t in After(tasks, events[..j]) && Unlocked(After(tasks, events[..j]), deps, events[j].completed, t)
  {
    assert events[..|events|] == events;
    var i, b := FirstClear(tasks, deps, t, events, |events|);
    var j :| i < j < |events| && events[j] == Query(b);
    ClearStays(tasks, deps, t, events, i + 1, j);
    SameTasks(tasks, events[..j]);
  }

  // An OnTopicComplete asks when it writes completed.
  predicate Asks(latest: TaskItem, reason: Reason) {
    var status := Lifecycle(latest, reason).0; status != latest.status && status.Completed?
  }

  // It does so once: a retry after the write finds the status it wants and returns before it asks,
  // so a completion whose attempt was lost in between is one that nobody asks about. On Postgres,
  // where the start of a schedule reads as NULL, it never does.
  lemma RetryNeverAsks(latest: TaskItem, again: TaskItem, row: TaskRow, reason: Reason)
    requires Asks(latest, reason) && again.status == Lifecycle(latest, reason).0
    ensures forall other: Reason :: !Asks(again, other)
    ensures !Asks(Resolve(row), reason)
  {
    assert again.status.Completed?;
    forall other: Reason
      ensures !Asks(again, other)
    {
    }
  }

  // ----- CascadeOnCompletion -----

  // The checkpoint gate: the task's own config lists its identifier.
  predicate Gated(r: TaskRow) {
    r.config.before.Some? && r.info.identifier in r.config.before.value
  }

  // The identifiers of the tasks of `ids` that are in `chosen`, in order.
  function Select(tasks: map<TaskId, TaskRow>, ids: seq<TaskId>, chosen: set<TaskId>): seq<string>
    requires forall t | t in ids :: t in tasks
  {
    if ids == [] then []
    else Select(tasks, ids[..|ids|-1], chosen) +
         if ids[|ids|-1] in chosen then [tasks[ids[|ids|-1]].info.identifier] else []
  }

  datatype CascadeResult = CascadeResult(started: seq<string>, paused: seq<string>)

  // containsString
  method ContainsString(haystack: seq<string>, needle: string) returns (found: bool)
    ensures found == (needle in haystack)
  {
    for i := 0 to |haystack|
      invariant needle !in haystack[..i]
    {
      if haystack[i] == needle {
        return true;
      }
    }
    found := false;
  }

  method Pause(store: PostgresStore, t: TaskId)
    requires t in store.tasks
    modifies store
    ensures store.tasks == old(store.tasks)[t := PatchRow(old(store.tasks)[t], Paused, [])]
    ensures store.links == old(store.links) && store.topics == old(store.topics)
  {
    var ok := store.UpdateStatus(t, Paused, []);
  }

  // The rows once those of `hold` among `ids` have been paused.
  function Held(tasks: map<TaskId, TaskRow>, ids: seq<TaskId>, hold: set<TaskId>): map<TaskId, TaskRow> {
    map t | t in tasks :: if t in ids && t in hold then PatchRow(tasks[t], Paused, []) else tasks[t]
  }

  function Free(tasks: map<TaskId, TaskRow>, ids: seq<TaskId>): set<TaskId>
    requires forall t | t in ids :: t in tasks
  {
    set t | t in ids && !Gated(tasks[t])
  }

  function Holding(tasks: map<TaskId, TaskRow>, ids: seq<TaskId>, failing: set<TaskId>): set<TaskId>
    requires forall t | t in ids :: t in tasks
  {
    set t | t in ids && Gated(tasks[t]) && t !in failing
  }

  lemma OneMore(tasks: map<TaskId, TaskRow>, ids: seq<TaskId>, i: nat, chosen: set<TaskId>)
    requires NoDuplicates(ids) && i < |ids| && forall t | t in ids :: t in tasks
    ensures Select(tasks, ids[..i + 1], chosen) ==
            Select(tasks, ids[..i], chosen) + if ids[i] in chosen then [tasks[ids[i]].info.identifier] else []
    ensures ids[i] in Held(tasks, ids[..i], chosen) && Held(tasks, ids[..i], chosen)[ids[i]] == tasks[ids[i]]
    ensures Held(tasks, ids[..i + 1], chosen) ==
            if ids[i] in chosen then Held(tasks, ids[..i], chosen)[ids[i] := PatchRow(tasks[ids[i]], Paused, [])]
            else Held(tasks, ids[..i], chosen)
  {
    assert ids[..i + 1] == ids[..i] + [ids[i]] && ids[..i + 1][..i] == ids[..i];
    assert ids[i] !in ids[..i];
  }

  // The loop over the unlocked tasks. `failing` are those whose pause the database refuses: they
  // land in neither list.
  method Sort(store: PostgresStore, ids: seq<TaskId>, failing: set<TaskId>) returns (result: CascadeResult)
    requires NoDuplicates(ids) && forall t | t in ids :: t in store.tasks
    modifies store
    ensures result.started == Select(old(store.tasks), ids, Free(old(store.tasks), ids))
    ensures result.paused == Select(old(store.tasks), ids, Holding(old(store.tasks), ids, failing))
    ensures store.tasks == Held(old(store.tasks), ids, Holding(old(store.tasks), ids, failing))
    ensures store.links == old(store.links) && store.topics == old(store.topics)
  {
    ghost var was := store.tasks;
    ghost var free, hold := Free(was, ids), Holding(was, ids, failing);
    var started, paused: seq<string> := [], [];
    assert ids[..0] == [] && Held(was, [], hold) == was;
    hide PatchRow, Held, Select;
    for i := 0 to |ids|
      invariant store.tasks == Held(was, ids[..i], hold)
      invariant store.links == old(store.links) && store.topics == old(store.topics)
      invariant started == Select(was, ids[..i], free)
      invariant paused == Select(was, ids[..i], hold)
    {
      var t := ids[i];
      OneMore(was, ids, i, free);
      OneMore(was, ids, i, hold);
      var row := store.tasks[t];
      var gate := false;
      if row.config.before.Some? {
        gate := ContainsString(row.config.before.value, row.info.identifier);
      }
      if !gate {
        started := started + [row.info.identifier];
      } else if t !in failing {
        Pause(store, t);
        paused := paused + [row.info.identifier];
      }
    }
    assert ids[..|ids|] == ids;
    result := CascadeResult(started, paused);
  }

  // The unlocked tasks, sorted into started and paused; only rows of paused ones change.
  method CascadeOnCompletion(store: PostgresStore, deps: seq<Dependency>, completed: TaskId, failing: set<TaskId>)
    returns (unlocked: seq<TaskId>, result: CascadeResult)
    modifies store
    ensures NoDuplicates(unlocked)
    ensures forall t :: t in unlocked <==> Unlocked(old(store.tasks), deps, completed, t) && t in old(store.tasks)
    ensures result.started == Select(old(store.tasks), unlocked, Free(old(store.tasks), unlocked))
    ensures result.paused == Select(old(store.tasks), unlocked, Holding(old(store.tasks), unlocked, failing))
    ensures store.tasks == Held(old(store.tasks), unlocked, Holding(old(store.tasks), unlocked, failing))
    ensures store.links == old(store.links) && store.topics == old(store.topics)
  {
    unlocked := GetUnlockedTasks(store, deps, completed);
    result := Sort(store, unlocked, failing);
  }

  // Where in `ids` the selected identifiers come from.
  function Positions(ids: seq<TaskId>, chosen: set<TaskId>): seq<int> {
    if ids == [] then []
    else Positions(ids[..|ids|-1], chosen) + if ids[|ids|-1] in chosen then [|ids| - 1] else []
  }

  // Selecting keeps the order, and takes every chosen task.
  lemma {:induction false} SelectKeepsOrder(tasks: map<TaskId, TaskRow>, ids: seq<TaskId>, chosen: set<TaskId>)
    requires forall t | t in ids :: t in tasks
    ensures var ps := Positions(ids, chosen);
      |ps| == |Select(tasks, ids, chosen)| &&
      (forall k | 0 <= k < |ps| :: 0 <= ps[k] < |ids| && ids[ps[k]] in chosen &&
                                   Select(tasks, ids, chosen)[k] == tasks[ids[ps[k]]].info.identifier) &&
      (forall j, k | 0 <= j < k < |ps| :: ps[j] < ps[k]) &&
      (forall i | 0 <= i < |ids| && ids[i] in chosen :: i in ps)
  {
    if ids != [] {
      var init := ids[..|ids|-1];
      SelectKeepsOrder(tasks, init, chosen);
      var ps, before := Positions(ids, chosen), Positions(init, chosen);
      forall i | 0 <= i < |ids| && ids[i] in chosen
        ensures i in ps
      {
        if i < |init| {
          assert init[i] in chosen && i in before;
        } else {
          assert ps[|before|] == i;
        }
      }
    }
  }

  lemma Selected(tasks: map<TaskId, TaskRow>, ids: seq<TaskId>, chosen: set<TaskId>, t: TaskId)
    requires t in ids && forall u | u in ids :: u in tasks
    requires forall u | u in ids && tasks[u].info.identifier == tasks[t].info.identifier :: u == t
    ensures tasks[t].info.identifier in Select(tasks, ids, chosen) <==> t in chosen
  {
    SelectKeepsOrder(tasks, ids, chosen);
    var ps, picked := Positions(ids, chosen), Select(tasks, ids, chosen);
    if t in chosen {
      var i :| 0 <= i < |ids| && ids[i] == t;
      assert i in ps;
      var k :| 0 <= k < |ps| && ps[k] == i;
      assert picked[k] == tasks[t].info.identifier;
    }
  }

  // Task by task: an unlocked task whose own config asks for a checkpoint before it is paused, and
  // listed unless that fails; every other is listed as started and left as it is.
  lemma CascadeTells(tasks: map<TaskId, TaskRow>, ids: seq<TaskId>, failing: set<TaskId>, t: TaskId)
    requires t in ids && forall u | u in ids :: u in tasks
    requires forall u | u in ids && tasks[u].info.identifier == tasks[t].info.identifier :: u == t
    ensures var row, hold := tasks[t], Holding(tasks, ids, failing);
      var waits := row.config.before != None && exists i :: 0 <= i < |row.config.before.value| &&
                                                     row.config.before.value[i] == row.info.identifier;
      && (row.info.identifier in Select(tasks, ids, Free(tasks, ids)) <==> !waits)
      && (row.info.identifier in Select(tasks, ids, hold) <==> waits && t !in failing)
      && Held(tasks, ids, hold)[t] == if waits && t !in failing
           then TaskRow(row.info, Paused, row.error, row.assignee, row.currentTopic, row.total, row.startedAt,
                        row.completedAt, row.heartbeat, row.config)
           else row
  {
    Selected(tasks, ids, Free(tasks, ids), t);
    Selected(tasks, ids, Holding(tasks, ids, failing), t);
  }

  // No identifier is both started and paused, identifiers being unique.
  lemma StartedAndPausedDisjoint(tasks: map<TaskId, TaskRow>, ids: seq<TaskId>, failing: set<TaskId>)
    requires forall t | t in ids :: t in tasks
    requires forall t, u | t in tasks && u in tasks && t != u :: tasks[t].info.identifier != tasks[u].info.identifier
    ensures forall name :: !(name in Select(tasks, ids, Free(tasks, ids)) &&
                             name in Select(tasks, ids, Holding(tasks, ids, failing)))
  {
    var free, hold := Free(tasks, ids), Holding(tasks, ids, failing);
    SelectKeepsOrder(tasks, ids, free);
    SelectKeepsOrder(tasks, ids, hold);
    forall j, k | 0 <= j < |Select(tasks, ids, free)| && 0 <= k < |Select(tasks, ids, hold)|
      ensures Select(tasks, ids, free)[j] != Select(tasks, ids, hold)[k]
    {
      assert ids[Positions(ids, free)[j]] in free && ids[Positions(ids, hold)[k]] in hold;
    }
  }
}
