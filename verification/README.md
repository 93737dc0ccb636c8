# Verification of the egent-lobehub state machines

A Dafny model of the parts of egent-lobehub whose correctness lies in how state changes over
time, with proofs of what those parts are for. `dafny verify dfyconfig.toml` checks everything.

* **MCP connection manager** (`McpProtocol`, `McpInvariants`, `McpTheorems`, `McpRivals`,
  `McpAnswers`, `McpLiveness`, `McpLoad`, `McpManager`, `McpSchedule`). Any number of threads run `ConnectServer`, `CallTool`
  with `reconnectServer` inside, and `Close` over one manager. One transition is one atomic action
  of the source: a lock, the closed flag, the map, the wait group, one remote operation. The class
  `Manager` has the source's functions perform these actions in place; `Execute` runs any schedule.
* **Durable task saga** (`TaskRows`, `TaskWorkflow`, `TaskTheorems`, `TaskOutcomes`,
  `TaskHistories`, `TaskInterleaving`, `TaskPostgres`, `TaskRunner`, `TaskMemory`, `TaskCascade`).
  The workflow as the statements it sends to the database, each activity at least once and cut
  short anywhere, with compensations that may or may not take effect, interleaved with other
  tasks; both stores as classes; the dependency cascade.
* **Layered agent config** (`ConfigTree`, `ConfigPaths`, `ConfigLayout`, `ConfigSharing`,
  `ConfigSync`, `ConfigHeap`). Merging as a function on trees and, over map objects that the merge overwrites and
  shares, as the source does it; what a second call makes of what the first one left.
* **Memory palace** (`PalaceRows`, `PalaceStore`, `PalaceSearch`). Parents and children over whole
  sequences of transactions, the update builders, and the search query compiler.
* **Workspaces** (`Workspaces`, `WorkspaceGrants`). Membership rows and relation tuples written one after the other,
  with every failure of the second write.
* **Text and ciphertext** (`Text`, `Template`, `TemplateOrder`, `Query`, `KeyVault`, `Truncate`). URL
  templates filled in map order, format detection of stored secrets, truncation at rune boundaries.

Where code and documentation disagree the model follows the code: `PostgresStore.UpdateStatus`
writes its fields even when the status is the same (its comment calls that a no-op, which only
`InMemoryStore` does, and there it loses the fields); `CascadeOnCompletion` looks for a task's
identifier in the task's own checkpoint list, not its parent's; a failed run ends `paused`, not
`failed`; `ListTuples` returns one page, not all tuples;
`BackfillModelConfig` copies the raw entries of the config into what it saves, but JSON has left them
out of the task it is sent, so that it saves the model alone; the truncation notice counts bytes and
calls them characters; failing three times in a row does not pause a heartbeat task, its count of
failures being raised on a copy.

## Model

| member | source | states |
|---|---|---|
| McpTheorems.RunKeepsInv | mcp/manager.go:134-448 | With no server name connected twice, every state of every interleaving satisfies the whole invariant: lock ownership, wait group count, session ownership, draining, connection chains |
| McpInvariants.StepKeepsInv | mcp/manager.go:134-448 | Each single atomic action of any of the three kinds of threads preserves that invariant |
| McpTheorems.NoSessionClosedTwice | mcp/manager.go:135-153 | For any threads, server names connected twice included, in every reachable state: no session has been closed twice, what is published or in a thread's hands is open, and no session is in two places |
| McpTheorems.EverySessionInOnePlace | mcp/manager.go:135-153 | With no server name connected twice, a session is open exactly when it is published or owned by a thread that will publish or close it |
| McpTheorems.NothingOpenAtTheEnd | mcp/manager.go:421-448 | Once `Close` was called and every thread has returned, the map is empty and every session ever opened has been closed exactly once |
| McpTheorems.SharedNameLeaks | mcp/manager.go:150-152 | Two `ConnectServer` calls for one name have a run after which the first session is open, unpublished and owned by nobody |
| McpTheorems.LeakFreeIffNamesDistinct | mcp/manager.go:135-153 | Every open session has an owner in every run exactly when no two `ConnectServer` calls share a name |
| McpTheorems.CallsDrainBeforeSweep | mcp/manager.go:422-436 | For any threads: when `Close` closes sessions, every call registered before the flag flipped has returned; a call not started by then is refused at its first check; a call in flight all the same had passed its second check under the read lock when the flag flipped |
| McpTheorems.ReconnectMovesForward | mcp/manager.go:367-419 | For any threads: `reconnectServer` answers with a strictly later link of the server's connection chain than the stale one, never with "not found"; under the write lock the map still has a connection for the server |
| McpRivals.NeverOvertakenIffOneConnect | mcp/manager.go:401-413 | Under the write lock the map still holds the stale connection itself, in every run, exactly when at most one `ConnectServer` is called for the server's name |
| McpRivals.Overtaken | mcp/manager.go:401-407 | With two, a run takes the branch "someone else already replaced it" under the write lock |
| McpTheorems.ReplacedWasLast | mcp/manager.go:408-413 | A connection that is replaced was the last link of its chain, and the chain is longer afterwards, even when names are connected twice |
| McpTheorems.ReplacedAtMostOnce | mcp/manager.go:401-413 | In any run, of any threads, a connection is replaced at most once |
| McpTheorems.ChainGrowsOverRun | mcp/manager.go:150-152 | The chain of connections published under a name only ever grows at its end |
| McpLiveness.NoDeadlock | mcp/manager.go:309-419 | In a state where some thread has not returned, some thread can act, without relying on a reader that Go would hold back for a waiting writer |
| McpLiveness.RunsNeverStick | mcp/manager.go:309-448 | That holds after every run, even when names are connected twice |
| McpLiveness.EveryThreadFinishes | mcp/manager.go:309-448 | In any run a connecting thread takes at most 5 actions, a calling thread at most 20, a closing thread at most 6 plus the number of names |
| McpLiveness.RunsTerminate | mcp/manager.go:309-448 | The length of any run plus the work left is bounded by the work at the start |
| McpLiveness.TwoCallsOneDial | mcp/manager.go:309-355 | A `CallTool` makes at most two remote calls and at most one connection attempt |
| McpAnswers.CallAnswers | mcp/manager.go:309-355 | In any run a returned `CallTool` gave the result exactly when a remote call was answered, the call error exactly when one failed otherwise or the session was lost twice, the error of `connectServer` exactly when that failed; "closed" only from a closed manager, "not found" only before any remote call |
| McpAnswers.NotFoundIffMissing | mcp/manager.go:320-328 | "Not found" is the answer exactly when the map had no such server at the one lookup |
| McpAnswers.RetriesOnLaterLink | mcp/manager.go:341-350 | The second remote call goes to a connection published after that of the first |
| McpAnswers.ConnectAnswers | mcp/manager.go:135-153 | A returned `ConnectServer` failed to connect exactly when it got no session; with one it succeeded exactly when that was published under its name, and was turned away by a closed manager exactly when it was closed instead |
| McpAnswers.CloseAnswers | mcp/manager.go:422-448 | A returned `Close` leaves a closed manager |
| McpLoad.MapShowsConnected | mcp/manager.go:118-123 | The map shows exactly the servers whose `ConnectServer` succeeded, through any calls and reconnects, until `Close` has emptied it for good |
| McpLoad.LoadVerdict | mcp/manager.go:99-123 | Among any other threads a load returns an error exactly when one of its connects failed and either no connect of anybody has succeeded or `Close` has emptied the map |
| McpLoad.LoadFailsIffAllFailed | mcp/manager.go:65-123 | When nobody else connects to the manager or closes it, `LoadFromConfig` returns an error exactly when servers are enabled and every one of them failed, in every interleaving, with calls going on |
| McpLoad.LoadNeverLeaks | mcp/manager.go:81-108 | The concurrent connects of one load never lose a session, its names being the keys of a map |
| McpManager.Manager.Act | mcp/manager.go:134-448 | Whatever a thread may do next, the object does it with the protocol's effect, about whose answers `McpAnswers` speaks, and keeps its invariant |
| McpManager.Manager.Replace | mcp/manager.go:401-418 | Of the stale connection and its replacement one ends up in the map; the other is still open, is published under no name, and is the one that the thread then closes |
| McpManager.Manager.Close | mcp/manager.go:434-442 | Each round of the loop closes a session that was open, for the first time; when the loop ends it has done so for every entry of the map |
| McpSchedule.Execute | mcp/manager.go:134-448 | Any legal schedule of the methods on a new manager ends in the protocol's state; every returned call gave what the servers' answers account for, no session is closed twice, each thread stays within its bound, and after `Close` and all returns every session is closed exactly once |
| TaskTheorems.Absorbed | runtime/task/activities.go:276-405 | An attempt of any activity that was lost after any of its statements leaves no trace once the activity has succeeded |
| TaskTheorems.Retried | runtime/task/workflow.go:107-114 | However many attempts came before, an activity has the effect of its last attempt alone |
| TaskTheorems.PatchTwice | runtime/task/pg_store.go:153-173 | Sending the same `UpdateStatus` again changes nothing |
| TaskTheorems.ExactlyOnceRun | runtime/task/workflow.go:69-398 | A run with any number of lost attempts, successful or failed, leaves the very rows of the run in which each activity ran once |
| TaskHistories.ExactlyOnce | runtime/task/workflow.go:69-398 | Whole histories of runs of any tasks, one after the other, leave the very rows of the histories in which each activity ran once, whether their topics are new or were linked before |
| TaskHistories.RunKeepsQuiet | runtime/task/workflow.go:331-366 | When a run is over no topic is running, whatever its outcome and whatever topic it brought |
| TaskTheorems.CompletedAgain | runtime/task/activities.go:276-351 | On Postgres, completing a topic a second time, for any reason, moves the heartbeat and nothing else |
| TaskOutcomes.CompletionTells | runtime/task/activities.go:276-450 | On Postgres a completion for any reason: the status that each reason leads to, the outcome of the topic, the heartbeat, and nothing else; no task is ever completed or paused for failing too often, since neither count nor schedule start is read |
| TaskOutcomes.SilentTopicsFail | runtime/task/workflow.go:194-205 | Step 1d fails exactly the running topics that some effective attempt found silent for longer than the timeout |
| TaskOutcomes.SuccessfulRun | runtime/task/workflow.go:217-366 | After a successful run the task row, every link and every topic row are given in closed form: scheduled or paused, error cleared, one topic more counted, linked under the next ordinal and completed, its row with the task's owner and name |
| TaskOutcomes.TopicCounted | runtime/task/workflow.go:331-366 | A topic is counted and linked exactly when the agent names one and the run continues none; no other link changes |
| TaskOutcomes.FailedRun | runtime/task/workflow.go:302-320 | After a failed run, whichever compensations took effect, the row is paused with the truncated error and no topic row or link differs |
| TaskWorkflow.TruncatedIs | runtime/task/workflow.go:459-465 | What is stored of an error is the message without the white space around it, in full when it is not too long, else its first `max` bytes and an ellipsis |
| TaskWorkflow.Unpadded | runtime/task/workflow.go:459-465 | Every message is such a text with white space around it |
| TaskOutcomes.ErrorKept | runtime/task/workflow.go:302-313 | After a failed run the task is paused with that of the agent's error, cut at 500 bytes |
| TaskOutcomes.NothingGained | runtime/task/workflow.go:141-164 | On Postgres a reader finds a failed run's task as it was but for the pause, the error and a backfilled config; topic rows and `current_topic_id` are untouched; the assignee column is as it was exactly unless it was NULL and its rollback took effect |
| TaskOutcomes.ConfigKeptIff | runtime/task/activities.go:642-679 | A run takes the agent's model exactly when model or provider is missing and the agent has one; it keeps the rest of the config exactly when it does not, or when there was no rest |
| TaskOutcomes.CapLost | runtime/task/types.go:240-247 | A run that writes over the cap of a task that had no model |
| TaskOutcomes.CompensatedRows | runtime/task/workflow.go:431-440 | What the reverse run of any subset of the compensations makes of the row |
| TaskHistories.RunKeepsConsistent | runtime/task/workflow.go:331-366 | No running topic and ordinals exactly 1 to `total_topics` are kept by a run exactly when the topic it links, if any, was not linked before |
| TaskHistories.StaleTopicMiscounts | runtime/task/pg_store.go:243-250 | Linking a topic that is linked already counts it twice |
| TaskHistories.HistoryKeepsConsistent | runtime/task/workflow.go:331-366 | Between the runs of any history with fresh topics nothing is running and the topics of every task are numbered 1 to `total_topics` |
| TaskHistories.OneTopicAtATime | runtime/task/workflow.go:166-192 | After every single statement of every run of a history that starts with no topic running, lost attempts included, at most one topic is running |
| TaskHistories.OthersUntouched | runtime/task/pg_store.go:153-261 | At every statement of a run the rows of any other task are what they were |
| TaskInterleaving.OnlyOwnStatements | runtime/task/pg_store.go:153-277 | However statements about several tasks are interleaved, a task's rows are those that its own statements make |
| TaskInterleaving.PlanByOwnRows | runtime/task/workflow.go:116-205 | What a run sends depends on its own task's rows alone |
| TaskInterleaving.InterleavedHistory | runtime/task/workflow.go:69-398 | A task whose runs are serialised ends, interleaved with anything done to other tasks, with the rows of its history alone |
| TaskInterleaving.InterleavedExactlyOnce | runtime/task/workflow.go:69-398 | So a task with no topic running at first ends with its exactly-once rows and no topic running, in the middle of everybody else's runs and whatever topics its runs brought |
| TaskInterleaving.InterleavedNumbering | runtime/task/pg_store.go:243-250 | With new topics its ordinals stay 1 to `total_topics` there as well |
| TaskPostgres.PostgresStore.UpdateStatus | runtime/task/pg_store.go:153-173 | The statement built clause by clause assigns every field to its own column and no other; an unknown field or a repeated column means an error and no write |
| TaskPostgres.PostgresStore.SetRow | runtime/task/pg_store.go:158-168 | Executing the clauses against the arguments patches the row with exactly the given fields |
| TaskPostgres.DistinctColumns | runtime/task/pg_store.go:154-165 | The built statement assigns no column twice exactly when the fields are accepted |
| TaskPostgres.PostgresStore.AddTaskTopic | runtime/task/pg_store.go:207-253 | Inserts the topic and the link where they are missing and leaves existing rows alone; fails without a task row |
| TaskPostgres.PostgresStore.UpdateTaskTopicStatus | runtime/task/pg_store.go:256-261 | Changes the status of the one link, if it exists |
| TaskPostgres.PostgresStore.UpdateHeartbeat | runtime/task/pg_store.go:272-277 | Stamps the one task row |
| TaskPostgres.PostgresStore.UpdateTaskConfig | runtime/task/pg_store.go:176-184 | Replaces the config of the one task row |
| TaskPostgres.PostgresStore.TimeoutRunningTopics | runtime/task/pg_store.go:304-317 | Fails exactly the running topics of the task whose heartbeat is older than the limit and returns their number |
| TaskPostgres.PostgresStore.ListRunningTopics | runtime/task/pg_store.go:280-301 | Returns exactly the running topics of the task, each once, with their columns and in the order of `seq` |
| TaskRunner.OnTopicComplete | runtime/task/activities.go:276-405 | Sends the three statements of a completion in order; the status it returns is the one in the row; it completes no task that was not completed |
| TaskRunner.Transition | runtime/task/activities.go:331-351 | The transition writes the computed status, or nothing when it is the current one |
| TaskRunner.ExecuteActivity | runtime/task/workflow.go:107-114 | What an activity sends is its lost attempts, each cut short after some statement, followed by one whole attempt |
| TaskRunner.RunCompensations | runtime/task/workflow.go:431-440 | The downward loop executes the compensations from the last registered to the first |
| TaskRunner.Backfill | runtime/task/activities.go:642-679 | Writes the agent's model only when one is missing, and with it the raw entries of the task that it was sent, of which JSON has left none |
| TaskRunner.Prepare | runtime/task/workflow.go:216-265 | Sets the task running with its error cleared, unless it is running without an error, and then backfills the model |
| TaskWorkflow.Conflicting | runtime/task/workflow.go:166-192 | The listed topics conflict with a run exactly when it continues one of them, or there is one and it continues none |
| TaskRunner.Finish | runtime/task/workflow.go:331-366 | Counts and links a topic of the run's own, stamps the heartbeat and completes the topic, in this order |
| TaskRunner.GiveUp | runtime/task/workflow.go:302-313 | Compensates in reverse order and then writes the pause with the error as `TaskWorkflow.TruncatedIs` has it |
| TaskRunner.TaskRunWorkflow | runtime/task/workflow.go:69-398 | The workflow step by step sends exactly the plan on which the results above are proved, and answers as it should in each of its exits |
| TaskRunner.AnswerTells | runtime/task/workflow.go:116-366 | What each answer of a run says: why it was refused with nothing changed, or that it was admitted, and how it left its task |
| TaskRunner.RunHistory | runtime/task/workflow.go:69-398 | Runs one after the other leave the state that the results on histories speak of |
| TaskMemory.InMemoryStore.UpdateStatus | runtime/task/store.go:214-269 | The same status is no write at all; otherwise the status is set and the fields up to the first unknown one, seen under every key of the task and of no other; errors exactly when told so |
| TaskMemory.InMemoryStore.UpdateTaskTopicStatus | runtime/task/store.go:320-328 | Marks the first row of the topic and no other |
| TaskMemory.InMemoryStore.UpdateHeartbeat | runtime/task/store.go:342-348 | Stamps the task and changes nothing else of it |
| TaskMemory.InMemoryStore.ListRunningTopics | runtime/task/store.go:351-359 | The running rows of the task, in the order in which they were added |
| TaskMemory.InMemoryStore.OnTopicComplete | runtime/task/activities.go:276-405 | Over the in-memory store the returned status is the one stored, and the topic row gets its outcome |
| TaskMemory.SettledStatus | runtime/task/activities.go:410-450 | The transition stores the computed status and beyond it touches only the completion time of a newly completed task |
| TaskMemory.SettledTells | runtime/task/activities.go:410-450 | The status that each reason leads to: only a schedule at its cap is completed, a heartbeat task is paused from the third failure counted on |
| TaskMemory.TerminatedIff | runtime/task/activities.go:410-450 | A completion terminates the task exactly when it completes a capped schedule, was interrupted, or blows the fuse |
| TaskMemory.FuseNeverFills | runtime/task/activities.go:431-442 | The failure count is raised on a copy and never stored: any number of failures in a row leaves the task as it was, unless two were stored before the first |
| TaskMemory.CompleteTwice | runtime/task/activities.go:276-351 | On the in-memory store a second completion, for any reason, changes nothing of the task |
| TaskMemory.MarkTwice | runtime/task/store.go:320-328 | On the in-memory store a second completion changes nothing of the topic rows either |
| TaskMemory.SecondLinkStays | runtime/task/store.go:307-328 | A topic linked a second time has a second row that no completion reaches: it stays running whatever the first is marked with |
| TaskMemory.FailureInMemory | runtime/task/workflow.go:298-320 | On the in-memory store a failed run ends paused, its config backfilled, and its error is lost exactly when the task was paused before, the assignee rollback took effect and the rollback to paused did not |
| TaskMemory.FailureKeepsError | runtime/task/workflow.go:298-313 | If the two compensations take effect together or not at all, a failed run on the in-memory store ends paused with its error, which is that of `TaskMemory.ErrorKept` |
| TaskMemory.ErrorKept | runtime/task/workflow.go:298-313 | Where the error is not lost it is the agent's message without the white space around it, cut at 500 bytes |
| TaskMemory.LoneRollbackLosesError | runtime/task/store.go:231-265 | A rollback of the assignee alone loses the error of every paused task without assignee |
| TaskMemory.FailedRun | runtime/task/workflow.go:116-320 | A run over the in-memory store whose agent fails leaves exactly the task about which the loss of the error is decided, or none of it when a running topic is in the way |
| TaskMemory.RunCompensations | runtime/task/workflow.go:431-440 | Over the in-memory store the downward loop rolls the status back to paused before it rolls the assignee back |
| TaskCascade.GetUnlockedTasks | runtime/task/pg_store.go:321-356 | Returns, each once, exactly the resolvable dependents of the completed task none of whose existing blockers is unsatisfied |
| TaskCascade.UnlockedMeans | runtime/task/pg_store.go:319-352 | A task is unlocked exactly when a dependency blocks it on the completed one and every existing task that it is blocked on is completed or canceled |
| TaskCascade.NoLostWakeup | runtime/task/pg_store.go:321-356 | Over any interleaving of status writes and cascade queries, if whoever completes a blocker asks afterwards and satisfied blockers stay satisfied, an existing task that ends clear is returned by some query |
| TaskCascade.RetryNeverAsks | runtime/task/activities.go:331-389 | An `OnTopicComplete` retried after its write of completed never asks, so a completion whose attempt was lost in between is one nobody asks about; on Postgres none ever does |
| TaskCascade.FirstClear | runtime/task/pg_store.go:327-333 | The event after which a task is first clear satisfies one of its blockers |
| TaskCascade.CascadeOnCompletion | runtime/task/activities.go:479-511 | Splits the unlocked tasks into started and paused ones and changes only the rows of the paused ones; a refused pause lands in neither list |
| TaskCascade.CascadeTells | runtime/task/activities.go:481-511 | Task by task: one whose own config asks for a checkpoint before it is paused and listed, unless that fails; every other is listed as started and left alone |
| TaskCascade.SelectKeepsOrder | runtime/task/activities.go:491-509 | Both lists keep the order of the unlocked tasks and leave no chosen task out |
| TaskCascade.StartedAndPausedDisjoint | runtime/task/activities.go:491-509 | No task is both started and paused |
| TaskCascade.ContainsString | runtime/task/activities.go:513-520 | Finds exactly the members of the list |
| ConfigTree.LayersStable | config/config.go:75-96 | Merging any number of layers onto their own result gives the same tree, whatever mix of maps and plain values each key holds |
| ConfigTree.ResolvingAgain | config/config.go:59-73 | Resolving the same layers again with the overwritten defaults gives the same config |
| ConfigTree.NextAgent | config/config.go:59-73 | Resolving other layers with the overwritten defaults gives what fresh defaults would give exactly when those layers leave nothing of what tells the two apart |
| ConfigTree.ForgottenIffSame | config/config.go:77-96 | Two starts end alike exactly when at every key where they differ a layer holds a plain value, or layers hold maps that end alike below |
| ConfigTree.InOrder | config/config.go:51-73 | A resolved config is defaults, then server, then the cleaned user layer unless a workspace is asked for, then the cleaned agent layer |
| ConfigPaths.ConfigByPath | config/config.go:59-122 | The resolved config says at any path what the agent's layer says there, else the user's unless a workspace is given, else the server's, else the defaults; nil, empty strings and empty lists at the top of the first two say nothing |
| ConfigPaths.MergeByPath | config/config.go:77-96 | A merge says at any path what its right side says, and what the left side does where the right one has no key |
| ConfigPaths.AgentDecides | config/config.go:101-122 | A plain value of the agent's that is not nil and not empty is the config's |
| ConfigPaths.AgentYields | config/config.go:101-122 | Where the agent's value is nil or empty the config is that of the layers below |
| ConfigTree.AssociativeIffGrouped | config/config.go:84-94 | Both groupings of three merges agree exactly when, wherever a plain value stands between two maps, the last map covers the first |
| ConfigTree.CoveredAddsNothing | config/config.go:84-94 | Merging c into a leaves just c exactly when every key of a is one of c's, at every depth |
| ConfigHeap.DeepMerge | config/config.go:77-96 | The in-place merge leaves the objects of the left side holding the merged tree; the right side is unchanged, as is every object outside the maps that both have, even where the two share maps |
| ConfigLayout.MergedConfig | config/config.go:77-96 | What those objects hold is the merge of the two trees |
| ConfigSync.UpdSync | config/config.go:84-94 | Configs that share maps at equal paths only still do so after a merge into any of them |
| ConfigHeap.UpdStored | config/config.go:84-94 | What a merge makes of any other config that shares maps with its left side: an object of both holds the merge, any other what it held |
| ConfigHeap.LaterLayersWriteEarlierMaps | config/config.go:93-93 | A nested map that an earlier layer brought in is the very object that a later layer is merged into |
| ConfigHeap.CleanNil | config/config.go:101-122 | Copies exactly the entries that are not nil, not an empty string and not an empty list of either type, sharing nested maps, and leaves its argument alone |
| ConfigHeap.MergeAgentConfig | config/config.go:59-73 | Returns nil for a nil agent, else the defaults' own object after the three merges, the agent's layer copied before the user's is merged, telling what becomes of every layer, also of layers that are one map; with layers that share nothing the config is the resolved one of the initial values, the one of `ConfigPaths.ConfigByPath`, and no map of the agent's layer is written |
| ConfigHeap.ResolveTwice | runtime/task/agent_executor.go:176-203 | Two calls on the very same objects, with all the maps that they share after the first, give the same config exactly when no user layer or no server layer is merged, or the user's has no plain value between a map of the server's and one of the agent's to which the former would add |
| ConfigSharing.StableIff | config/config.go:59-96 | The same for the layers as merged: stable exactly when, wherever all have maps down to a plain value of the user's between two maps, the server's map repeats the agent's |
| ConfigSharing.PlainValueLetsThrough | config/config.go:84-94 | After such a plain value the second call leaves the agent's own map, and the result, with the server's map merged into the agent's under that key, whatever the defaults |
| ConfigSharing.FirstCall | config/config.go:59-73 | On layers that share nothing the first call gives the config of the trees and leaves the agent's objects as they were |
| PalaceRows.RunKeepsPaired | memory/palace/pgstore.go:167-429 | Over any sequence of creates, updates, deletes and delete-alls, parents and children stay in bijection, each child in the table of its parent's layer and with its user |
| PalaceRows.AsManyParents | memory/palace/pgstore.go:654-717 | There are as many parents as children |
| PalaceRows.CreateInserts | memory/palace/pgstore.go:76-92 | A create that finds its ids free inserts one parent and one child with what it was given; the caller's id is the parent's, but for contexts |
| PalaceRows.UpdateWrites | memory/palace/pgstore.go:433-496 | An update writes the given columns of the user's own row over what they were, and nothing else |
| PalaceRows.DeleteTakesBoth | memory/palace/pgstore.go:690-712 | No other child ever names the deleted child's parent, so a delete always takes both rows |
| PalaceRows.CreateThenDelete | memory/palace/pgstore.go:76-92 | Deleting what was just created restores the tables |
| PalaceRows.DeleteAllLasts | memory/palace/pgstore.go:747-781 | After a delete-all the user has no row until that user creates one, whatever others do |
| PalaceRows.OthersUntouched | memory/palace/pgstore.go:747-781 | No operation of one user touches a row of another |
| PalaceStore.PgStore.Create | memory/palace/pgstore.go:76-278 | Parent and child are both inserted or neither is: when an id is taken nothing is written and no existing row is overwritten; a given id is used, a missing one generated |
| PalaceStore.PgStore.CreateIdentity | memory/palace/pgstore.go:167-215 | The same, for valid identity types only |
| PalaceStore.PgStore.DeleteChild | memory/palace/pgstore.go:654-717 | Removes the user's child row and, when no child is left, the parent; `ErrNotFound` without such a row |
| PalaceStore.PgStore.DeleteAll | memory/palace/pgstore.go:747-781 | Removes every row of the user in all tables, and none of another's, in one transaction |
| PalaceStore.CollectedExactly | memory/palace/pgstore.go:433-496 | An update writes exactly the fields that are not nil, each with its own value |
| PalaceStore.Push | memory/palace/pgstore.go:440-444 | Each step keeps `idx` one past the arguments and every placeholder in range, and adds its own field only |
| PalaceStore.PgStore.ExecUpdate | memory/palace/pgstore.go:479-495 | No statement without fields; otherwise the one row gets the assigned columns, or `ErrNotFound` |
| PalaceStore.PgStore.UpdateIdentity | memory/palace/pgstore.go:433-496 | Writes exactly the given fields of an identity; an invalid type is refused |
| PalaceStore.IdentityColumns | memory/palace/pgstore.go:433-496 | Each given field of the identity goes to its own column, the others and all other columns keep theirs |
| PalaceStore.PgStore.UpdateActivity | memory/palace/pgstore.go:499-535 | Writes exactly the given fields of an activity |
| PalaceStore.ActivityColumns | memory/palace/pgstore.go:499-535 | Each given field of the activity goes to its own column, the others and all other columns keep theirs |
| PalaceStore.PgStore.UpdateContext | memory/palace/pgstore.go:538-574 | Writes exactly the given fields of a context |
| PalaceStore.ContextColumns | memory/palace/pgstore.go:538-574 | Each given field of the context goes to its own column, the others and all other columns keep theirs |
| PalaceStore.PgStore.UpdateExperience | memory/palace/pgstore.go:577-613 | Writes exactly the given fields of an experience |
| PalaceStore.ExperienceColumns | memory/palace/pgstore.go:577-613 | Each given field of the experience goes to its own column, the others and all other columns keep theirs |
| PalaceStore.PgStore.UpdatePreference | memory/palace/pgstore.go:616-647 | Writes exactly the given fields of a preference |
| PalaceStore.PreferenceColumns | memory/palace/pgstore.go:616-647 | Each given field of the preference goes to its own column, the others and all other columns keep theirs |
| PalaceSearch.Search | memory/palace/search.go:53-136 | Every placeholder is in range, and the compiled WHERE clause selects a row exactly when it passes the filters that the caller gave; similarity ranks, and the text stops filtering, exactly when there is a vector |
| PalaceSearch.InPlaceholders | memory/palace/search.go:201-209 | One placeholder per value, numbered on from `idx`, each pointing at its value |
| PalaceSearch.AddIn | memory/palace/search.go:112-120 | An optional IN filter narrows the selection by exactly its list |
| PalaceSearch.AddStatus | memory/palace/search.go:94-99 | Without statuses only active rows are selected |
| PalaceSearch.AddText | memory/palace/search.go:101-110 | The text of the query narrows the selection by the text match, through one argument, exactly when nothing is ranked |
| PalaceSearch.AddTags | memory/palace/search.go:121-125 | Tags narrow the selection to rows that share one |
| PalaceSearch.Narrowed | memory/palace/search.go:92-125 | Appending a condition and its arguments leaves what earlier placeholders mean unchanged |
| Workspaces.SuccessKeepsMirrored | workspace_handlers.go:149-218 | After an operation that reports success, rows and tuples agree exactly when the listing it deleted from was complete |
| Workspaces.RunKeepsMirrored | workspace_handlers.go:149-582 | Over any sequence of successful or refused operations with complete listings, users with a row are users with a tuple, each row's role has its tuple, and rows belong to workspaces |
| Workspaces.TableGrantsNoMore | workspace_handlers.go:110-132 | The table fallback never grants a permission that the tuple store would not |
| Workspaces.StoreSeesNoStrangers | workspace_handlers.go:110-132 | Whoever the tuple store grants anything may at least view by the table |
| WorkspaceGrants.WriteGrants | workspace_handlers.go:149-288 | A create, a membership change or a registration grants in the tuple store exactly what the role entitles to, to the one member, when the tuple write succeeds, and nothing when it fails |
| WorkspaceGrants.RemovalRevokes | workspace_handlers.go:292-505 | A successful removal that saw all tuples takes everything from whom it is after, and nothing from others |
| WorkspaceGrants.RemovalTuples | workspace_handlers.go:292-329 | A removal deletes exactly the tuples that it was after, was told of and could delete, and reports success exactly when it could delete all of those |
| WorkspaceGrants.TableGrants | workspace_handlers.go:110-132 | By the table a member has exactly what the role given last entitles to, and a removed one nothing |
| WorkspaceGrants.WhoMay | workspace_handlers.go:222-505 | Membership changes and deletion are refused exactly to those who hold no owner tuple, nobody removes oneself, the last owner cannot leave; what is refused changes nothing |
| WorkspaceGrants.WorkspacesKept | workspace_handlers.go:149-582 | Which workspaces there are after an operation, and what they are called |
| WorkspaceGrants.AgreeIffMatched | workspace_handlers.go:110-132 | With rows and tuples in step, the store and the table grant the very same permissions exactly when no tuple outranks its row; one tuple each is enough (`OneTupleMatches`) |
| WorkspaceGrants.MatchedIffNotOvertaken | workspace_handlers.go:265-283 | A successful operation keeps that agreement exactly unless it demotes somebody, whose old tuple stays, or registers again somebody who no longer owns the own workspace |
| WorkspaceGrants.RunKeepsMatched | workspace_handlers.go:149-582 | So over any run without such a demotion |
| Workspaces.BackedUnlessStranded | workspace_handlers.go:203-215 | Whatever fails in an operation, every row's role keeps its tuple exactly unless a row was written whose tuple was neither there nor written |
| Workspaces.RunNeverGrantsMore | workspace_handlers.go:110-132 | Over any run, failed clean-ups and partial listings included, the table grants no more than the tuple store as long as no row is stranded without its tuple |
| Workspaces.RetryBacks | workspace_handlers.go:265-283 | Repeating a half-done membership change mends it |
| Workspaces.LeaveKeepsAnOwner | workspace_handlers.go:466-496 | Leaving never takes the last owner row |
| Workspaces.BootstrapTwice | workspace_handlers.go:538-579 | Registering twice provisions once |
| Workspaces.Backend.CreateWorkspace | workspace_handlers.go:149-218 | Inserts workspace and owner row together or neither, then the owner tuple; state and answer are those of the operation on which the results about runs are proved, whether or not the tuple write fails |
| Workspaces.Backend.WorkspaceMembers | workspace_handlers.go:222-288 | Only who may manage by the tuple store sets a member's row and then adds the tuple of the new role, keeping old ones; state and answer are the operation's, whether or not the tuple write fails, and what that grants is `WorkspaceGrants.WriteGrants` |
| Workspaces.Backend.RemoveMemberHandler | workspace_handlers.go:381-440 | A manager, never removing oneself, removes the row and then every listed tuple of the member; state and answer are the operation's, whichever deletions fail |
| Workspaces.Backend.LeaveHandler | workspace_handlers.go:444-505 | A member removes the own row and listed tuples, a sole owner is refused; state and answer are the operation's |
| Workspaces.Backend.DeleteWorkspace | workspace_handlers.go:333-376 | A manager removes the workspace with all its rows and then its listed tuples; state and answer are the operation's |
| Workspaces.Backend.BootstrapHandler | workspace_handlers.go:513-582 | Adds the default workspace and its owner row where missing, then the owner tuple; state and answer are the operation's |
| Workspaces.Backend.DeleteListed | workspace_handlers.go:301-308 | Every listed tuple is tried, whatever became of the others, and the answer tells whether one is left |
| Workspaces.Backend.CheckMembership | workspace_handlers.go:110-132 | The fallback grants by role as documented, and only what the tuple store would grant when rows are backed |
| Template.OrderDoesNotMatter | tool/api_tool.go:90-98 | For templates whose braces do not nest, replacing parameters one by one in any order and dropping what is left equals substituting all at once |
| TemplateOrder.UrlSameIffSettled | tool/api_tool.go:90-98 | A template whose holes make no new ones gives one URL in all orders, for any arguments; of the templates without "{}", stray braces or not, no other does |
| TemplateOrder.UrlSameIffPlain | tool/api_tool.go:90-98 | For balanced templates without "{}" that is when no brace opens inside an open one |
| TemplateOrder.LoopSameIffSettled | tool/api_tool.go:90-95 | Any template at all comes out of the loop the same in all orders, for any arguments, exactly when filling its holes makes no new hole |
| TemplateOrder.Nested | tool/api_tool.go:90-98 | Every template without "{}" in which filling the holes makes a new one has arguments and two orders that give two URLs |
| TemplateOrder.Hidden | tool/api_tool.go:96-98 | A template with "{}" that makes a new hole and has one URL all the same |
| Template.Substitute | tool/api_tool.go:90-98 | The loop, with Go's arbitrary choice of the next parameter, gives the URL of some order; for templates that settle it fills all holes as if at once, and for plain ones it is the one-pass substitution |
| Template.ReplaceOne | tool/api_tool.go:91-95 | Replacing one parameter in a partly filled template fills exactly its own holes when no other opening brace has become the start of one |
| Template.EscapedHasNoBraces | tool/api_tool.go:93-93 | Escaped values hold no braces |
| Template.EscapeReadsBack | tool/api_tool.go:93-93 | An escaped value reads back, percent-decoded, as the value |
| Template.EscapedIsSegment | tool/api_tool.go:93-93 | An escaped value holds nothing that ends the path segment, the query or the URL |
| Template.SettledLoop | tool/api_tool.go:90-95 | In a template whose holes make no new ones, stray braces or not, the loop fills all holes as if at once |
| Query.CleanKeepsParams | tool/api_tool.go:168-192 | Cleaning keeps the base and, in order, exactly the parameters that have a value |
| Query.HasValueIff | tool/api_tool.go:180-185 | A parameter stays exactly when it is a name, an equals sign and a value that is not empty |
| Query.WithValuesConcat | tool/api_tool.go:177-187 | What is left of a list of parameters is what is left of its parts, in their order |
| Query.CleanTwice | tool/api_tool.go:168-192 | Cleaning twice is cleaning once |
| Query.CleanEmptyQueryParams | tool/api_tool.go:168-192 | The loop computes the cleaned URL |
| Text.SplitJoin | tool/api_tool.go:177-191 | Splitting undoes joining of pieces without separators |
| Text.JoinSplit | tool/api_tool.go:177-191 | Joining undoes splitting |
| KeyVault.DecryptsRaw | keyvault/keyvault.go:136-145 | `Decrypt` undoes `Encrypt`, enabled or not |
| KeyVault.DecryptsText | keyvault/keyvault.go:150-159 | `Decrypt` undoes `EncryptString`, enabled or not |
| KeyVault.DecryptsLegacy | keyvault/keyvault.go:217-255 | `Decrypt` reads every legacy text whose three hex parts, in either case, are iv, tag and ciphertext |
| KeyVault.DecryptsOldWriter | keyvault/keyvault.go:217-255 | `Decrypt` reads what the old writer stored: iv, tag and ciphertext in lower-case hex with colons between |
| KeyVault.DecryptsIff | keyvault/keyvault.go:170-255 | An enabled `Decrypt` answers a plaintext exactly when the input, base64 undone where it looks like that, starts with the prefix byte and opens to it, or is three colon-separated hex texts of iv, tag and ciphertext that open to it; everything else is an error |
| KeyVault.NeverMistaken | keyvault/keyvault.go:170-198 | No encoding is ever sent down another's path |
| KeyVault.Base64RoundTrip | keyvault/keyvault.go:158-158 | Base64 decoding undoes encoding |
| KeyVault.HexRoundTrip | keyvault/keyvault.go:223-234 | Hex decoding undoes encoding |
| KeyVault.HexDecodesIff | keyvault/keyvault.go:223-234 | Hex decoding accepts exactly the hex texts, in either case, each for the bytes it stands for |
| KeyVault.IsLikelyBase64 | keyvault/keyvault.go:308-321 | True exactly for non-empty inputs of a length divisible by four over the base64 alphabet |
| KeyVault.SomeAeadIsLawful | keyvault/keyvault.go:263-303 | The laws assumed of the primitives can be met |
| Truncate.TruncateToolResult | middleware/truncate.go:23-63 | Short results are untouched; of a long one at most three bytes fewer than the limit are kept, behind them the notice spells how many bytes are missing and how many there were, and of UTF-8 the longest prefix of runes that fits is kept |
| Truncate.DecimalIs | middleware/truncate.go:60-60 | The numbers of the notice are the decimal numerals, without leading zeros |
| Truncate.CutAtRune | middleware/truncate.go:35-46 | The search back from the limit stops behind the last rune that fits |
| Truncate.FittingIsMost | middleware/truncate.go:32-34 | One rune more would not fit |
| Truncate.RuneDecodes | middleware/truncate.go:38-40 | Decoding reports the size that encoding produced, and only first bytes start a rune |
| Truncate.RuneValueIs | middleware/truncate.go:38-40 | The encoding of a rune stands for that rune |

## Left out

- HTTP decoding and authentication, SSE, the clients of Composio, Keto, Redis and OpenAI, tracing, YAML and environment loading: plumbing around libraries whose code is not part of this model.
- `lock/mutex.go`: its protocol lives in redsync, which is not part of this model.
- AES-GCM and Tink: abstract functions with an inverse law; a 12-byte iv and a tag of 12 to 16 bytes are assumed.
- The env-file checks of `LoadFromConfig` (a server they stop is one that failed) and the joined text of its error. Two loads that share a name are the case of `McpTheorems.SharedNameLeaks`.
- `connectServer` and remote calls: one action with any outcome; a failed listing of tools closes the session inside that action. Errors returned by `Session.Close` are dropped.
- `McpTheorems.CallsDrainBeforeSweep`: does not say that no call is in flight when sessions are closed, because the flag is flipped without holding `mu`.
- Temporal: an activity is one or more attempts, the last of which succeeds; attempts that overlap, cancel and pause signals (which have no handler) and workflow failure between steps are left out. Runs of one task follow one another.
- `state.CurrentStatus` and step 7 of the workflow: the result of `OnTopicComplete` is decoded into the wrong type there, so results speak about rows.
- `TaskHistories.ExactlyOnce`: starts with no topic running; not claimed for the in-memory store, which appends topics blindly (`TaskMemory.SecondLinkStays`). Only the numbering of topics needs new ones, because a linked topic is counted again (`TaskHistories.RunKeepsConsistent`, `TaskHistories.StaleTopicMiscounts`).
- `TaskRunner.TaskRunWorkflow`: resolves the task by id only, requires a config, and does not build the prompt; workspace ids, descriptions and `updated_at` are not modelled.
- The text of an error is its bytes, trimmed of ASCII white space.
- `TaskCascade.NoLostWakeup`: speaks about status writes and queries, whoever issues them, and assumes that each completion asks; when `OnTopicComplete` does not is `TaskCascade.RetryNeverAsks`.
- `TaskMemory.FailedRun`: the prompt is built, and the id it is given is the task's own.
- Handoff, brief synthesis and auto-review are stubs in the source; the review never accepts.
- Config entries that are typed nil maps, and lists and their contents beyond being empty or not.
- `ConfigHeap.ResolveTwice`: the defaults are a map, as `DefaultAgentConfig` is, and the four configs share nothing before the first call; after it they share maps at equal paths, which is all that `ConfigHeap.MergeAgentConfig` asks for.
- `PalaceStore.PgStore.Create`: the columns of a layer are one map; vectors, JSON encoding errors and embedding calls are left out, as is the reading half of `Search`. ILIKE and the vector order are uninterpreted.
- `Workspaces.Backend.DeleteListed`: a listing that fails altogether is the case in which every listed deletion fails.
- Rows and tuples being equal, or every workspace having an owner row: role changes keep old tuples, and an owner can remove another.
- `Template.Substitute`: what holds in all orders is stated for parameter names that are not empty and hold no braces. Arguments are given as the texts that `%v` prints; the JSON fallback for arguments, headers and the response are left out. Characters stand for bytes.
- `TemplateOrder.UrlSameIffSettled`: which templates with "{}" that make new holes have one URL all the same, as `TemplateOrder.Hidden` shows one to have; before the clean-up none has (`TemplateOrder.LoopSameIffSettled`). The URL is taken before empty query parameters are dropped.
- The UTF-16 helpers of `middleware/truncate.go`, which nothing calls.
