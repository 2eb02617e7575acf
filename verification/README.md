# Verified model of the ReAct agent service

A Dafny model of the parts of the service that are algorithms and state machines, with proofs of what
they keep over every input and every run.  `dafny verify dfyconfig.toml` checks all of it.

| file | models |
|---|---|
| `ClientHub.dfy`, `HubFlow.dfy` | the hub that routes upstream websocket messages to blocked waiters, as interleaved critical sections, sends and receives; and where each message goes |
| `Pattern.dfy`, `PatternMeaning.dfy`, `PatternChoice.dfy` | the structural pattern matcher: mutual recursion over syntax trees, bindings filled in place, backtracking; what its metavariables mean, and where it falls short |
| `AsyncTask.dfy` | leases and status observations of asynchronous tasks |
| `Memory.dfy` | the write core of long-term memory: versioned rows, soft delete, idempotent create, revision log, rollback |
| `Bundle.dfy`, `BundleOrder.dfy`, `BundleRuns.dfy`, `BundleCalls.dfy`, `BundleMany.dfy` | install and uninstall of agent bundles with a hand-written undo log: one install, several in any order, whole runs of one bundle, when their calls succeed, and runs of any number |
| `History.dfy`, `Replay.dfy` | compaction coverage computed in one go and incrementally, and the replay of stored messages as events |
| `ToolCalls.dfy`, `Stream.dfy` | assembly of tool calls from stream fragments, and the collection of one model round |
| `ToolRound.dfy` | one round of tool calls, delegations in parallel behind a semaphore |
| `Delegation.dfy`, `RoundTree.dfy` | token accounting over nested, partly parallel sub-runs, and the same with the rounds of every run |

Code that changes state is modelled by classes and methods with loops, each proved equal to a function of the
old state or against its stated result; the theorems are lemmas about those functions and about whole runs.
A database transaction or row update is one atomic step.  Text functions, hashes, renderers and
configuration are parameters, so the results hold for every choice of them.  Fresh ids are counters, clocks are
parameters.

## What the proofs found

* **Hub.** The comment at `service/react/client_hub.go:47` says that a delivery always succeeds because a waiter
  either receives or has been removed.  No line removes a waiter, so it does not: `ServedWaiterBlocksPump` is a run
  in which a waiter that was already served blocks the pump and a second waiter never hears of the disconnect.
  A wake-up is lost exactly when a waiter registers between the two critical sections of `dispatch`
  (`WakeupExact`, `LostWakeupTrace`), and everyone hears of a disconnect exactly when nobody was sent two events
  before it (`EveryWaiterGetsTheError`).
* **Matcher.** A nested `$$$` choice is not tried again when a later sibling fails (`NestedChoiceIsNotRetried`).
  A later use of a metavariable makes the matcher miss instances exactly when that metavariable stands between the
  first and the last `$$$` of a list (`MissedIffChosen`).
  The file comment (`repotools/pattern.go:3`) promises `$$$` in parameter and statement lists; the parser wraps it
  there, the code looks only at bare identifiers, and such a pattern never matches (`WrappedMultiNeverMatches`).
* **Asynchronous tasks.** What a task shows in the end depends on the order of delivery unless one observation
  prevails over each of the others; for observations that are numbered, unless all terminal ones have the status of
  the highest (`ConvergesIff`, `NumberedConvergesIff`).
* **Memory.** Reviving a soft-deleted resident item, and rolling one back, pass the cap of the resident layer
  (`CapOverRuns` says these are the only ways).
* **Bundles.** A server that does not answer stops an uninstall before the agents are restored
  (`UnreachableServerKeepsAgents`); a soft-deleted server row comes back with a new id (`RoundTripExact`); bundles
  that share rows may be uninstalled out of order only if the first entries agree (`OrderRestoresIff`).
* **Compaction.** A summary with a blank text covers messages in the batch filter and not in the tracker
  (`BlankSummaryDisagrees`), and a message whose run has no row is tracked and not queried (`OrphanIsTracked`;
  `AgreeIff` is the exact condition).
* **Replay.** Interleaved parallel siblings get their final event before their last messages
  (`SiblingsInterleaved`; `EveryRunEndsOnce` is the exact condition).
* **Tool calls.** A gap in the indices drops calls (`NothingDroppedIff`).

## Model

| member | source | states |
|---|---|---|
| ClientHub.ClientHub.EnterWait | service/react/client_hub.go:71-88 | the critical section of `wait`: return the error of a dead hub, claim the first buffered message that matches, or register and say whether to start the pump |
| ClientHub.ClientHub.BufferPending | service/react/client_hub.go:165-173 | the second critical section of `dispatch`: append, dropping the oldest of 16 |
| ClientHub.ClientHub.Kill | service/react/client_hub.go:108-116 | an error empties the buffer, marks the hub dead and lists each registered waiter once |
| ClientHub.ClientHub.Decide | service/react/client_hub.go:130-162 | where a message goes given the snapshot: to all for a cancel, to one that matches, to the buffer, to the only waiter, or nowhere |
| ClientHub.HubSafety | service/react/client_hub.go:66-173 | over every run: at most 16 pending messages, all addressable, in arrival order; a message that is no cancel is in one place only; a dead hub has an empty buffer |
| ClientHub.DeadForGood | service/react/client_hub.go:39-42 | a dead hub stays dead with an empty buffer, and every later `wait` returns its error |
| ClientHub.WakeupStep | service/react/client_hub.go:77-85 | one step loses a wake-up if and only if it buffers a message that a waiter registered since the snapshot wants |
| ClientHub.WakeupExact | service/react/client_hub.go:123-173 | a run loses no wake-up if and only if no waiter that wants a message enters and registers between the read of that message and its buffering |
| ClientHub.AtomicHubLosesNothing | service/react/client_hub.go:123-173 | with snapshot and buffering joined in one step, no run loses a wake-up |
| ClientHub.LostWakeupTrace | service/react/client_hub.go:124-155 | the interleaving of `wait` between the two critical sections that leaves a waiter blocked beside its own message |
| ClientHub.LostWaiterSleeps | service/react/client_hub.go:92-106 | such a waiter stays blocked as long as the client sends nothing more |
| ClientHub.StuckForever | service/react/client_hub.go:96-120 | a pump blocked on the full channel of a waiter that has returned never moves again, and no blocked waiter is ever woken |
| ClientHub.SendsUnlessStuck | service/react/client_hub.go:47-51 | a pump can send after at most one receive if and only if it is not stuck in that way |
| ClientHub.BroadcastStarts | service/react/client_hub.go:108-119 | a disconnect starts an error broadcast that serves everyone exactly when no registered waiter has returned with a full channel |
| ClientHub.SentCounts | service/react/client_hub.go:47-51 | over every run, the events sent to a registered waiter are the one its call returned and the one left in its channel |
| ClientHub.EveryWaiterGetsTheError | service/react/client_hub.go:108-120 | a run in which the connection dies and in the end nothing can move: the pump is gone if and only if no registered waiter had been sent two events before, and then every waiter blocked at the disconnect has returned the error |
| ClientHub.BroadcastWorkShrinks | service/react/client_hub.go:117-119 | the steps of a broadcast run out |
| ClientHub.ClogBlocksBroadcast | service/react/client_hub.go:117-119 | one waiter that returned with a full channel keeps the broadcast from ever finishing |
| ClientHub.ServedWaiterBlocksPump | service/react/client_hub.go:47-48 | a run from the start in which that happens and another waiter never gets the error |
| HubFlow.Routing | service/react/client_hub.go:123-162 | by kind and waiters: a cancel reaches every waiter, a message that somebody wants one who wants it, an unwanted answer the buffer, anything else the only waiter or nobody |
| HubFlow.BufferedStays | service/react/client_hub.go:165-173 | in every run a message read for the buffer is in the pump's hand, then in the buffer or returned, as long as the hub lives and fewer than 16 were buffered after it |
| HubFlow.ComerGetsBuffered | service/react/client_hub.go:77-84 | so a waiter that enters a live hub and wants such a message returns a message it wants, and none that came after that one |
| HubFlow.DeliveredArrives | service/react/client_hub.go:130-162 | in every run a delivered message is on its way to its waiter, in the waiter's channel, or what the waiter returned |
| HubFlow.NothingMadeUp | service/react/client_hub.go:66-173 | in every run what is pending was read for the buffer, and a waiter returns only what was delivered to it or what it wants from the buffer |
| Pattern.SoundNode | repotools/pattern.go:143-174 | a node match only adds bindings, and they make the target an instance of the pattern |
| Pattern.SoundSeq | repotools/pattern.go:214-245 | the same for a list with `$$$`, so bindings of failed attempts are never seen |
| Pattern.KeysNode | repotools/pattern.go:143-174 | a match binds nothing but the metavariables of its pattern |
| Pattern.CompleteNode | repotools/pattern.go:143-245 | every instance that agrees with the bindings so far is found, if no metavariable that is still unbound and stands between the first and the last `$$$` of a list is used after the node that holds the list |
| Pattern.CompleteSeq | repotools/pattern.go:214-245 | the same for lists |
| Pattern.MatchIffInstance | repotools/pattern.go:143-245 | matching implies being an instance, and is equivalent to it for every target under that condition on the pattern |
| Pattern.Determined | repotools/pattern.go:214-245 | two ways to read a target as an instance of a node agree on every metavariable that does not stand between the first and the last `$$$` of a list |
| Pattern.IsolatedFamilies | repotools/pattern.go:3-4 | patterns in which each named metavariable occurs once, and patterns with at most one `$$$` per list, are all of that kind |
| PatternChoice.MissedIffChosen | repotools/pattern.go:165-244 | for every node in which each metavariable occurs once, used again after the node: all instances are found if and only if the metavariable does not stand between the first and the last `$$$` of a list of the node |
| PatternChoice.NestedChoiceIsNotRetried | repotools/pattern.go:220-244 | `f(g($$$X, $$$Y), $$$X)` against `f(g(a), a)`: an instance that is not found |
| Pattern.FixedLength | repotools/pattern.go:241-244 | a list without `$$$` matches only lists of its own length |
| Pattern.WrappedMultiNeverMatches | repotools/pattern.go:157-158 | a `$$$` that the parser wrapped in a statement or parameter node makes its list match nothing |
| PatternMeaning.LiteralNode | repotools/pattern.go:156-213 | a pattern without metavariables matches itself and nothing else |
| PatternMeaning.AnonymousNode | repotools/pattern.go:151-153 | if all metavariables begin with an underscore, a match binds nothing and is the same for every renderer |
| PatternMeaning.AnonymousMatchesAll | repotools/pattern.go:151-153 | `$_` matches every node, `$$$_` every list |
| PatternMeaning.NamedNode | repotools/pattern.go:145-155 | a name takes any node where it comes first, is bound to its text, and from then on matches exactly the nodes with that text |
| PatternMeaning.NamedList | repotools/pattern.go:220-233 | the same for `$$$` and the joined texts of a list |
| PatternMeaning.TwiceTheSame | repotools/pattern.go:145-155 | one name twice matches two nodes if and only if they have one text; `$_` twice matches any two |
| PatternMeaning.FewestNodes | repotools/pattern.go:220-240 | a `$$$` seen first takes the fewest nodes that let the rest of the list match |
| Pattern.PatternMatcher.MatchNodeInPlace | repotools/pattern.go:143-174 | the recursive matcher that writes into the caller's table: its answer and, on success, its bindings are those of the pure matcher |
| Pattern.PatternMatcher.MatchSeqInPlace | repotools/pattern.go:214-245 | the same for the loop over `$$$` splits with cloned and copied tables |
| Pattern.PatternMatcher.SearchBlock | repotools/pattern.go:81-92 | every reported window of a block is the shortest match at its start, starts ascend, and no start is missed unless the limit is reached |
| AsyncTask.TaskTable.SelectCandidates | models/llm/react_async_task_sync.go:62-69 | the locking select: exactly the first claimable rows in id order, up to the limit |
| AsyncTask.TaskTable.LeaseAll | models/llm/react_async_task_sync.go:70-82 | leases each candidate and no other row |
| AsyncTask.TaskTable.ClaimTasks | models/llm/react_async_task_sync.go:53-89 | the whole claim: the table changes on the taken rows only, and those are what it returns |
| AsyncTask.TaskTable.ApplyToRow | models/llm/react_async_task_sync.go:105-141 | one row takes an observation if and only if none of the four guards refuses it |
| AsyncTask.TaskTable.ApplyObservation | models/llm/react_async_task_sync.go:91-154 | all rows of the task take the observation or keep their columns; the result counts the takers |
| AsyncTask.TaskTable.ScheduleRetry | models/llm/react_async_task_sync.go:165-183 | only the owner's row counts a retry and frees its lease |
| AsyncTask.TaskTable.ReleaseLease | models/llm/react_async_task_sync.go:185-193 | only the owner's row frees its lease |
| AsyncTask.ClaimTakesLowestDue | models/llm/react_async_task_sync.go:62-82 | a claim leases exactly the lowest rows, up to its limit, that are of its scheduler, processing, not locked, due, out of lease and not observed lately |
| AsyncTask.ClaimTakesAllDue | models/llm/react_async_task_sync.go:62-82 | with a limit for all rows it leases a row if and only if it is one of those |
| AsyncTask.PutOffUntil | models/llm/react_async_task_sync.go:64-66 | over runs: a row that its owner put off by a retry or release is not claimed by a clock before that time, until it is put off again |
| AsyncTask.DueAgain | models/llm/react_async_task_sync.go:165-193 | and is claimed again once that time has come |
| AsyncTask.StepFrees | models/llm/react_async_task_sync.go:120-183 | an accepted observation, and the owner's retry or release, leave no owner and no lease |
| AsyncTask.BookKept | models/llm/react_async_task_sync.go:120-183 | over every run a row counts the retries since the last observation it took and shows the cause of the last one, the time it was put off to, the time it was completed, and the last event id, sequence and progress given |
| AsyncTask.TakersCounted | models/llm/react_async_task_sync.go:143-149 | the result of an observation is the number of rows that took it |
| AsyncTask.LeaseOutlasts | models/llm/react_async_task_sync.go:58-82 | until a clearing step, a claimed row is leased at least as long as the claim said |
| AsyncTask.LeaseExclusion | models/llm/react_async_task_sync.go:58-82 | two claims of one row without a clearing step between them are further apart than the first lease |
| AsyncTask.LeaseHeld | models/llm/react_async_task_sync.go:58-82 | until the lease runs out or is cleared the claimer is the owner |
| AsyncTask.FencedOut | models/llm/react_async_task_sync.go:165-193 | a worker that is no longer the owner cannot change the row by retry or release, in any continuation |
| AsyncTask.TerminalForGood | models/llm/react_async_task_sync.go:64-72 | a terminal row has no owner, keeps its status and is never claimed again |
| AsyncTask.EmptyOwnerIsNoFence | models/llm/react_async_task_sync.go:170-188 | the empty owner name passes the fence of every free row: a retry always changes it, a release unless it already has that next time and no lease |
| AsyncTask.ObserveKeepsUpToDate | models/llm/react_async_task_sync.go:105-141 | with an observation that prevails over the others: until it came the row waits for it, afterwards it shows it, whatever is delivered next |
| AsyncTask.Convergence | models/llm/react_async_task_sync.go:91-154 | any order, any repetitions and any claims, retries and releases in between end with the fields of the observation that prevails |
| AsyncTask.ConvergesIff | models/llm/react_async_task_sync.go:91-154 | for every set of observations: all deliveries of it end with the same given one if and only if, on the columns alone, that one is taken after each of the others and each of them is refused after it |
| AsyncTask.NumberedConvergesIff | models/llm/react_async_task_sync.go:96-118 | observations with distinct positive numbers, distinct event ids and times in order: all deliveries end with the highest if and only if every terminal one has its status |
| AsyncTask.EarlyTerminalDiverges | models/llm/react_async_task_sync.go:116-118 | a row that took a terminal observation never shows one of another status, in any continuation |
| Memory.RoomIff | service/memory/memory.go:533-554 | the check of a layer passes if and only if the layer is within its cap once it has one more row, created, moved up or revived |
| Memory.MemoryService.MutateCreate | service/memory/memory.go:216-293 | create or converge on the row with the same key, soft-deleted or not: result and new store |
| Memory.MemoryService.ApplyUpdate | service/memory/memory.go:310-372 | cap, optimistic lock, row update and revision: result and new store |
| Memory.MemoryService.MutateDelete | service/memory/memory.go:374-407 | soft delete under the optimistic lock: result and new store |
| Memory.MemoryService.Mutation | service/memory/memory.go:169-214 | normalisation, guards and dispatch of the one write entry point: result and new store |
| Memory.MemoryService.RollbackRevision | service/memory/memory.go:446-531 | rollback: result and new store |
| Memory.StepCommits | service/memory/memory.go:148-531 | a failed call changes nothing; a successful one changes one row and appends the revision that leads to it, with the reason the row shows |
| Memory.LogRefinesStore | service/memory/memory.go:557-577 | in every reachable store versions count revisions, every `before` is the row the previous revision left, replaying the log gives the table, and (owner, key) is unique among all rows |
| Memory.HistoryRecoverable | service/memory/memory.go:557-577 | the log only grows and still yields every earlier table; id, owner, key, source and creator of an item never change |
| Memory.CreateConverges | service/memory/memory.go:216-255 | a second create of the same fact for the same owner yields the same item and no new row, whatever happened in between |
| Memory.ReadBack | service/memory/memory.go:169-407 | what a successful create, update or delete leaves behind, in terms of the caller's texts |
| Memory.RecordBack | service/memory/memory.go:169-407 | and what it records: author, source, reason and kind in row and revision; blank layer or tags keep what an existing row has, a new row is detached by default |
| Memory.DeleteRefused | service/memory/memory.go:374-429 | on the raw call and row: a delete fails with the first of bad reason, layer or texts, no active item, foreign scope, lock, other version, and succeeds otherwise |
| Memory.UpdateRefused | service/memory/memory.go:295-429 | the same for an update, with invalid texts and a full resident layer |
| Memory.CreateRefused | service/memory/memory.go:216-260 | the same for a create of a new fact |
| Memory.ConvergeRefused | service/memory/memory.go:216-255 | the same for a create that finds the row of its fact |
| Memory.RollbackRefused | service/memory/memory.go:446-480 | a rollback fails without a reason, without the revision, or on a create, and succeeds otherwise |
| Memory.AtMostOneWriterPerVersion | models/llm/memory.go:172-185 | of all updates and deletes that name the same version of an item, at most one succeeds in a run |
| Memory.RollbackRestores | service/memory/memory.go:444-531 | rolling back any revision but a create gives the item exactly the layer, texts, tags and state it had before that revision, and touches nothing else |
| Memory.RollbackReachesBack | service/memory/memory.go:444-531 | in every run, whenever it is done, it gives the item what it held in the very state in which the revision was written |
| Memory.RollbackUndone | service/memory/memory.go:444-531 | rolling back a rollback's own revision, at any later time, gives the item what it held before the rollback |
| Memory.RollbackRecords | service/memory/memory.go:446-515 | a rollback records its operator, its reason, the row before and the row after |
| Memory.CapStep | service/memory/memory.go:236-326 | a call passes the resident cap if and only if, on a full layer, it is an admissible create of a fact whose unlocked soft-deleted row is resident, asking for no other layer, or a rollback with a reason of a row to resident |
| Memory.CapOverRuns | service/memory/memory.go:533-554 | a run stays within the cap in all its states if and only if it has no such call |
| Memory.ReviveExceedsCap | service/memory/memory.go:236-254 | a run of four creates and deletes whose revive passes a cap of one |
| Memory.RollbackExceedsCap | service/memory/memory.go:493-502 | a run whose rollback of a delete passes it |
| Bundle.ReapplyChangesNothing | service/agent/agent.go:302-351 | a resource that was accepted is accepted again, changes nothing the second time, and records the live row that is there |
| Bundle.AgentAcceptedIff | service/agent/agent.go:302-447 | on the raw file: it is accepted if and only if it parses, has a body and a caller, and finds its row live or has a valid key, a known caller and mode, and short lists without blanks and duplicates |
| Bundle.AgentRowReads | service/agent/agent.go:102-141 | after every accepted file, overwriting, reviving or creating, each column of the row is what the file says, with caller and routes of the request where it has none; only an existing row keeps id and creator |
| Bundle.InstalledAgentReads | service/bundle/bundle.go:102-124 | after a complete install that holds for every agent file that no later one replaces |
| Bundle.DraftApplies | service/bundle/bundle.go:102-155 | each resource writes the row of one key, live afterwards, and records what was there |
| Bundle.ServerRowReads | service/bundle/bundle.go:366-438 | after every install each column of a server row is as drafted; an overwritten row keeps id, owner, environment, creator and last check, any other gets a new id and those of the request |
| Bundle.InstallUndoable | service/bundle/bundle.go:102-155 | however far an install gets and however often it writes a row, its resource list undoes exactly what it did |
| Bundle.UndoRestores | service/bundle/bundle.go:174-302 | an uninstall that gets through gives back every column of every earlier row, and leaves created rows soft-deleted |
| Bundle.UndoKeeps | service/bundle/bundle.go:174-198 | an uninstall that stopped anywhere leaves a list that still undoes everything |
| Bundle.UndoCompletes | service/bundle/bundle.go:290-301 | an uninstall gets through if and only if every live server it restores answers |
| Bundle.UnreachableServerBlocks | service/bundle/bundle.go:179-196 | otherwise every row named only by earlier entries stays as installed |
| Bundle.UnreachableServerKeepsAgents | service/bundle/bundle.go:112-197 | and those are all agents of the bundle, after every install, complete or rejected |
| Bundle.RoundTrip | service/bundle/bundle.go:85-155 | install, complete or rejected at any resource, then uninstall: the registry is back |
| BundleOrder.ReverseOrderRestores | service/bundle/bundle.go:174-198 | any number of bundles, sharing rows or not, uninstalled in reverse order: the registry is back |
| BundleOrder.AnyOrderRestores | service/bundle/bundle.go:174-198 | bundles whose rows are disjoint, uninstalled in any order: the same registry, and it is back |
| BundleOrder.OrderRestoresIff | service/bundle/bundle.go:174-198 | any bundles, any order: the registry is back if and only if for every row the first entry for it in the install is also the first in the lists joined in that order |
| BundleOrder.FirstUninstalledFirstIff | service/bundle/bundle.go:174-198 | two bundles, the first uninstalled first: the registry is back if and only if on every row of both the first entries of the two lists are equal |
| BundleOrder.OverlapOutOfOrder | service/bundle/bundle.go:174-198 | two bundles on one server, the first uninstalled first: the registry keeps what the first wrote |
| BundleRuns.RoundTripExact | service/bundle/bundle.go:407-429 | the round trip of a complete or rejected install is exact in every column if and only if no resource it applied names a soft-deleted server |
| BundleRuns.RerunReachesTheSame | service/bundle/bundle.go:174-198 | an uninstall stopped anywhere and run again ends, row by row, where an uninterrupted one ends, but for deletion times |
| BundleRuns.EveryRunRestores | service/bundle/bundle.go:25-198 | in every run of installs, reinstalls, rejected installs and stopped or repeated uninstalls of a bundle, whenever it is not installed the registry is back to the start |
| BundleRuns.UninstallAlwaysPossible | service/bundle/bundle.go:157-198 | from every state of such a run in which it is installed, an uninstall with all servers up completes and restores the start |
| BundleCalls.InstallSucceedsIff | service/bundle/bundle.go:26-91 | in every such run an install succeeds if and only if there is a caller, the servers of the version before answer, and its content is acceptable to the registry as it was before the bundle was ever installed: every agent file is readable, and finds its row live, or written by an earlier file, or is fit for a new one |
| BundleCalls.InstallLeaves | service/bundle/bundle.go:102-155 | it then leaves the bundle under its version and id, one list entry for each resource, and each row as the last resource about it says |
| BundleCalls.FailedInstallLeavesNothing | service/bundle/bundle.go:85-91 | an install that fails leaves no bundle and the registry of the start if all servers answer, and changes nothing without a caller |
| BundleCalls.UninstallSucceedsIff | service/bundle/bundle.go:157-198 | in every such run an uninstall succeeds, and the bundle is gone, if and only if it is installed and every live server its list restores answers |
| BundleMany.ServeView | service/bundle/bundle.go:25-198 | a call of a bundle, seen on the rows that belong to it, is the same call on a registry that holds only those |
| BundleMany.ServeTidy | service/bundle/bundle.go:25-198 | and it leaves the rows, the bundle rows and the lists of all other bundles alone |
| BundleMany.EveryInterleavingRestores | service/bundle/bundle.go:25-198 | in every run of such calls of any number of bundles with rows of their own, whenever a bundle is not installed its rows are back to the start, and whenever none is the registry is |
| BundleRuns.BundleService.UpsertAgent | service/agent/agent.go:302-351 | overwrite, revive or create an agent row: new registry and undo entry |
| BundleRuns.BundleService.RegisterServer | service/bundle/bundle.go:366-438 | the same for a server row |
| BundleRuns.BundleService.ApplyBundleResources | service/bundle/bundle.go:102-155 | the two loops: new registry, extended resource list and outcome |
| BundleRuns.BundleService.Rollback | service/bundle/bundle.go:202-302 | one entry undone, and whether its server answered |
| BundleRuns.BundleService.UninstallByBundleID | service/bundle/bundle.go:174-198 | the reverse loop and the soft delete of the bundle row |
| BundleRuns.BundleService.InstallOrReplace | service/bundle/bundle.go:34-91 | uninstall of an older version, revival of the bundle row, install, and clean-up of a rejected install |
| History.FilterCovered | service/react/engine.go:877-906 | keeps exactly the messages that no summary in the list reaches; the marks of a run stay an initial segment, so skipping a marked reference is sound |
| History.MarkRefs | service/react/engine.go:883-896 | one summary adds exactly what its references reach, with the early `continue` |
| History.IncrementalKeeps | service/react/history.go:192-256 | message-by-message tracking keeps exactly the messages that convert and that no later converting summary covers |
| History.IncrementalIgnoresChildren | service/react/history.go:192-196 | messages of sub-runs do not count |
| History.AgreeIff | service/react/engine.go:863-906 | batch and incremental compaction give the same context if and only if a converting message that both look at is covered on both sides or on neither, and one that only one side looks at is covered there |
| History.AgreeOnWellFormed | service/react/history.go:208-215 | in particular when every message names a run with a row, and summaries of outer runs convert and cover only earlier messages |
| History.BlankSummaryDisagrees | service/react/engine.go:950-957 | a blank summary on which they differ |
| History.OrphanIsTracked | models/llm/react_message.go:110-120 | a message whose run has no row is in the one and not in the other |
| History.TrackedIff | service/react/history.go:192-256 | on the raw messages: the tracker keeps a message if and only if it converts, is of no sub-run, and no later converting summary that it tracks refers to its run with at least its number |
| History.HistoryIff | models/llm/react_message.go:110-120 | on the raw messages: the history keeps a message if and only if it converts, its run has a row without a parent, and no summary of such a run, anywhere, refers to it |
| History.PartialInNeither | service/react/history.go:203-207 | a partial answer is in neither context, nor is anything that does not convert |
| Replay.EveryRunEndsOnce | service/react/history.go:159-190 | events are numbered 1..n, every run with messages and a final state gets exactly one final event and no other run gets one, and an event of the run follows it if and only if the run was left for a run that is not its child and shown again |
| Replay.EndIsLast | service/react/history.go:166-188 | for a run that does not reappear, the event of its own state is its last event and its only final one |
| Replay.ReplayIsTimeline | service/react/history.go:161-190 | without the final events the replay is the timeline, part for part and in order |
| Replay.SiblingsInterleaved | service/react/history.go:166-173 | two interleaved children: one goes on after its own end |
| Replay.HistoryEventBuilder.AppendRunTerminal | service/react/history.go:521-559 | closes a known run once, with the event of its state if that is final |
| Replay.HistoryEventBuilder.DropCovered | service/react/history.go:228-256 | drops exactly the context messages that the references reach |
| Replay.HistoryEventBuilder.TrackContextUsage | service/react/history.go:192-216 | one step of the incremental context |
| Replay.HistoryEventBuilder.BuildEvents | service/react/history.go:161-190 | the whole loop: the events and the context of the timeline |
| ToolCalls.BuilderOf | api/llm/gpt.go:671-686 | the builder of an index holds its last non-empty id and name and the concatenation of its arguments |
| ToolCalls.AssembledInOrder | api/llm/gpt.go:703-713 | with indices 0..n-1 the result has n calls in index order, each with what its own fragments say |
| ToolCalls.InterleavingDoesNotMatter | api/llm/gpt.go:671-713 | only the fragments of each index count, not how indices are interleaved |
| ToolCalls.SplittingDoesNotMatter | api/llm/gpt.go:680-685 | cutting the arguments of a fragment in two changes nothing |
| ToolCalls.NothingDroppedIff | api/llm/gpt.go:703-716 | there is one call per index if and only if there are none, or the stream looks like a tool round and the indices are 0..n-1 |
| ToolCalls.GapLosesCall | api/llm/gpt.go:705-706 | index 1 alone yields no call |
| ToolCalls.ParseToolStream | api/llm/gpt.go:610-727 | writes the deltas read and then one closing chunk: cancelled, broken, or with the assembled calls and stop reason |
| ToolCalls.StreamMeans | api/llm/gpt.go:652-727 | those deltas are the texts of the choices read, those calls are assembled from all their fragments, and the stop reason says whether they look like a tool round |
| ToolCalls.HasContentIff | api/llm/gpt.go:735-742 | they do if some fragment has arguments, or an id or name that is not blank and not replaced later, and otherwise not |
| ToolCalls.EndingMeans | api/llm/gpt.go:627-649 | the first cancelled context or end mark ends the reading, by which it is, or the lines do |
| ToolCalls.UsageIsLast | api/llm/gpt.go:657-661 | the token counts of the closing chunk are those of the last line read that has any |
| Stream.ReadableIsPrefix | service/react/engine.go:392-454 | events a reader can follow are the beginning of a word in which every block is closed |
| Stream.ReadableIff | service/react/engine.go:392-454 | that is, exactly if deltas and ends stand inside the block they belong to, nothing starts inside a thought nor a content block inside another, and an end repeats what its block showed |
| Stream.OpenShape | service/react/engine.go:392-454 | at most one content block with at most one thought inside is open |
| Stream.FollowTexts | service/react/engine.go:410-451 | what the reader has gathered is the concatenation of content deltas and of thought-end payloads |
| Stream.StreamCollector.TakeChunk | service/react/engine.go:493-544 | one chunk keeps events and buffers in step, and adds exactly its own text |
| Stream.StreamCollector.Collect | service/react/engine.go:366-572 | the events only grow and every beginning of them can be followed; the error is the one the stream deserves unless an emission failed; a round without error closed every block, its content deltas and thought ends concatenate to its texts, and its texts are those of the stream; the deltas are those of the inputs heard, one by one and in order; a round with an error returns what was heard of the inputs before it, and after a failed emission part of one more |
| Stream.ParsedStreamCollects | api/llm/gpt.go:694-726 | a parsed stream read to its end makes a round without error with the text of its choices and the assembled calls; a cancelled or broken one gives its own error |
| Stream.VerdictMeans | service/react/engine.go:465-571 | the first idle timeout, error or cancelled end decides which error a round gives, then the context, then whether the stream said it was done |
| Stream.TakenMeans | service/react/engine.go:465-544 | what is heard are the inputs before the one that decides, and a cancelled end itself |
| Stream.InterruptedMeans | service/react/engine.go:493-519 | after a failed emission the content returned is that of some first inputs and the reasoning that of the same or one more |
| Stream.GatherMeans | service/react/engine.go:378-389 | what a round returns is all content, all reasoning, the last signature and the calls of the last chunk that ends the stream with some |
| ToolRound.ExecuteSerial | service/react/engine.go:636-648 | serial execution of calls that give these outcomes: results up to and including the first error, and that error |
| ToolRound.ParallelismBounded | service/react/engine.go:598-607 | never more delegations at once than the semaphore allows |
| ToolRound.ParallelRefinesSerial | service/react/engine.go:574-634 | in every interleaving, whatever the calls give and however that depends on what ran before, a finished round reports an error exactly when serial execution of calls that give the same does, holds every serial result in its place, and equals it when there is no error |
| ToolRound.RoundsFinish | service/react/engine.go:598-629 | until a round is complete some step can be taken, and every step leaves less to do |
| Delegation.StepKeepsInv | service/react/delegate.go:346-362 | every atomic step keeps columns and counters equal to what children added so far |
| RoundTree.WaitImpliesGuards | service/react/engine.go:594-629 | with the rounds of every run added, each step of every interleaving is a step of the accounting with its guards, because the wait that ends a round leaves no child under way |
| RoundTree.EndedRunHoldsSubtree | service/react/delegate.go:141-144 | in every interleaving of rounds, a run whose loop has returned holds its whole subtree in its own and delegated totals |
| RoundTree.OwnIsUsed | service/react/engine.go:236-249 | in every interleaving the own columns of a run are the sum of what it reported |
| RoundTree.NothingLostOrDoubled | service/react/delegate.go:343-362 | once all outer runs have ended, what they report is what all runs used |
| Delegation.DepthBounded | service/react/delegate.go:109-113 | no run ever has more ancestors than the limit |
| Delegation.DelegatesIff | service/react/delegate.go:109-113 | a run can delegate if and only if fewer runs than the limit are above it, and its sub-run starts one level down with nothing used |
| RoundTree.BudgetSeesSubtree | service/react/engine.go:263-281 | between rounds the budget check fires if and only if the tokens of the whole subtree exceed the budget |
| Delegation.CountersLag | service/react/delegate.go:352-361 | at any other moment the counters in memory are at most the columns |
| Delegation.RunTable.AddTokenUsage | service/react/engine.go:236-249 | adds to the run's own columns |
| Delegation.RunTable.StartDelegate | service/react/delegate.go:109-113 | starts a sub-run one level down, or refuses at the limit |
| Delegation.RunTable.AccumulateDelegatedTokens | service/react/delegate.go:343-362 | reads the child row, skips a zero, adds to the parent's columns and then to its two counters |
| Delegation.RunTable.CheckTokenBudget | service/react/engine.go:263-281 | whether own and delegated tokens exceed a positive budget |

## Left out

- Pattern.MatchIffInstance: the equivalence has a condition, soundness has none. For patterns outside it `PatternChoice.MissedIffChosen` is exact when a node in which each metavariable occurs once is followed by one more use; a repeated metavariable inside the node, and uses elsewhere than in the next place of the list, are not characterised. That lemma needs a renderer that tells two nodes apart.
- Pattern.PatternMatcher.SearchBlock: one block at a time; the walk over files and nodes, source offsets and the trimming of the reported text are not modelled.
- Memory.CreateConverges: an item keeps the key of the content it was created with, because an update does not compute the key again; the statement is about that key.
- Memory.MemoryService.MutateCreate: reads and writes of one transaction are one step, so two transactions that race on the same row are not modelled.
- BundleMany.EveryInterleavingRestores: bundles that share rows are covered for installs followed by uninstalls (`BundleOrder.OrderRestoresIff`), not for runs in which both interleave.
- Bundle.AgentRowReads: database column defaults that replace zero values on insert are not modelled.
- Stream.StreamCollector.Collect: token counts in the payloads are not modelled.
- RoundTree.EndedRunHoldsSubtree: a database failure while reading or adding, which the code logs and ignores, is not modelled.
- Skills of a bundle, which are handled like agents; their service is not part of this model.
- Front matter and `.mcp.json` parsing, the fetch of a bundle, its source white-list, and the client and tool registry of a server beyond whether it answers.
- The session state and expiry of asynchronous tasks (`state` column) and their creation; `SKIP LOCKED` is a set of locked rows.
- The payloads of replayed events: what a message renders to is a parameter of the message.
- The other model clients, context compaction itself, model failover, HTTP, websocket transport, metrics and logs.
- Sensitive-content patterns, tag normalisation, fingerprints and locked tags of memory are parameters.
