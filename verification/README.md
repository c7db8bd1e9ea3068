# Verified models of the runm host tools

This project states, in Dafny, what the concurrent and text-handling parts of runm promise, and proves
it. Concurrent code is modelled as a state machine whose steps are the lock, channel, condition-variable
and map operations of the Go code, so a run is any interleaving of any number of goroutines. Code that
updates objects, arrays or maps in place is modelled by classes and methods proved against functions,
and the theorems are about those functions.

| file | what it models |
|---|---|
| `Console.dfy`, `ConsoleIO.dfy`, `ConsoleTraffic.dfy`, `ConsoleReads.dfy` | the edge-triggered console of `pkg/kqueue`: readers, writers, the event loop, `Add` and `Shutdown`; the loops of `Read` and `Write`; and the bytes of all writers and of all readers at once |
| `TaskGroup.dfy` | the goroutines of a task group: submitters, workers, `Wait`, `Close`, cleanup, with `mu` as a lock that is not reentrant |
| `TaskGroupSafety.dfy`, `TaskGroupEnd.dfy`, `TaskGroupIds.dfy` | semaphore, running tasks and error counts; cancellation, first error, cleanup and `Wait`; task ids and lifecycle |
| `TaskGroupCalls.dfy`, `TaskGroupProgress.dfy` | the same in terms of the calls made: the limit asked for, the cleanups registered, what a return means; and who can move when |
| `TaskErrors.dfy` | the collected errors of a task group |
| `Watches.dfy`, `WatchProtocol.dfy`, `Forest.dfy` | the process watch table, its race with the consumer in the guest's init, and the consumer's forest of process records |
| `Registry.dfy`, `Broadcast.dfy`, `Announcements.dfy` | the debug-adapter multiplexer: target registry, event broadcast, and what the one says of the other |
| `Framing.dfy` | delimited log framing, with the scanner's buffer |
| `SearchDomains.dfy` | resolver search lists and their macOS limits |
| `Basics.dfy` | shared facts about sets and sequences |

## What turned out to be false, and its exact condition

- `Wait` does not always return. The `Wait` that finishes the group holds `mu` when `executeCleanup` takes
  it again. It can return exactly when a `Close` had already taken the cleanup snapshot; otherwise it and
  every later user of `mu` block for ever (`TaskGroupEnd.WaitReturnsIffSnapshot`, `TaskGroupEnd.WaitBlocksForever`).
- Task ids are not always name-1 to name-k with k tasks. They are, along a whole run, exactly when no task
  is registered while a refused `TryGo` still owes its decrement, and only the newest live task is ever given
  up (`TaskGroupIds.NumberedIffOrderly`); `TaskGroupIds.OverlapCollides` is a run in which an id is about to
  be handed out twice.
- `Shutdown` does not release every caller. Which calls it can leave asleep is exact: every writer, and of the
  readers those that already have a byte and those with an empty buffer (`Console.StrandedIff`). With hangups
  that bring no bytes and buffers that are not empty it releases every reader
  (`Console.ShutdownReleasesAllReaders`).
- The watch table does not always follow forks. An event can break it exactly when it is a fork by a watched
  process while the consumer is about to remove its parent or its child's pid
  (`WatchProtocol.EventBreaksIff`), and without such forks it is right in every run
  (`WatchProtocol.SteadyRunFollowsForks`). A removed parent crashes the watcher
  (`WatchProtocol.ForkCrashesIff`, `WatchProtocol.LateForkCrashes`); a removed child can leave an entry behind
  for good (`WatchProtocol.ReuseLeaks`).
- What the watcher sends is not always what the forks alone would have it send: even without racing forks a late
  `Watch` can put back a pid whose exit is being handled, and the notes differ exactly for events about such
  a pid (`WatchProtocol.NotesMatchHistoryIff`).
- Two broadcasts under way at once can reach a subscriber in the other order: exactly when an older one
  still trails a newer one (`Broadcast.OrderLostIffOverlap`).
- A subscriber's list of targets is not always the registry. With everything about a target offered and none
  of it dropped, the list is wrong about it exactly when the removal was offered before the announcement
  (`Announcements.WrongIffRemovedFirst`). A removal can bring that about for a listening subscriber exactly when
  the announcement has not yet passed it, so never once `RegisterTarget` has returned
  (`Announcements.RemovalDeceivesIff`); `Announcements.EarlyRemovalDeceives` is such a run.
- On macOS the search list is a list of whole leading domains within the limits exactly when the line is
  short enough or some domain ends before byte 256; otherwise the cut falls on the prefix and the result
  is the single entry `search` (`SearchDomains.AcceptableIffCuttable`).

The comment above the macOS limit in `core/gvnet/dns.go` speaks of 265 characters; the code uses 256, and
so does the model.

## Model

| member | source | states |
|---|---|---|
| Console.NoLostWakeup | pkg/kqueue/kqueue.go:85-288 | in every run with any number of callers, a caller asleep beside available bytes on a mapped console is owed a wakeup: an edge is queued, the loop has a signal still to make, or another caller is polling, woken or about to signal; edges dropped before the mapping do no harm |
| Console.ShutdownReleasesAllReaders | pkg/kqueue/kqueue.go:191-274 | if every hangup of a reader brings no bytes and no reader comes with an empty buffer, then once `closed` is set no reader is asleep or about to sleep, in any state of any run |
| Console.NoReaderWakeupLost | pkg/kqueue/kqueue.go:85-288 | for such readers no wakeup is lost whether or not the console is mapped: a reader asleep beside bytes is on a mapped, open console and is owed one |
| Console.ShutdownReleasesReaders | pkg/kqueue/kqueue.go:191-222 | without that hypothesis: once `closed` is set, a reader with nothing read into a non-empty buffer is neither asleep nor about to sleep |
| Console.QuiescenceIsHarmless | pkg/kqueue/kqueue.go:118-288 | no deadlock: when no step of the loop, of Shutdown, of Add or of a caller is possible, every caller is asleep and no mapped half has bytes left |
| Console.SomebodyMoves | pkg/kqueue/kqueue.go:191-288 | the lock orders admit no deadlock: a state that is not at rest always has an enabled internal step |
| Console.StrandedIff | pkg/kqueue/kqueue.go:191-274 | for every half, buffer length and count: some run leaves such a call asleep after Shutdown if and only if it is a writer, or has a byte, or has an empty buffer |
| Console.ShutdownStrands | pkg/kqueue/kqueue.go:191-274 | the run that does it, for every such call; it ends with the call alone and unmapped |
| Console.AbandonedForever | pkg/kqueue/kqueue.go:130-147 | such a caller sleeps through every later arrival, because its edges find no console |
| Console.InvRun | pkg/kqueue/kqueue.go:85-288 | lock ownership, the notify lists, byte counts, the close rule and the wakeup rule hold after any run |
| Console.CallStepNoLost | pkg/kqueue/kqueue.go:191-256 | no step of a call of Read or Write loses a wakeup |
| Console.CallStepKeeps | pkg/kqueue/kqueue.go:191-256 | every step of a call of Read or Write keeps the invariant |
| Console.WakeKeeps | pkg/kqueue/kqueue.go:276-288 | a Signal keeps the notify list exact and leaves a woken caller, or nobody asleep |
| Console.WakeAllKeeps | pkg/kqueue/kqueue.go:270-271 | a Broadcast empties the notify list and leaves nobody asleep |
| Console.LoopNoLost | pkg/kqueue/kqueue.go:130-147 | turning a fetched edge into a signal never loses it on the way |
| Console.LoopStepKeeps | pkg/kqueue/kqueue.go:118-164 | every step of the event loop keeps the invariant |
| Console.AddStepKeeps | pkg/kqueue/kqueue.go:85-114 | the registration before the mapping keeps the invariant |
| Console.KernelStepKeeps | pkg/kqueue/kqueue.go:94-99 | arriving bytes and spurious edges keep the invariant |
| Console.ShutStepKeeps | pkg/kqueue/kqueue.go:264-274 | every step of Shutdown keeps the invariant |
| Console.PollDecides | pkg/kqueue/kqueue.go:191-256 | after a console call a caller is about to sleep exactly on a hangup, unless it is a reader of a closed console with nothing in a non-empty buffer; on an open console every hangup sleeps |
| Console.LookOwes | pkg/kqueue/kqueue.go:134-145 | an event on a mapped console leaves its own half owed a signal, and exactly both halves when it reports the end of file; on an unmapped one, none |
| Console.EdgeReportedOnce | pkg/kqueue/kqueue.go:94-147 | a half whose event was fetched is not reported again, in any run, before bytes arrive for it or a spurious edge |
| Console.NotOvertaken | pkg/kqueue/kqueue.go:206-288 | while a caller sleeps on, nobody behind it and nobody later to sleep gets ahead of it in the notify list |
| ConsoleTraffic.WritesConserved | pkg/kqueue/kqueue.go:231-256 | in every state of every interleaving of any number of writers with each other, the loop and Shutdown, what crossed the device for a call since it began is exactly `p[..n]`, in order, with no gap and no repeat |
| ConsoleTraffic.NothingBlocked | pkg/kqueue/kqueue.go:231-256 | following the bytes takes nothing away: every enabled step of the console machine is still possible |
| ConsoleReads.ReadsConserved | pkg/kqueue/kqueue.go:191-222 | in every state of every interleaving of any number of readers, what arrived is handed out once and in order, the rest being still available, and each buffer starts with exactly the `n` bytes handed to its call and ends as it was |
| ConsoleIO.Device.Write | pkg/kqueue/kqueue.go:231-256 | the loop alone, against any answers of the console and any traffic of others while it sleeps: the bytes accepted for this call are `p[..n]`, and `n` and the result are those of the answers |
| ConsoleIO.Device.Read | pkg/kqueue/kqueue.go:191-222 | the buffer is filled from the front with exactly the bytes delivered to this call; the rest of it is unchanged |
| ConsoleIO.Device.WriteOnce | pkg/kqueue/kqueue.go:236-246 | one turn of the write loop accepts the given bytes and waits exactly on a hangup |
| ConsoleIO.Device.ReadOnce | pkg/kqueue/kqueue.go:196-212 | one turn of the read loop stores the given bytes after those already read and waits exactly on a hangup of an open console, or with something read, or into an empty buffer |
| ConsoleIO.OutcomeMeaning | pkg/kqueue/kqueue.go:191-256 | a nil write error implies that everything was written, a nil read error implies progress, the closed error implies that nothing was read, and a call stays asleep exactly when every answer makes it wait |
| ConsoleIO.ReturnsExactly | pkg/kqueue/kqueue.go:191-256 | a call returns at the first answer that is not a hangup, or is a closed reader's with nothing in a non-empty buffer; its count is all it was offered, as far as the buffer reaches, and nil, `EOF`, the short write, the other error and the closed error are returned each in exactly one case |
| ConsoleIO.AsleepExactly | pkg/kqueue/kqueue.go:191-256 | a call is still asleep exactly when no answer so far ends it, and then it has what it was offered |
| ConsoleIO.OpenHangupsSleep | pkg/kqueue/kqueue.go:198-246 | on an open console any number of hangups leaves a call asleep, whatever its buffer and whatever it has |
| TaskGroupSafety.SemaphoreConserved | pkg/taskgroup/taskgroup.go:253-365 | in every reachable state the tokens in the channel are the submitters past acquisition plus the workers not yet released, never more than the capacity; the WaitGroup counts its workers |
| TaskGroupSafety.ChannelNotReplacedWhileHeld | pkg/taskgroup/taskgroup.go:609-622 | a step makes a new channel, of whatever capacity, exactly when it is a SetLimit before the start, and nobody holds a token then |
| TaskGroupSafety.AtMostLimitRunning | pkg/taskgroup/taskgroup.go:305-365 | at most `maxConcurrent` tasks have status Running, in every reachable state |
| TaskGroupCalls.LimitKept | pkg/taskgroup/taskgroup.go:609-622 | with the limit read off the calls (the constructor's, or the last SetLimit before the start): if positive, at most that many tasks are Running and tokens held, in every state of every run; otherwise there is no channel |
| TaskGroupCalls.RefusedIffFull | pkg/taskgroup/taskgroup.go:275-303 | a submitter can take a token exactly when fewer than the limit are held, and a TryGo is refused exactly when all of them are |
| TaskGroupProgress.SubmitterMovesIff | pkg/taskgroup/taskgroup.go:253-308 | while `mu` is free, an unfinished Go or TryGo can move exactly unless it is a Go that finds the limit used up and the context not done, or is queued behind the goroutine writing the group's error |
| TaskGroupProgress.WorkerMovesIff | pkg/taskgroup/taskgroup.go:308-392 | while `mu` is free, a worker can move exactly unless it is queued behind the goroutine writing the group's error, so it always gets to give its token back |
| TaskGroupSafety.ErrorsAccountedFor | pkg/taskgroup/taskgroup.go:367-392 | PanicCount plus FailCount is the number of workers that recorded an error, PanicCount the number whose text carries the panic mark, and the keys of TaskErrors are those workers' names |
| TaskGroupSafety.PanicsCounted | pkg/taskgroup/taskgroup.go:865-892 | in every reachable state each worker that recorded a recovered panic is counted as a panic, and beside them exactly the plain failures whose text carries the mark |
| TaskGroupSafety.WaitWaits | pkg/taskgroup/taskgroup.go:394-426 | a Wait takes its done branch only after every worker launched before it began has left the WaitGroup |
| TaskGroupEnd.CancelHasCause | pkg/taskgroup/taskgroup.go:294-514 | a failing or panicking task never cancels its siblings: a cancelled context implies an earlier cancellation from outside, by CancelWithReason or Close, or by the Wait that finished |
| TaskGroupEnd.FundKeeps | pkg/taskgroup/taskgroup.go:496-505 | setFundamentalError is reached only with the context already done |
| TaskGroupCalls.CancelledIffCause | pkg/taskgroup/taskgroup.go:294-514 | the context is done exactly when a step of the run has cancelled it: from outside, by Close or CancelWithReason, or by the Wait that finished |
| TaskGroupCalls.ReturnMeans | pkg/taskgroup/taskgroup.go:394-473 | when CancelWithReason or Close has returned the context is done; when Close has returned the cleanup is over or a Wait has finished the group; when Wait has returned the group is finished and its context done |
| TaskGroupCalls.ErrorHasSource | pkg/taskgroup/taskgroup.go:496-514 | the group's error is the text of an error that some worker recorded, or the context's, and then the context is done |
| TaskGroupCalls.WaitReports | pkg/taskgroup/taskgroup.go:428-473 | the finishing Wait returns the collected errors exactly when a worker has recorded one, and every Wait returns some error once a failing worker has reported |
| TaskGroupCalls.ErrorsNameTasks | pkg/taskgroup/taskgroup.go:383-389 | the names with a collected error are names of submitted tasks |
| TaskGroupProgress.DoneContextIsReported | pkg/taskgroup/taskgroup.go:294-410 | a Go or Wait that took the branch of a done context leaves the group with an error by the time it returns |
| TaskGroupEnd.ErrWrittenOnce | pkg/taskgroup/taskgroup.go:496-514 | the group's error is written at most once: once there, it is there in every later state |
| TaskGroupEnd.OnlyCloseSnapshots | pkg/taskgroup/taskgroup.go:936-941 | the cleanup snapshot is taken by a Close call only, and only once |
| TaskGroupEnd.SnapshotFixed | pkg/taskgroup/taskgroup.go:905-941 | nothing registered after the snapshot is ever part of it |
| TaskGroupEnd.CleanupRunsOnce | pkg/taskgroup/taskgroup.go:936-977 | over any mix of Close and Wait the entries that ran are a prefix of the snapshot read backwards, all of it when the cleanup is over, and none without a snapshot |
| TaskGroupCalls.CleanupReversesCalls | pkg/taskgroup/taskgroup.go:905-977 | the list holds the names in the order of the RegisterCleanup calls, and what has run is a prefix of those registered before the snapshot, last registered first; all of them when the cleanup is over |
| TaskGroupCalls.OnlyCloseAndWaitClean | pkg/taskgroup/taskgroup.go:999-1035 | only a Close or a Wait ever takes a step of the cleanup, never CancelWithReason |
| TaskGroupCalls.CloseOfFinishedGroup | pkg/taskgroup/taskgroup.go:1019-1026 | in every continuation a Close of a finished group does nothing but look at the flag |
| TaskGroupCalls.CloseBegins | pkg/taskgroup/taskgroup.go:1019-1026 | a Close called once the group is finished is such a call from its first step |
| TaskGroupEnd.RunEntry | pkg/taskgroup/taskgroup.go:953-973 | a panic in one cleanup function unwinds to the deferred recover and goes no further |
| TaskGroupEnd.RunEntries | pkg/taskgroup/taskgroup.go:943-974 | the loop, which an escaping panic would end, runs every entry once, last first, and reports exactly those that fail or panic |
| TaskGroupEnd.WaitBlocksForever | pkg/taskgroup/taskgroup.go:428-444 | a Wait that took `mu` before any snapshot stays blocked in every continuation, and no step that needs `mu` ever happens again |
| TaskGroupEnd.WaitReturns | pkg/taskgroup/taskgroup.go:428-444 | with a snapshot taken, the finishing Wait has a run to its return |
| TaskGroupEnd.WaitReturnsIffSnapshot | pkg/taskgroup/taskgroup.go:394-472 | in every reachable state the finishing Wait can return if and only if a Close had already taken the snapshot |
| TaskGroupEnd.EndRun | pkg/taskgroup/taskgroup.go:394-520 | cancellation, error, lock and cleanup invariants hold after any run |
| TaskGroupIds.NumberedStep | pkg/taskgroup/taskgroup.go:262-291 | one step keeps the live ids equal to 1..k, with k the number of tasks and the counter less the decrements owed, if and only if it is orderly |
| TaskGroupIds.NumberedIffOrderly | pkg/taskgroup/taskgroup.go:253-303 | along a whole run the ids are 1..k with k tasks, in every state, if and only if every step is orderly |
| TaskGroupIds.NoOverlapNumbered | pkg/taskgroup/taskgroup.go:253-303 | submissions that do not overlap keep the ids 1..k, refused ones included |
| TaskGroupIds.LifeStep | pkg/taskgroup/taskgroup.go:237-365 | every orderly step moves a status only from Pending to Running to an end, or from Pending to Canceled, and removes only a Pending task |
| TaskGroupIds.LifecycleHolds | pkg/taskgroup/task.go:92-98 | final statuses never change, and with history kept the history holds exactly the completed tasks, with the same records |
| TaskGroupCalls.TaskEndsAsItsFunction | pkg/taskgroup/taskgroup.go:330-365 | in an orderly run a task is Completed, Failed or Panicked exactly as its function returned, returned an error or panicked, under the name it was submitted with |
| TaskGroupProgress.UnstartedTaskIsCanceled | pkg/taskgroup/taskgroup.go:294-301 | in an orderly run the task of a Go that saw the context done is Canceled by the time the call returns, and for good |
| TaskGroupIds.RefusalReusesId | pkg/taskgroup/taskgroup.go:282-291 | refusing any id but the newest makes the next registration overwrite a live task |
| TaskGroupIds.OverlapCollides | pkg/taskgroup/taskgroup.go:282-291 | a reachable state in which the next id is already in use |
| TaskErrors.PanicsCountAsPanics | pkg/taskgroup/taskgroup.go:865-892 | a recovered panic is counted as a panic, a plain failure exactly when its own text carries the mark |
| TaskErrors.CountedByMark | pkg/taskgroup/errors.go:100-109 | an error goes to PanicCount exactly when `panic in task:` occurs somewhere in its text, to FailCount otherwise |
| TaskErrors.TaskGroupError.AddTaskError | pkg/taskgroup/errors.go:100-109 | a nil error changes nothing; otherwise the entry is set and exactly one counter goes up |
| TaskErrors.TaskGroupError.HasErrors | pkg/taskgroup/errors.go:72-74 | true exactly when some name has an error |
| TaskErrors.TaskGroupError.GetFailedTaskNames | pkg/taskgroup/errors.go:83-90 | the sorted list of exactly the names that have an error, each once |
| TaskErrors.SortedUnique | pkg/taskgroup/errors.go:83-90 | that list is determined by the set of names |
| TaskErrors.LeqMeans | pkg/taskgroup/errors.go:83-90 | the order of that list: a prefix comes first, otherwise the first difference decides |
| Watches.Watcher.Watch | pkg/psnotify/psnotify.go:84-101 | a closed watcher refuses; otherwise the pid is inserted or its flags are added to |
| Watches.Watcher.RemoveWatch | pkg/psnotify/psnotify.go:104-112 | removes the pid, or reports that it is not watched |
| Watches.Watcher.HandleEvent | pkg/psnotify/psnotify_linux.go:186-286 | one event computes the table `Handle` and sends `Sends`, an exit only after its entry is gone |
| Watches.Watcher.Close | pkg/psnotify/psnotify.go:64-81 | the first close drops every watched pid, each once; later ones change nothing |
| Watches.ForkClosure | pkg/psnotify/psnotify_linux.go:186-286 | from a watched root, after any history, a pid is in the table exactly when a chain of forks reaches it with no leader exit since, and every entry has the root's flags |
| Watches.SendsClosure | pkg/psnotify/psnotify_linux.go:218-286 | what is sent for each event of any history: one note exactly for followed processes, an exit only for the leader, and nothing changes on a thread's exit |
| Watches.FollowedStep | pkg/psnotify/psnotify_linux.go:186-286 | the chain-of-forks definition, one event at a time |
| Watches.HandleUniform | pkg/psnotify/psnotify_linux.go:156-286 | one event adds exactly the child of a watched parent and removes exactly an exiting leader |
| Watches.FlagsIndependent | pkg/psnotify/psnotify_linux.go:156-161 | fork, exec and exit are watched independently of each other, and a combination when each of its parts is |
| Watches.WatchAccumulates | pkg/psnotify/psnotify.go:84-101 | watching again adds to the kinds watched and touches no other pid |
| Watches.HandleAnyFlags | pkg/psnotify/psnotify_linux.go:186-286 | for a table with any flags: a fork of a process watched for exec gives the child all its parent is watched for beside its own, a leader's exit removes a process watched for exit, and nothing else changes |
| WatchProtocol.DeliveredInOrder | cmd/runm-linux-init/psnotify.go:159-250 | the consumer receives notes in kernel order, with at most one in flight |
| WatchProtocol.ExitedPidIsForgotten | cmd/runm-linux-init/psnotify.go:199-245 | once the consumer has handled the exit of a pid, and until that pid is forked again, it is in neither table, whatever late Watch crossed the removal |
| WatchProtocol.SteadyRunFollowsForks | cmd/runm-linux-init/psnotify.go:159-245 | without racing forks the watcher never crashes and the shared table is exactly the set of followed pids, outside the exits on their way |
| WatchProtocol.SteadyRunMapsForks | cmd/runm-linux-init/psnotify.go:159-245 | without racing forks the consumer's pid map holds, the root aside, exactly the followed pids about which no note is due; at rest, all of them |
| WatchProtocol.SteadyNotes | pkg/psnotify/psnotify_linux.go:218-286 | without racing forks, and whatever the consumer does meanwhile, each event is followed by exactly the notes that `Sends` gives for the table it found: fork, exec and exit alike |
| WatchProtocol.NotesMatchHistoryIff | pkg/psnotify/psnotify_linux.go:218-286 | they are the notes of a watcher left alone with the same history if and only if the event is not about a pid put back during its exit |
| WatchProtocol.EventBreaksIff | pkg/psnotify/psnotify_linux.go:227-235 | taking an event can break the table before the next one if and only if it is a fork by a watched process while the consumer is about to remove its parent or its child's pid |
| WatchProtocol.RaceBreaksIff | pkg/psnotify/psnotify_linux.go:227-235 | the same after every run without racing forks |
| WatchProtocol.ReuseLeaks | cmd/runm-linux-init/psnotify.go:199-245 | a run in which a reused pid stays in both tables after it has exited |
| WatchProtocol.LateForkCrashes | pkg/psnotify/psnotify_linux.go:227-235 | a run in which the watcher reads an entry that the consumer has just removed |
| WatchProtocol.ForkCrashesIff | pkg/psnotify/psnotify_linux.go:227-231 | after any run, taking a fork can crash the watcher before its next event if and only if the parent is in the table and the consumer is on its way to deleting it |
| Forest.AddRecKeeps | cmd/runm-linux-init/psnotify.go:161-182 | a fork keeps parents older than children, children and parents matching, and every child listed once, whatever pid is reused |
| Forest.AncestorsClimb | cmd/runm-linux-init/psnotify.go:97-101 | the parent chain goes through strictly older records to one without a parent |
| Forest.AncestorsStable | cmd/runm-linux-init/psnotify.go:161-182 | a fork never changes the chain of an existing record |
| Forest.Consumer.OnFork | cmd/runm-linux-init/psnotify.go:161-182 | adds one node under the parent's current record, maps the child to it and keeps the forest; no other record's times change |
| Forest.Consumer.OnExit | cmd/runm-linux-init/psnotify.go:199-245 | gives the record its exit time and unmaps the pid; an unknown pid changes nothing, and no other time changes |
| Forest.Consumer.OnExec | cmd/runm-linux-init/psnotify.go:249-257 | gives the record, if there is one, its exec time, and changes no other time |
| Forest.Consumer.LogValue | cmd/runm-linux-init/psnotify.go:95-129 | the walk along parents ends and lists exactly the ancestors, and every duration has a fork event to subtract |
| Forest.LinksMatch | cmd/runm-linux-init/psnotify.go:161-182 | on the heap, a parent is an earlier node that lists the child, children refer back, and none is listed twice |
| Registry.RegistryHolds | pkg/dapmux/server.go:64-183 | over every run, targets and connections have the same keys, the active id is empty exactly when there is no target and otherwise registered, and exactly the connections of removed targets are closed |
| Registry.ActiveStays | pkg/dapmux/server.go:70-183 | the active target changes only when it is removed or another one is chosen |
| Registry.LastOperation | pkg/dapmux/server.go:64-183 | after any run: what the last operation did to its own target, connection and the active id, and that it left every other target alone |
| Registry.Server.RegisterTarget | pkg/dapmux/server.go:38-92 | a failed dial changes nothing; otherwise the target is added and becomes active if none was |
| Registry.Server.UnregisterTarget | pkg/dapmux/server.go:94-133 | an unknown id changes nothing; otherwise the target and its connection go, and a new active target is elected if it was active |
| Registry.Server.SetActiveTarget | pkg/dapmux/server.go:168-183 | chooses a registered target, refuses an unknown one |
| Registry.Elect | pkg/dapmux/server.go:112-120 | the walk in any order returns an active target, or nothing when there is none |
| Announcements.WrongIffRemovedFirst | pkg/dapmux/server.go:70-133 | in every run, once everything about a target was offered to a subscriber and none of it dropped, the subscriber is wrong about the target if and only if the removal was offered before the announcement |
| Announcements.RemovalMisleadsIff | pkg/dapmux/server.go:94-128 | deleting a target can still have a listed subscriber told the removal first if and only if the announcement has not passed that subscriber |
| Announcements.WorldRun | pkg/dapmux/server.go:38-133 | over every run of registrations, removals and overlapping walks, each target is announced once and told removed once, and the notes begun say which targets are registered |
| Announcements.RegistryUnderneath | pkg/dapmux/server.go:64-183 | beside all announcements the registry goes through exactly the operations of the calls, in order, so its invariant holds in every such run |
| Announcements.LockFreed | pkg/dapmux/server.go:94-133 | a removal never keeps the registry's lock for good: from every reachable state it can be freed, the registry unchanged |
| Announcements.DeceivedIffMisled | pkg/dapmux/server.go:70-133 | with nothing about a target lost, a subscriber told the removal first lists a target that is not registered, and the other way round |
| Announcements.RemovalDeceivesIff | pkg/dapmux/server.go:94-128 | deleting a target can leave a listening subscriber, every note about it taken, listing a target that is not registered if and only if the announcement had not passed that subscriber |
| Announcements.EarlyRemovalDeceives | pkg/dapmux/server.go:70-133 | a run from the start ends with a subscriber, nothing lost, listing a target that is not registered |
| Broadcast.BroadcastSafe | pkg/dapmux/server.go:203-295 | no run sends on a closed channel; what a subscriber received and has queued are, in order, the offers that found a free slot; after removal it was offered exactly the events begun while it was listed, and missed one only when all 100 slots were taken |
| Broadcast.OffersOnlyOpen | pkg/dapmux/server.go:284-295 | in every run, the next subscriber of a walk has an open channel |
| Broadcast.ClosedIff | pkg/dapmux/server.go:208-220 | a channel is closed exactly once its subscriber has closed it, and is off the list by then |
| Broadcast.InvRun | pkg/dapmux/server.go:203-295 | the list holds each subscriber that has not been removed once, nothing is offered twice, and each stream was offered exactly the events begun since it joined and not still on the way |
| Broadcast.OrderLostIffOverlap | pkg/dapmux/server.go:284-295 | from a state with all offers in order, the order can be lost without a further broadcast if and only if an older broadcast trails a newer one |
| Broadcast.SerialBroadcastsInOrder | pkg/dapmux/server.go:284-295 | broadcasts that do not overlap reach every subscriber in the order begun |
| Broadcast.OverlapReorders | pkg/dapmux/server.go:284-295 | a run in which a subscriber is offered the newer event first |
| Broadcast.RemoveInPlace | pkg/dapmux/server.go:212-217 | the removal loop leaves, in the same array, the list without that channel |
| Broadcast.WithoutKeepsOrder | pkg/dapmux/server.go:212-217 | removal takes out one channel and keeps the others in order |
| Framing.NeverTrims | pkg/logging/delim.go:27-51 | the two-byte trimming is never reached: a token is the whole piece before the delimiter, or the rest at the end |
| Framing.ByteOfIs | pkg/logging/delim.go:27-42 | the delimiter searched for is the rune's low eight bits |
| Framing.HandleDelimitedProxy | pkg/logging/delim.go:13-25 | for every stream and every way of cutting it into reads, the pieces are delivered in order; all of them, adding up to the stream without delimiters, if they fit the largest buffer, and otherwise exactly those before the first that fills it, all of them shorter, with the too-long error |
| Framing.PiecesStrip | pkg/logging/delim.go:35-51 | the pieces add up to the stream without its delimiters |
| Framing.PiecesClean | pkg/logging/delim.go:35-51 | no piece holds a delimiter |
| Framing.FrameRoundTrip | pkg/logging/delim.go:35-51 | messages framed with the delimiter come back one by one, empty ones too |
| Framing.Scanner.Scan | pkg/logging/delim.go:14-20 | one scan takes the next piece off what is left, or stops because nothing is left or a piece fills the largest buffer |
| SearchDomains.AcceptableIffCuttable | core/gvnet/dns.go:38-59 | on macOS the result is a prefix of the domains, at most 6 of them and at most 256 bytes rejoined, if and only if the line has at most 256 bytes or some domain ends before that limit |
| SearchDomains.DarwinKeepsShortLines | core/gvnet/dns.go:40-56 | on macOS a line of at most 256 bytes gives all its domains in order, or the first six |
| SearchDomains.DarwinKeepsLongLines | core/gvnet/dns.go:40-56 | an over-long line gives, of the domains that end before byte 256, all or the first six |
| SearchDomains.DarwinKeepsWholeDomains | core/gvnet/dns.go:40-56 | an over-long line keeps exactly the domains that end before the limit, six at most |
| SearchDomains.DarwinCutsPrefix | core/gvnet/dns.go:42-49 | with no domain ending before the limit the result is the name of the prefix |
| SearchDomains.LinuxRoundTrip | core/gvnet/dns.go:49-58 | elsewhere the line can be rebuilt from the result, and any list of domains comes back |
| SearchDomains.LinuxAnyPrefix | core/gvnet/dns.go:38-58 | elsewhere, whatever the prefix, the joined result is the line with that prefix taken off once, or the line itself |

## Left out

- Console: one console per kqueue, and `Shutdown` called again only after the previous call is over; closing the kqueue itself and failing kernel calls are not modelled.
- Console.NoLostWakeup: nothing is promised to a writer, or to a reader outside `Console.NoReaderWakeupLost`, once the console is unmapped; `Console.StrandedIff` shows why.
- Console.StrandedIff: a reader is left with a byte, or with an empty buffer, only by a console that reports a hangup together with bytes, or to an empty slice; the `io.Reader` contract allows both, and an `os.File` does neither.
- Console: assumed of the kernel: an arrival after registration queues an edge, and a hangup answer means that nothing is left on the kernel's side at that moment.
- TaskGroup: a critical section that does not block is one step; logging, pprof labels, timestamps, tickers and the blocked-goroutine report have no effect on the model; `runtime.Goexit` inside a task, and cleanup functions that call back into the group, are not modelled. A step of the machine that runs a cleanup entry includes the recovery of its panic, which `TaskGroupEnd.RunEntry` shows.
- TaskGroup: names made up for cleanups registered without one, the reason kept by `CancelWithReason`, and the boolean returned by `TryGo`.
- TaskGroupIds: a task id is its number; the common name in front of it is the group's.
- Goroutine ids (`getGoroutineID`, `parseGoroutineHeader`): diagnostics.
- WatchProtocol: `Close` of the watcher beside the consumer; the netlink socket and the byte layout of its messages; events are taken as decoded.
- Forest: what is read from `/proc` and the text of a record's id; a record is named by its pid.
- Registry: identifiers drawn by `uuid.New` are taken to be new and non-empty; `ListTargets`, `ForwardDAPMessage` and the health service.
- Broadcast: the filter by event type before an event is sent to the client.
- Framing.HandleDelimitedProxy: a last piece of exactly 10 MB is delivered or refused depending on whether the reader reports the end together with it, so neither is stated; readers that return no bytes and no error a hundred times in a row, and failing writers, are not modelled.
- SearchDomains: reading `resolv.conf`; a character stands for a byte.
- Everything else in the repository (virtual machine set-up, gvisor network wiring, shims, generated protocol code, small utilities): wiring of foreign libraries and system calls, or members that would be easy.
