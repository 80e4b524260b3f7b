# Assembly-line's protocols, in Dafny

Assembly-line's daemon runs coding agents as *rounds* of *jobs*. Everything it
knows of a job is an append-only event log that it folds into a report. This
project models the protocols that meet at that log, and proves what holds of
them over every interleaving, crash and restart:

- **The job lifecycle** (`Events`, `Report`, `Account`, `Epochs`, `Queue`, `Recovery`,
  `RoundTasks`, `Lifecycle*`, `CancelTiming`, `RecoveryExact`, `LostPlace`,
  `Dispatch`).
  `Lifecycle` is a transition system: submits, cancels, the dispatcher, one task
  a round, stop, crash and restart. The logs, and a history of the launches
  asked for, survive a crash; nothing else does. `cancel` and the dispatcher
  hold the cancel table's lock from reading a log to acting on it; submits and
  round tasks append outside it, so each of them is a step of its own.
  `LifecycleInvariant` and `LifecycleStart` show that every step keeps one
  invariant, `LifecycleSafety` what follows for every run. `Dispatch.Daemon` is
  the same daemon in the code's form, a class whose methods change the table,
  the line and the tallies in place. Each method takes the steps of `Lifecycle`
  it stands for and so keeps the invariant.
- **A round's stream** (`Frames`, `Collect`, `CollectorCrash`, `CollectorRuns`,
  `PodLog`, `Tail`, `Round`, `RoundVerdict`, `RoundTold`): numbered frames from the round to its collector, a
  bookmark that survives crashes, a pod's log read over streams that drop and
  replay, a file followed while it is written, and the one verdict a round ends
  with, whatever it met and wherever its stream was cut.
- **Claiming ids** (`Decimal`, `Jobs`, `Claim`): racing claimers that list a
  remote's branches and create one if it is absent.
- **Repository keys** (`RepoKey`, `KeySegments`): the scp-like, ssh and https spellings of one
  remote, and when they have the same key.

Four claims one might make are false of the code. Each has the input that shows
it, and the exact condition:

- *While a daemon serves, a job that is Queued is in line.* Take a job cancelled
  before its round starts and revised before that round's Registration is
  dropped: the dispatcher passes it over. It then has no place, and gets none
  until its daemon ends or it is cancelled
  (`LifecycleSafety.WithoutAPlaceForGood`).
  `LostPlace.AQueuedJobCanLoseItsPlace` is such a run;
  `LifecycleSafety.PassedOverExactly` says exactly when the dispatcher passes a
  job over, and `LifecycleSafety.QueuedJobsHaveAPlace` that no other job is
  without a place.
- *A cancel, once accepted, closes its job or stops its round.* It reads the
  job's log and then acts, and appends may fall in between. What decides is
  where it acts. `LifecycleSafety.CancelReachesTheLiveRound`: it takes effect
  exactly if the round it found awaited is awaited still and the job is not in
  the window, Queued with the entry of a task already over. Otherwise the round
  has been judged since the reading, or the cancel is lost
  (`CancelTiming.InTimeLateOrLost`): it answers that it stopped a running round,
  nothing changes but the token of that task, and the next daemon requeues the
  job (`LifecycleSafety.InTheWindowACancelIsLost`). Two runs lose one. The
  window is open when the cancel reads, by a revise as above, and the job is
  then dispatched with a fresh token (`LostPlace.AnAcceptedCancelCanBeLost`). Or
  it opens after the reading: the daemon stops, and the waiting task leaves its
  job queued (`LostPlace.AStopCanLoseACancel`). A token fired while its task
  still waits is never lost in its daemon's life: the task closes the job and
  starts nothing (`CancelTiming.FiredInTimeNeverStarts`). A daemon that dies
  before that leaves the job Queued.
- *A remote's scp-like spelling has the key of its others.* With "://" at
  its colon or in its path, the spelling is read as a URL: `git@h://o/r` is
  keyed under a host `o` (`RepoKey.TwoSlashesChangeTheKey`), and `h:a://e/r`,
  which has no key as a host and a path, is keyed under `e`
  (`RepoKey.AnUnkeyableRemoteCanBeKeyed`). `RepoKey.SpellingIsKeyedAlike` says,
  for every host and path, that a spelling is keyed as its host and path exactly
  when it is not so read, or neither reading has a key.
- *Over dropped streams, what is read of a pod's log is the log.* A stream that
  ends inside a line's text gives the part as a line, and the whole line is then
  taken for a replay (`PodLog.ACutLineIsNotReadAgain`).
  `PodLog.AcceptedIsAPrefix` says that every line is accepted once, in order, as
  the first stream to reach it shows it, and that these are the log's own lines
  exactly if none of those streams ended inside one.

Where a comment and the code differ, the code is followed. The comment on
`register_if_still_queued` (src/daemon/dispatch.rs:174-177) names one reason to
pass a job over, a round launched from an earlier place; the code has another, a
round that ended before it began and whose entry is still there.

## Model

| member | source | states |
|---|---|---|
| LifecycleSafety.EpochSafety | src/daemon/dispatch.rs:150-192 | in every run, from one request to the next a log has no two starts, no two verdicts and no start after a verdict, and no start at all where a cancel ended the wait |
| LifecycleSafety.LaunchedAtMostOnce | src/daemon/dispatch.rs:392-475 | over any number of daemons, crashes and restarts, the runner is asked to launch each round of each job at most once, and only a round whose start the log holds |
| LifecycleSafety.StartsAreNumberedInOrder | src/daemon/dispatch.rs:178-192 | the starts in a job's log, taken by position, are numbered 1, 2, ..., n, and n is the report's count of rounds, even for a job in line twice |
| LifecycleSafety.CancelTableIsExact | src/daemon/dispatch.rs:200-266 | a live round its job's report awaits is the very entry the table holds; every entry belongs to a live registered task of its job and round; no two live tasks of a job share a round |
| LifecycleSafety.DroppingEvictsNoOther | src/daemon/dispatch.rs:256-266 | dropping a Registration takes no entry with another token out of the table |
| LifecycleSafety.CancelReachesTheLiveRound | src/daemon/dispatch.rs:150-172 | wherever a cancel acts, however long after it read: a refusal is of a job neither Queued nor Running, a close is of one still Queued that no task can start, and a token fired is that of the awaited round's task; it changes one token, or appends the one failure it words, or changes nothing; an accepted cancel takes effect if and only if it closes, or its round is awaited still, and the job is not in the window |
| LifecycleSafety.InTheWindowACancelIsLost | src/daemon/dispatch.rs:157-161 | an accepted cancel that acts in the window, whenever that opened, changes nothing but the token of a task already over; the job is Queued still and any next daemon requeues it |
| CancelTiming.InTimeLateOrLost | src/daemon/dispatch.rs:150-161 | from where it reads to where it acts, whatever comes between, a cancel decides the same; with a token it reaches a task short of its verdict, or the round was judged in between, or the job is in the window |
| CancelTiming.FiredInTimeNeverStarts | src/daemon/dispatch.rs:408-412 | a task still waiting when its token is fired starts no round over any run of its daemon: it waits on, or has closed its job as cancelled before it started |
| LostPlace.AnAcceptedCancelCanBeLost | src/daemon/dispatch.rs:157-161 | a run in which a Queued job's cancel is accepted and leaves the state as it was, and its round's task is then spawned with an unfired token, no other cancel between |
| LostPlace.AStopCanLoseACancel | src/daemon/dispatch.rs:408-412 | a run in which a cancel reads outside the window, of a task that could be stopped, the daemon stops, the task leaves its job queued, and the cancel then changes nothing but a token |
| LifecycleSafety.ReadingsHoldUntilActedOn | src/daemon/dispatch.rs:119-122 | a decision to close a job, or to register its next round, still holds when it is acted on, whatever was appended since the reading |
| LifecycleSafety.RecoveryIsComplete | src/daemon/mod.rs:128-163 | once jobs are resumed every Running job has its round's registered task, every Queued job is in line exactly once and no other is, and along the line the times of the jobs' last request events never decrease |
| LifecycleSafety.CleanShutdownLosesNothing | src/daemon/mod.rs:114-120 | once the dispatcher has returned and no launch is unsettled, nothing the daemon does before it ends leaves a round started with no handle, and the next daemon closes none as lost |
| LifecycleSafety.SettledLosesNone | src/daemon/dispatch.rs:237-242 | with no launch unsettled, no log folds to Running with no handle |
| LifecycleSafety.CapAndOrder | src/daemon/dispatch.rs:273-307 | no more rounds are live than the cap, or than were reattached at start if those were more; a dispatch happens only under the cap; and the jobs dispatched are some of those enqueued, in the same order |
| LifecycleSafety.QueuedJobsHaveAPlace | src/daemon/dispatch.rs:222-227 | while a daemon serves and is not stopping, every Queued job it has not passed over is in line, in the dispatcher's hands, about to be enqueued, or has a task about to start it |
| LifecycleSafety.PassedOverExactly | src/daemon/dispatch.rs:178-192 | a Queued job is passed over if and only if the entry its report awaits is of a task already over; that round was cancelled or the daemon stops, and the job is left without a place unless it is in line twice |
| LostPlace.AQueuedJobCanLoseItsPlace | src/daemon/dispatch.rs:408-412 | a run that ends with a serving daemon with every slot free, no task and nothing in line, and a job still Queued |
| LifecycleSafety.WithoutAPlaceForGood | src/daemon/dispatch.rs:296-298 | a Queued job without a place stays Queued and without one over any run in which its daemon does not end and no cancel of it comes |
| LifecycleSafety.WithoutAPlaceACancelCloses | src/daemon/dispatch.rs:162-165 | outside the window, a cancel of such a job closes it |
| LifecycleSafety.StepKeeps | src/daemon/dispatch.rs:106-123 | every step of every actor keeps the invariant of table, tasks, tallies, line and logs |
| LifecycleSafety.RunKeeps | src/daemon/mod.rs:94-123 | so does every run |
| LifecycleSafety.HistoriesAreKept | src/daemon/dispatch.rs:273-307 | the histories the laws speak of are true: a launch is added exactly where one is asked for, a place where one is taken, a dispatch where a round is registered, a reattachment where one is owed |
| LifecycleSafety.ACrashLeavesTheLogs | src/daemon/mod.rs:94-105 | a daemon may crash at any moment, and the next one starts with the logs and the launches asked for and nothing else |
| LifecycleSafety.AnUnrecordedSubmitLeavesNothing | src/daemon/submit.rs:78-105 | a submit given up after its job was checked and before its request is recorded leaves everything as it was |
| LifecycleStart.BootKeeps | src/daemon/mod.rs:131-139 | a start reads every active job's log and owes each what it should |
| LifecycleStart.ResumeNextKeeps | src/daemon/mod.rs:141-156 | reattaching a round or closing one lost keeps the invariant, and what the other jobs are owed |
| LifecycleStart.SortedIsAskedInOrder | src/daemon/mod.rs:158-161 | along a sorted line the times of the jobs' last request events never decrease |
| LifecycleStart.SortIsStable | src/daemon/mod.rs:158-161 | of two jobs of which the first found was asked for no later, that one stands before the other |
| LifecycleInvariant.DispatchRegistersKeeps | src/daemon/dispatch.rs:296-305 | registering a job's next round and spawning its task keeps the invariant |
| LifecycleInvariant.TaskRecordsKeeps | src/daemon/dispatch.rs:414-463 | so does each of a task's appends, made outside the lock |
| LifecycleInvariant.CancelActsKeeps | src/daemon/dispatch.rs:157-171 | so does a cancel acting on what it read |
| LifecycleInvariant.SubmitRecordsKeeps | src/daemon/submit.rs:106-115 | so does a request recorded while others act |
| LifecycleInvariant.TaskUnregistersKeeps | src/daemon/dispatch.rs:256-266 | so does a Registration dropped late |
| RoundTasks.AppendKeepsConsistent | src/daemon/dispatch.rs:87-97 | an append by a task keeps every other task's round in step with its job's report and the table |
| RoundTasks.IdleOrUnawaited | src/daemon/dispatch.rs:157-171 | a job whose report awaits no entry of the table has no task short of its verdict |
| RoundTasks.RegisterKeepsConsistent | src/daemon/dispatch.rs:200-220 | a new entry may replace an older round's without orphaning a round still awaited |
| RoundTasks.UnregisterKeepsConsistent | src/daemon/dispatch.rs:256-266 | comparing rounds is enough for a dropped Registration to remove its own entry or none |
| Epochs.StateIsLastDecisive | src/report.rs:91-166 | a report's state is Queued, Running, Passed or Failed as its log's last request, start or verdict is the one or the other, and Pending if there is none |
| Epochs.AppendKeepsLogOk | src/daemon/submit.rs:160-167 | an event that may follow where the report stands keeps a log's epochs and its start numbers in order |
| Epochs.NamedOnceRequested | src/daemon/dispatch.rs:399-407 | a job whose log begins with a request has a remote, base, provider and prompt on record for good |
| RecoveryExact.ResumptionIsExact | src/daemon/fleet.rs:25-40 | on every reachable log: requeue if the last decisive event is a request; reattach, with that start's number and the handle last recorded since, if it is a start with a launch after it; lost if it is a start with none; nothing owed otherwise |
| RecoveryExact.LaunchedIsLastLaunch | src/report.rs:91-166 | a report's handle is that of the last launch recorded since the last request or start, and there is none if none was |
| Dispatch.Daemon.Cancel | src/daemon/dispatch.rs:150-172 | with an entry of the round the report awaits, its token is fired and Running answered; with none and the job Queued, one failure worded as a cancel ends its log and Queued is answered; else an error and no change. It takes effect exactly outside the window and keeps the invariant |
| Dispatch.Daemon.RegisterIfStillQueued | src/daemon/dispatch.rs:178-192 | exactly when the report is Queued and the table has no entry of the round after its count, that round is entered with the next token; else nothing changes |
| Dispatch.Daemon.Accept | src/daemon/submit.rs:54-127 | a submit is accepted exactly when nothing else refuses it and the job is new, or neither Queued nor Running, with a base and provider on record and its branch not gone; its log then ends with the request alone added and, unless the dispatcher is gone, the job ends the line; else nothing changed |
| Dispatch.Daemon.WhyNotContinued | src/daemon/submit.rs:154-186 | a job cannot be given another round exactly when it is unknown, Queued or Running, without a base or provider on record, or its branch is gone or cannot be asked about, and why not is then the answer |
| Dispatch.Daemon.DispatchInHand | src/daemon/dispatch.rs:296-305 | with the job Queued and no entry of its next round, the table gains that entry under the next token, both tallies rise by one and a task waits under that token; else all of these stay as they were |
| Dispatch.Daemon.DispatchWhilePossible | src/daemon/dispatch.rs:273-307 | the dispatcher's loop takes jobs from the front of the line only, stops only for a missing job or slot or because the daemon stops, and amounts to a run of the transition system |
| Dispatch.Daemon.DropRegistration | src/daemon/dispatch.rs:256-266 | no entry with this task's token is left, and every other entry stays as it was |
| Dispatch.Daemon.RunQueuedRound | src/daemon/dispatch.rs:392-475 | all that a queued round adds to its job's log, event by event with time and wording: cancelled before it started, nothing when stopping, or its start and then a failure to read its config, to launch or by the stop, or the launch with the handle the runner gave and then what is collected; a daemon that finds the log at the launch reattaches that round by that handle. Its task, slot and entry are gone afterwards and other entries untouched |
| Dispatch.LaunchedIsFoundAgain | src/daemon/dispatch.rs:458-460 | where a log goes on with the next round's start and a launch, what is owed is that round reattached by the launch's handle |
| Dispatch.Daemon.ReattachRound | src/daemon/dispatch.rs:487-513 | a reattached round adds to its job's log what is collected or, not found, one failure with the reason, touches no other log, and gives up its task and slot |
| Dispatch.Daemon.CollectRound | src/collect.rs:82-96 | a collected round's events are added to its job's log in order and to no other, each one the task may record there |
| Dispatch.Daemon.FinishRound | src/daemon/dispatch.rs:344-378 | however a task ended, its tallies and Registration are dropped and no other's |
| Dispatch.Daemon.ResumeJobsUnderRoot | src/daemon/mod.rs:128-163 | the start in place: every job has its due, and along the line the times of the jobs' last request events never decrease |
| Dispatch.Daemon.constructor | src/daemon/mod.rs:94-105 | a daemon starting on a root as the last one left it satisfies the invariant |
| Dispatch.Daemon.StopLaunching | src/daemon/dispatch.rs:233-235 | stopping changes the flag alone and keeps the invariant |
| Dispatch.SameRequestTimes | src/daemon/mod.rs:158-161 | sorting by the request times read at the start is sorting by those in the logs by then |
| Account.RequestsAreReported | src/report.rs:93-113 | a report's remote and first prompt are the first request's, its base, provider, latest prompt and time asked the last one's, and it has none before any |
| Account.WorkIsReported | src/report.rs:130-150 | its branch and pull request are the last told of, ever; its diff is the last committed since the last request or start |
| Account.RoundIsReported | src/report.rs:117-164 | its handle and its failure's reason are the last told since the last request or start |
| Account.TimeIsReported | src/report.rs:154-171 | the time a round took runs from its start to its verdict; none for a round never started, or a clock that ran backwards |
| Account.RoundsAreReported | src/report.rs:117-125 | its count of rounds is the highest number started |
| Frames.ReaderAgreesWithWriter | src/frame.rs:256-281 | routing what a writer wrote returns each body in turn, an event as an event and output as output whatever its text |
| Frames.EventsByPosition | src/frame.rs:98-116 | the events kept are those of the bodies that carry one, all of them, by increasing position |
| Frames.FrameWriter.Append | src/frame.rs:98-116 | however clones' appends interleave, the sink holds frames 1 to n in order and the events kept are those sent |
| Frames.ReplayIsToTheLastSeq | src/frame.rs:222-281 | whatever the lines, a replay runs up to exactly the highest number routed, or is over |
| Frames.RoutedExactly | src/frame.rs:222-281 | of any lines, in order or not: a frame is collected if and only if it is numbered past the bookmark and every frame before it; any other line if and only if there was no bookmark or a frame has reached it |
| Frames.ReplayDropsThroughBookmark | src/frame.rs:232-281 | replayed from its start, a stream is dropped through the bookmarked frame, lines between frames included, and collected from there on |
| Frames.ReplayLands | src/frame.rs:232-281 | what a resumed collection lands is every line after the bookmarked frame, once, in order |
| Frames.ResumeSplitting | src/frame.rs:222-281 | routing a prefix and then the whole from its last frame gives what routing once does, except that the prefix's lines after that frame, none a frame, come twice |
| Frames.ReadableFrames.Write | src/frame.rs:195-210 | the text shown depends on the bytes written, not on how the writes split them |
| Frames.ReadableInParts | src/frame.rs:177-203 | reading bytes in two parts, the unfinished line carried over, is reading them in one |
| Frames.ShownLineByLine | src/frame.rs:177-203 | a complete line is shown as an output frame's text, not at all if it is an event, and as it is if no frame; what follows is shown as if it came alone, and an unfinished line is not shown |
| Collect.JobFiles.StreamIntoLogs | src/collect.rs:59-97 | a first collection starts at the stream's first line and a later one after the bookmarked frame; from there each line lands once, by position, in the log it belongs to; the bookmark is then the last frame's number and moves only if there was one; a fired token is passed on once, if it is taken up before the stream's end, and else not at all |
| Collect.JobFiles.Collect | src/collect.rs:29-52 | the log gains the lines' events from where the collection starts, by position, and then one failure in the collector's words if none of them judges; it passes exactly if the last event that judges is a pass |
| Collect.CollectionLands | src/collect.rs:59-116 | whatever the bookmark, routing an in-order stream lands every line after the bookmarked frame, or every line without one, each once and in order in its log |
| Collect.VerdictIsTheLast | src/collect.rs:139-150 | events pass exactly if the last of them that judges is a pass |
| CollectorRuns.CollectAsARun | src/collect.rs:59-97 | a collection in place leaves its two logs and its bookmark as an uninterrupted run of the crashing collector leaves them |
| CollectorRuns.Uninterrupted | src/collect.rs:59-97 | a collector that begins and does not crash has a run to its stream's end, with each line routed and each bookmark written |
| Collect.SettledHasOneVerdict | src/frame.rs:284-303 | a verdict is added if and only if none was collected, and then there is just the one |
| Collect.VerdictAgreesWithReport | src/collect.rs:139-150 | the verdict returned is the state the job's log folds to |
| CollectorCrash.CrashesLoseNothing | src/collect.rs:59-116 | over any crashes and resumptions no line short of the furthest is missing, frames land in order, a resumption goes back over lines of which at most the last landed is a frame, and the report is that of an uncrashed collection |
| CollectorCrash.ACrashLeavesTheFiles | src/collect.rs:101-116 | a collector may crash at any moment, and the next one begins at the first line with the logs and the bookmark as they are |
| CollectorCrash.NothingBeforeTheBookmarkRepeats | src/collect.rs:91-116 | a collector lands only lines since the bookmark |
| CollectorCrash.ReadToTheEndLandsEverything | src/collect.rs:71-97 | one that reads its stream to the end has landed every line, and the report is that of the whole stream |
| CollectorCrash.RetellingIsGapless | src/collect.rs:83-94 | landings that go back only over lines after the last frame miss none |
| CollectorCrash.FramesLandInOrder | src/frame.rs:256-281 | no frame lands after a later one |
| CollectorCrash.ToldTwice | src/report.rs:91-166 | applying any event a second time leaves a report as it is |
| CollectorCrash.ReportAbsorbsRepeats | src/report.rs:91-172 | a log with a retelling's repeats folds to the same report as one without |
| CollectorCrash.LandsOnce | src/collect.rs:59-97 | a line lands at most once over any crashes if no collection begins after it has landed |
| RoundVerdict.BeginsBeforeItsVerdict | src/daemon/fleet.rs:25-40 | a round is reattached only while its log has it Running, so no collection begins with its verdict landed |
| PodLog.LineIsReadOnce | src/runner/kubernetes.rs:227-253 | a line is accepted if and only if it is the first one not read yet |
| PodLog.AcceptedIsAPrefix | src/runner/kubernetes.rs:199-254 | however many streams there are, ending anywhere, inside a line too, and restarted no later than the stamp last accepted begins, what is accepted is, index by index, each of the log's lines as far as any stream reached, as the first stream to reach it shows it; these are the log's first lines if and only if each such stream shows them whole |
| PodLog.FirstShownIsFirst | src/runner/child.rs:64-73 | the stream that first shows a line is the first to go past it, and it shows the line whole or as much of it as came before the stream ended |
| PodLog.ACutLineIsNotReadAgain | src/runner/child.rs:64-73 | a log, and two streams of it, of which the first ends inside a line: the part is told and the whole never |
| PodLog.StreamsReadOn | src/runner/kubernetes.rs:199-254 | the same from any point: what is accepted continues what was, each line as the first stream to reach it shows it |
| PodLog.ReconnectsBetween | src/runner/kubernetes.rs:642-652 | between two new lines or connections that held, the trace has at most five reconnects |
| PodLog.KubernetesRound.ReconnectsAreConnections | src/runner/kubernetes.rs:717-734 | the trace is of real connections: as many reconnects as there were follows after the first, and as many new lines as pod lines told |
| PodLog.KubernetesRound.ADrainedLogIsWhole | src/runner/kubernetes.rs:659-661 | if the last drain showed the pod's log to its end, the strings returned hold, by position, every line of the log once, in order, short only where a connection ended inside it, and otherwise every line of kubectl's own; with no such connection they are the log's texts |
| PodLog.KubernetesRound.TextUnlessReplayed | src/runner/kubernetes.rs:621-636 | a pod's line is returned exactly when it is the next one unread, as the log's text at that place or, where a connection ended inside it, the start of it; kubectl's own line always, as it said it, and that is kept as its last |
| PodLog.KubernetesRound.StreamAfterFollowEnded | src/runner/kubernetes.rs:641-665 | by the pod's status: a running pod is followed again while reconnects are left, and else abandoned; a finished one is drained, if a drain can be had; a gone one ends; an unreadable one is abandoned for that reason |
| PodLog.KubernetesRound.NextLine | src/runner/kubernetes.rs:699-737 | each string returned is the log's next unread line, cut only where a connection ended inside it, or what kubectl said. None comes with every line of every connection heard and the reason by the last status: pod gone, drain shown to its end or not to be had, reconnects spent, with kubectl's last words, or a failure kept. Fruitless reconnects stay within five, and once connections no longer hold it ends, by a lexicographic measure |
| Tail.FileTail.NextLine | src/runner/tail.rs:37-53 | the lines returned spell the bytes read; none is returned at the end only once the writer was gone before the last look and, unless a read broke off after it went, every byte of the final file was told |
| Tail.FileTail.ReadUntilNewline | src/runner/tail.rs:40 | a read adds the file's next bytes, through the first newline and no further |
| Round.Run | src/run.rs:250-283 | all that a round tells, in order, for every combination of what it meets; it passes exactly when nothing objects, and concludes with the report of what was told |
| Round.ResultInWorkspace | src/round.rs:165-216 | the result implies the work recorded whatever the agent and verify did, and the first objection of provisioning, publishing, the agent and verify |
| Round.ProvisionToolchain | src/round.rs:228-263 | the first step to fail ends it, and a step with no time left times out unrun |
| Round.Publish | src/workspace.rs:173-188 | it succeeds exactly when one of three pushes does, pushing no more after that |
| Round.ResultConcludes | src/round.rs:382-414 | the events a result implies are the work, a rejection, and the verdict of the first objection |
| Round.TipIsTold | src/run.rs:290-308 | the commit compared with the base is this round's, else an earlier one told, else the start |
| RoundVerdict.EventsOfARound | src/round.rs:382-414 | a round's events are its recorded work, verify's rejection, one verdict and at most a pull request |
| RoundVerdict.PassesExactly | src/round.rs:165-216 | a round passes if and only if its checkout and every provisioning step asked for succeeded, there was nothing to publish or it was published, and the agent and verify exited 0 |
| RoundVerdict.WorkIsToldExactly | src/round.rs:327-375 | a commit with its counts, and a branch with its remote, are told of if and only if the agent ran and it was that commit, those counts, that branch and remote that were committed, measured and pushed, whatever the agent's and verify's outcomes |
| RoundVerdict.RejectionIsToldExactly | src/round.rs:282-315 | a rejection is told of, with its reason, if and only if the agent succeeded, its work is safe and verify ran to an exit other than 0, which is the reason |
| RoundVerdict.PullRequestIsToldExactly | src/run.rs:275-343 | for every url, a pull request of that url is told of if and only if the round passed, its tip is ahead of the base, and it is the one the forge opened or had open |
| RoundTold.ARoundIsToldWhole | src/run.rs:250-343 | line by line: what the provisioning steps that ran, the agent and verify said; the events; of a pass ahead of its base with no pull request, why there is none; and last a checkout that could not be removed |
| RoundTold.FailureIsToldExactly | src/round.rs:165-216 | a round fails for a reason if and only if it is the first of these to apply, in its words: checkout, each provisioning step, commit, measure, three pushes, agent, verify |
| RoundTold.ToldInOrder | src/round.rs:371-414 | commit, push, rejection, verdict, pull request: each at most once, strictly in this order, and nothing else |
| RoundTold.LastCommitToldIsLast | src/run.rs:295-304 | the commit looked up is the last one told, by position, and none only if none was |
| RoundVerdict.ARoundTellsOne | src/run.rs:264-282 | work comes before the single verdict and only a pull request after it, after a pass |
| RoundVerdict.OneVerdictHoweverCut | src/frame.rs:284-303 | with the stream cut anywhere, what is collected and settled holds exactly one verdict in that order, a pass only if nothing objected, and the log folds to it |
| RoundVerdict.ConclusionsAgree | src/run.rs:345-357 | run concludes with the verdict that collect returns, and the report is in its state |
| RoundVerdict.OneVerdictAcrossCrashes | src/collect.rs:45-51 | a collector crashed any number of times, and begun again only where the log has the daemon reattach, leaves exactly one verdict |
| RoundVerdict.ARoundIsJudgedOnce | src/collect.rs:45-51 | the same of the stream of any round, whatever it met |
| Decimal.ParseShown | src/job.rs:20-31 | parsing a number's decimal digits gives it back exactly when it fits 64 bits, with a plus sign before them or without, and not with a minus sign |
| Decimal.DigitsShown | src/job.rs:20-22 | a number is shown digit by digit: the one of each power of ten, from the right |
| Decimal.LengthShown | src/job.rs:20-22 | and with just as many digits as it has |
| Jobs.BranchNamesAreExact | src/job.rs:17-31 | a branch is read as a job's if and only if it is the name that job is given, so no leading zero, sign or overflow passes |
| Jobs.JobIdPastIsNext | src/paths.rs:176-188 | the next id is past every job branch and one past some job's branch, or 1; there is none exactly when the last id is taken |
| Claim.ClaimsAreContiguous | src/claim.rs:24-41 | any number of claimers may race: claims number the ids past the starting maximum without a gap, no two win the same one, and each branch is where its winner put it |
| Claim.LossesAreOthersWins | src/claim.rs:9-12 | the ids a claimer tries strictly increase, and it loses at most as often as others win after it began |
| Claim.GivesUpOnlyWhenSixteenWon | src/claim.rs:37-40 | a claimer gives up only when at least sixteen claims were made since it began, by other claimers |
| Claim.SixteenClaimersAllSucceed | src/claim.rs:12-41 | of at most sixteen one-shot claimers with ids to spare, none gives up or runs out, and each one for which no step is possible has won unless the remote failed it |
| Claim.ClaimersAreSoonThrough | src/claim.rs:12-25 | however others' steps come between, a claimer takes at most thirty-three steps: its start, sixteen listings and sixteen pushes |
| Claim.NoBranchMoves | src/git.rs:525-588 | over any run no job's branch moves or goes |
| Claim.ClaimJob | src/claim.rs:24-41 | one claimer against a remote others create branches on: the id won is past all it lost and its branch absent until its own push; an error means sixteen losses, no id left, or the remote's failure, whose complaint it then is |
| Claim.Remote.CreateBranchIfAbsent | src/git.rs:536-588 | the branch is created exactly when it is absent, and nothing else of the remote changes |
| RepoKey.EverySpellingHasOneKey | src/paths.rs:85-115 | scp-like, ssh and https spellings, with any user and port, of a bracket-free host and any path have the key of host and path, unless the scp-like one has "://" at its colon or in its path |
| RepoKey.OneKeyPerRepository | src/paths.rs:85-115 | two spellings of one remote, hosts the same but for ASCII case, are keyed alike if and only if both are keyed as spelled, or neither is and the URLs they are read as have one key |
| RepoKey.SpellingIsKeyedAlike | src/git.rs:308-313 | for every host and path, a spelling has the key of its host and path if and only if it is not read as a URL, or neither reading has a key; read as a URL, it has that URL's key |
| RepoKey.UrlsAreReadByWhatFollows | src/paths.rs:89-100 | a URL with any scheme but file is keyed by the host and path after it, ssh no differently |
| RepoKey.KeyableScpIsKeyedAlike | src/git.rs:308-313 | of a remote with a key, the scp-like spelling has that key if and only if its path does not begin with two slashes |
| RepoKey.AnUnkeyableRemoteCanBeKeyed | src/git.rs:308-313 | a remote without a key, keyed by its scp-like spelling as another repository |
| RepoKey.TwoSlashesChangeTheKey | src/git.rs:308-313 | one remote, keyed differently by its scp-like and https spellings |
| RepoKey.HttpsEquivalentIsIdempotent | src/payload.rs:24-40 | rewriting a remote twice is rewriting it once |
| RepoKey.KeysAreSafe | src/paths.rs:149-154 | a key has at least two segments, none empty, `.` or `..` or with a slash in it |
| KeySegments.KeysAreSegments | src/paths.rs:85-115 | a key is the host in lower case and, one for one, the path's pieces between slashes, its last `.git`s and the slashes after them aside; there is none exactly if there are no pieces or one of these is not safe |
| KeySegments.LocalPathsAreKeyed | src/paths.rs:89-100 | a file URL and an absolute path are keyed by their pieces under `local`, and a relative path has no key |
| KeySegments.EveryPathIsSpelt | src/paths.rs:101-110 | every path is pieces, slashes, `.git`s and slashes again, so the two before say what every path's key is |
| KeySegments.SegmentsAreSpelt | src/paths.rs:101-110 | the segments of a path so spelt are its pieces |
| KeySegments.BracketsHideColons | src/git.rs:315-326 | a colon inside a bracketed literal ends no host, and the first one past it does |
| KeySegments.OpenBracketsHideNone | src/git.rs:315-326 | a bracket left open hides no colon |
| RepoKey.SegmentsWithoutLeadingSlashes | src/payload.rs:34-36 | slashes before a path make no difference to its segments |
| RepoKey.AuthorityNamesHost | src/git.rs:315-326 | an authority's host is found whatever the user and port |
| RepoKey.HostOfHost | src/payload.rs:32-33 | stripping the user and port a second time changes nothing, brackets or not |

## Left out

- The JSON, TOML and RFC 3339 encodings, bytes that are not UTF-8, and lines of a log file torn by a crash: events, frames and stamps are values, and a stamp that does not parse has no counterpart.
- Failed appends and writes, which the code treats as fatal, logs that cannot be read, and panics of a task.
- Processes, signals, `git`, `docker`, `kubectl` and `gh` themselves: what they answer is a parameter, or a step that may or may not happen.
- How requests arrive, and what keeps a second daemon off a root: one daemon runs on a root at a time.
- Liveness and timing: no step is promised to happen, and the grace periods at shutdown are steps that may be cut short by a crash.
- The 32-bit round and 64-bit frame counters' overflow: both are unbounded here. Job ids keep their 64 bits.
- Reason texts are shortened where they name a path, a job id or a date, and one failure text is reserved: a round's own failure is never worded "cancelled before it started", which only the daemon writes.
- The dispatcher's table insertion, its two tallies and its task's spawn are one step, taken with the lock held; a task is known by the token of its registration.
- The lock of a repository, held by a submit from its check to its append, is a lock of the job.
- Agents that write frames of their own to a round's standard output: every frame here is one that `run` appended.
- Dispatch.Daemon: its methods run one at a time, each standing for steps that others' steps may come between in `Lifecycle`; the interleavings are proved there.
- Dispatch.Daemon.DispatchWhilePossible: returns where the code would wait for a job or a slot.
- Dispatch.Daemon.ResumeJobsUnderRoot: uses a stable sort by request time as a function, for the library's sort in place.
- Round.Run: leaves out the note that the delivery's base differs from the job's, and the wording of git's, the forge's and the runner's errors.
- PodLog.KubernetesRound.NextLine: `following_since` is a flag saying whether the connection held long enough to count as live.
- Tail.FileTail.NextLine: the wait between two looks.
- Claim.ClaimJob: a push that fails after creating its branch is in the race's `Fail` step, not in the method.
- Config validation, commit messages, manifests, status lines, secrets and the CLI: each is a table of cases with nothing across functions to keep.
- What a submit is refused for besides its job — the config, the base, the runner, a claim that fails — is `Dispatch.Preflight`, given rather than worked out.
