# Agent runtime verification

A Dafny model of a multi-agent task runtime and proofs about it. The runtime keeps a board of tasks with
dependencies, a registry of agents with a lifecycle, and a scheduler that hands ready tasks to idle agents in
waves and takes each through claim, run, produce, verify and success. Around them stand stores and filters:
artifacts with versions, mailboxes, permission grants, a capability index, a spawn tree, and a filter that
takes the thinking of a model out of a token stream.

| file | models |
|---|---|
| TextScan, ThinkTags, ThinkFilter, ThinkBatch, ThinkExact, ThinkClean, AssistantStream | the streaming think filter, its three tag patterns, its batch counterpart, and exactly when cutting and batch agree |
| TaskBoard | the board's compare-and-set operations, the dependency graph, why a stalled run is over |
| Agents, AgentRegistry | the agent lifecycle as steps on a pool, and the registry objects that take them |
| Reservation | the planner's capability rule against the registry's, and the reservations of a wave |
| Dispatch, Scheduler | one wave as a matching, and the dispatch loop over whole runs |
| Evidence | one task under several interleaved attempts, its artifacts, the copies of its row and the operator |
| Agreement, CalmRuns, SoloRuns, Retries | when the board and the artifacts agree, over which runs, and when a retry is safe |
| Artifacts, Mailbox, CapabilityIndex, Permissions, DynamicTeam | the stores |
| Basics, Sorting | shared vocabulary and stable sorting |

What the source updates in place is a class whose methods are proved against functions on values; runs and
laws are lemmas about those functions. Clocks, fresh ids, hook verdicts, path resolution, hashing and the
character tables of the regular expressions are parameters. Each public operation is one atomic step, except
in Evidence, where every call on the board is a step of its own, also the read of a copy and its write-back.

Where the code and its comments disagree the model follows the code:

- SUCCEEDED and CANCELLED are called terminal, but a failure report looks only at the claimant, a request for
  a new plan only at CANCELLED, and a write-back at nothing: `TaskBoard.EndsAreRevived` says exactly when a task
  comes back. The verifier's verdict, a hook's feedback and merge conflicts are written onto a copy read before
  (app/multiagent/parallel_scheduler.py:1582-1597), so a cancellation in between is lost (`Retries.CancelIsLost`),
  and a task can succeed without `mark_verified`, from a copy read while it had succeeded
  (`Evidence.SucceedsExactly`, `Retries.SuccessIsRestored`).
- A history or hook call that raises after `mark_verified` reaches the failure report, which reopens the succeeded
  task (`Agreement.UndoBreaks`).
- The scheduler expects VERIFYING before success, but `mark_verified` also accepts PRODUCED. With a retry
  while an attempt is being judged a task can succeed on artifacts nobody verified (`Retries.RetryIsSafeExactly`,
  `Retries.RetryInFlight`). Inside one dispatch loop this does not happen: a wave takes no task in flight
  (`SoloRuns.SoloRunsAreSound`). It takes a second loop on the same board: `start_run`
  (app/multiagent/team_runtime.py:133) takes no execution lease, the `resume_run` a retry of a running run goes
  through (app/multiagent/team_runtime.py:511) does.
- The think filter is meant not to depend on token boundaries. It depends on them exactly for streams in which some tag
  taken or deleted holds a less-than sign after its first character (`ThinkExact.InvarianceIsExact`); a stray tag
  that runs over a dropped block holds that block's. With no less-than sign inside an unfinished tag neither
  happens (`ThinkClean.CleanStreams`). The batch stripping may still strip more of a neat stream: if its blocks close
  with their own names, exactly when text put out runs into an unclosed tag (`ThinkExact.BatchIsExact`,
  `AssistantStream.SplitHead`); if only the other name closes the first block, exactly when anything is shown after it
  (`ThinkExact.ForeignCloseIsExact`).
- The planner's rule mirrors the registry's only within the known capability names, or wholly outside them
  (`Reservation.AgreementIsExact`). A planned agent that serves a task by the fallback may lose it to one
  with the full requirement (`Reservation.HintHonoured`).
- At capacity zero a wave still admits one task, if the barrier lets one through: `Dispatch.LimitIsBroken` says exactly
  when the concurrency limit is broken, `Dispatch.OneTooMany` gives an input. Each wave can add one future.
- The scoring comment of the capability registry names other weights than the code uses.

## Model

| member | source | states |
|---|---|---|
| `TextScan.FindFirstIs` | app/multiagent/executor.py:1244-1262 | a search finds the leftmost match: none starts before it, one starts there |
| `TextScan.RemoveSplits` | app/multiagent/executor.py:1271-1286 | removing matches from a text that no match crosses at the cut is removing them on both sides |
| `ThinkTags.OpenLocal` | app/multiagent/executor.py:42 | an open think or reasoning tag ends with its first greater-than sign, stays one when text follows, is no close tag, and only an unfinished tag becomes one |
| `ThinkTags.CloseLocal` | app/multiagent/executor.py:43 | a close tag holds no second less-than sign, ends with its only greater-than sign and stays one when text follows |
| `ThinkTags.StrayLocal` | app/multiagent/executor.py:46 | the same for either kind with attributes |
| `ThinkTags.PatternsLawful` | app/multiagent/executor.py:42-46 | the hand-made matchers keep all the laws the filter relies on, for every standard character table |
| `AssistantStream.ThinkFilter.Push` | app/multiagent/executor.py:1236-1286 | one call of the push loop leaves the buffer, the dropping flag and the visible text of the specification |
| `ThinkFilters.PushIsDrain` | app/multiagent/executor.py:1236-1286 | a push works through the buffer and the new text as if they had come at once, whatever was held before |
| `ThinkFilters.PushTwiceIsPushOnce` | app/multiagent/executor.py:1236-1286 | from any state between pushes, push(a) then push(b) gives the visible text and the state of push(a + b) when the stream is neat: no tag that is taken or deleted holds a less-than sign after its first character |
| `ThinkFilters.StreamInvariance` | app/multiagent/executor.py:1225-1286 | every cutting of a neat stream gives the text and the state of one push |
| `ThinkExact.InvarianceIsExact` | app/multiagent/executor.py:1225-1286 | every cutting of a stream gives the text and the state of one push if and only if the stream is neat |
| `ThinkExact.Disagreement` | app/multiagent/executor.py:1244-1286 | of every stream that is not neat two cuttings show texts of different lengths: the longer one puts the head of a tag out as text |
| `AssistantStream.ChunksDoNotMatter` | app/multiagent/executor.py:1225-1286 | the if and only if for the think and reasoning tags |
| `AssistantStream.CutInsideTag` | app/multiagent/executor.py:1244-1286 | one such stream: cut inside a tag that holds another less-than sign the open tag is put out as text, uncut it is not |
| `ThinkBatch.NeatIsBatch` | app/multiagent/executor.py:49-75 | a neat stream whose blocks close with their own names shows the stripped text if and only if no text it puts out runs into an unclosed tag |
| `ThinkExact.BatchIsExact` | app/multiagent/executor.py:49-75 | for a stream whose blocks close with their own names: every cutting shows the stripped text, held tail included unless dropping, if and only if the stream is neat and no text it puts out runs into an unclosed tag |
| `ThinkExact.ForeignCloseIsExact` | app/multiagent/executor.py:49-75 | where a tag of the other name closes the first block and none of its own name follows, every cutting shows the stripped text if and only if the stream is neat and shows nothing after that block |
| `AssistantStream.ShownAsStripped` | app/multiagent/executor.py:49-75 | the same for streams with one tag name |
| `AssistantStream.SplitHead` | app/multiagent/executor.py:58-71 | a neat stream that the batch strips further: a block splits a tag name whose second half meets an unclosed tag |
| `ThinkBatch.OneNamePairs` | app/multiagent/executor.py:58-63 | with one tag name the batch pattern with its back-reference pairs every open tag with the first close tag, as the stream does |
| `ThinkClean.CleanIsNeat` | app/multiagent/executor.py:1236-1286 | a stream with no less-than sign inside an unfinished tag is neat |
| `ThinkClean.CleanStreams` | app/multiagent/executor.py:49-75 | however such a stream is cut it gives the answer of one push, and the stripped text if its blocks close with their own names |
| `TaskBoard.EndsAreRevived` | app/multiagent/task_board.py:373-530 | over every history a succeeded or cancelled task stays so if and only if no failure report of its claimant, request for a new plan of a succeeded task, or write-back of a copy read at another status meets it |
| `TaskBoard.WriteBackUndoes` | app/multiagent/task_board.py:109-118 | a copy of a row read before any history can be written back after it and undoes what the history did to the row: add compares nothing |
| `TaskBoard.ApplyKeepsEarned` | app/multiagent/task_board.py:145-530 | an operation keeps that every task claimed, running, produced, verifying or succeeded has succeeded dependencies if and only if it reopens no succeeded task that such a task depends on and writes no such copy back over dependencies that have not succeeded |
| `TaskBoard.PlayKeepsEarned` | app/multiagent/task_board.py:145-530 | a history keeps it throughout if and only if every operation does |
| `TaskBoard.DirectCheckComplete` | app/multiagent/parallel_scheduler.py:635-671 | some pending task depends on a failed or cancelled one at any distance exactly when some pending task does directly |
| `TaskBoard.StalledBoardHasReadyTask` | app/multiagent/parallel_scheduler.py:673-702 | without such a task an acyclic board with all dependencies present and a pending task has a pending task whose dependencies all succeeded |
| `TaskBoard.DeadlockVerdict` | app/multiagent/parallel_scheduler.py:573-671 | an idle scheduler over a quiet board reports a deadlock exactly when some pending task is doomed at any distance and no earlier branch applies |
| `TaskBoard.NoWorkerVerdict` | app/multiagent/parallel_scheduler.py:673-737 | the last-resort verdict never occurs; a missing worker is reported only with a ready task on the board, if all dependencies are present and free of cycles |
| `TaskBoard.VerdictsAfterAnyHistory` | app/multiagent/parallel_scheduler.py:573-737 | after every history of harmless operations: no last-resort verdict, a deadlock exactly when a pending task is doomed and no earlier branch applies, a missing worker only with a ready task if dependencies are present and free of cycles |
| `Agents.StepKeepsInv` | app/multiagent/agent_registry.py:139-305 | create, reserve, start, pause, resume, release, stop, reap and heartbeat keep the lifecycle invariant |
| `Agents.LifecycleOverRuns` | app/multiagent/agent_registry.py:139-305 | over every run idle and blocked agents hold nothing, claiming, running and stopping agents hold one task owned by one assignment; ending agents never come back and stopped is final |
| `Agents.ReachableAgents` | app/multiagent/agent_instance.py:23-68 | of the fourteen statuses only seven are ever reached, with the task each of them holds |
| `Agents.ReleaseEndsTheLease` | app/multiagent/agent_registry.py:189-210 | the owner finds its agent holding its task or ended; its release leaves the agent idle, or stopped if it was stopping, and nobody owning it |
| `Agents.NoIllegalMoves` | app/multiagent/agent_instance.py:42-72 | reserve, reap and stop never ask the table for a move it refuses; a start goes through exactly while its agent is claiming, and is refused once it has ended or was started before |
| `Agents.FirstFitFinds` | app/multiagent/agent_registry.py:172-187 | the search of one pass fails exactly when no agent fits |
| `AgentRegistry.AgentInstance.UpdateStatus` | app/multiagent/agent_instance.py:119-136 | moves exactly when the table allows the move and tells so |
| `AgentRegistry.AgentInstance.Stop` | app/multiagent/agent_registry.py:292-302 | a claiming or running agent becomes stopping, another goes to stopped at once |
| `AgentRegistry.AgentInstance.Expire` | app/multiagent/agent_registry.py:266-276 | fails a working agent whose lease has run out |
| `AgentRegistry.AgentRegistry.CreateAgent` | app/multiagent/agent_registry.py:50-94 | registers a new idle agent, in the place of one with the same id or at the end |
| `AgentRegistry.AgentRegistry.RegisterAgent` | app/multiagent/agent_registry.py:38-48 | puts an object into the registry under its id |
| `AgentRegistry.AgentRegistry.Search` | app/multiagent/agent_registry.py:168-180 | looking at the preferred agent first finds the agent the specification names, or none |
| `AgentRegistry.AgentRegistry.SearchPasses` | app/multiagent/agent_registry.py:158-180 | all capabilities first, then the primary ones alone when they are some but not all |
| `AgentRegistry.AgentRegistry.ReserveIdleAgent` | app/multiagent/agent_registry.py:139-187 | claims exactly that agent for the task and leaves the others as they were |
| `AgentRegistry.AgentRegistry.ReleaseReservation` | app/multiagent/agent_registry.py:189-210 | the release step on the pool, and when it answers yes |
| `AgentRegistry.AgentRegistry.Transition` | app/multiagent/agent_registry.py:212-219 | a lifecycle move of one agent, if it is registered and the table allows it |
| `AgentRegistry.AgentRegistry.Heartbeat` | app/multiagent/agent_registry.py:223-244 | renews the lease of one agent |
| `AgentRegistry.AgentRegistry.CleanupExpired` | app/multiagent/agent_registry.py:246-285 | the sweep fails every working agent past its lease and lists them in order |
| `AgentRegistry.ExpiredAreTheFailed` | app/multiagent/agent_registry.py:246-285 | the sweep lists exactly the agents it fails |
| `AgentRegistry.AgentRegistry.Stop` | app/multiagent/agent_registry.py:289-305 | the stop step on the pool, and when it answers yes |
| `AgentRegistry.AgentRuntimeManager.PauseAgent` | app/multiagent/agent_runtime_manager.py:228-239 | blocks an idle agent of the run and no other, and tells whether it did |
| `AgentRegistry.AgentRuntimeManager.ResumeAgent` | app/multiagent/agent_runtime_manager.py:241-247 | makes a blocked agent of the run idle and no other, and tells whether it did |
| `AgentRegistry.AgentRuntimeManager.CancelAgent` | app/multiagent/agent_runtime_manager.py:200-209 | signals exactly the assignments of that agent in that run and counts them |
| `AgentRegistry.AgentRuntimeManager.StopAgent` | app/multiagent/agent_runtime_manager.py:249-255 | cancels exactly the assignments of an agent of the run, then stops it; an agent of another run is left alone |
| `Reservation.AgreementIsExact` | app/multiagent/parallel_scheduler.py:517-535 | planner and registry agree about every agent if and only if the requirement stays within the known vocabulary or wholly outside it |
| `Reservation.ReserveServes` | app/multiagent/agent_registry.py:139-187 | for any requirement, a reservation succeeds exactly when some free agent passes one of its two passes |
| `Reservation.ReservationMeetsPlan` | app/multiagent/agent_registry.py:153-187 | for such requirements it succeeds exactly when some free agent of the run can serve the task by the planner, and returns one |
| `Reservation.HintHonoured` | app/multiagent/parallel_scheduler.py:761-766 | for any requirement, the planned agent is the one reserved if and only if it fits the full one, or nobody does and it fits the second pass |
| `Reservation.WaveGetsHints` | app/multiagent/parallel_scheduler.py:754-766 | when every planned agent has the full requirement each task of a wave gets its own |
| `Reservation.AnyOrderGetsHints` | app/multiagent/parallel_scheduler.py:754-766 | in every order of the reservations |
| `Dispatch.GreedyMatches` | app/multiagent/parallel_scheduler.py:482-504 | the selected pairs share no task and no agent |
| `Dispatch.GreedySize` | app/multiagent/parallel_scheduler.py:499-503 | the loop selects at most the capacity, but one when the capacity is zero |
| `Dispatch.GreedyOrigin` | app/multiagent/parallel_scheduler.py:482-498 | every selected agent can serve its task and has the fewest capabilities among the agents still free that can |
| `Dispatch.GreedyMaximal` | app/multiagent/parallel_scheduler.py:482-504 | while there is room no servable task is left over beside an agent that could serve it |
| `Dispatch.GreedyIsHalfOptimal` | app/multiagent/parallel_scheduler.py:482-504 | an unfilled selection is at least half as large as any matching |
| `Dispatch.BarrierHas` | app/multiagent/parallel_scheduler.py:450-480 | the tasks the barrier lets through, told from the board: with tasks in flight those that tolerate siblings, else all, or only the most urgent that does not |
| `Dispatch.WaveIsMatching` | app/multiagent/parallel_scheduler.py:349-504 | every wave pairs distinct pending tasks with distinct idle agents of the run that can serve them and whose claim the board will allow, within max(1, capacity); a task that tolerates no siblings starts alone and nothing starts beside one |
| `Dispatch.WaveIsHalfOptimal` | app/multiagent/parallel_scheduler.py:426-504 | a wave with room left is at least half as large as any matching between the tasks past the barrier and the idle agents |
| `Dispatch.MostConstrainedFirst` | app/multiagent/parallel_scheduler.py:434-448 | the wave takes its tasks in order of fewest choices, then priority, age and id |
| `Dispatch.EmptyWaveMeansNoWorker` | app/multiagent/parallel_scheduler.py:385-396 | with nothing in flight an empty wave means that no idle agent can serve any ready task |
| `Dispatch.WaveReserves` | app/multiagent/parallel_scheduler.py:482-504 | when the planned agents have the full requirement and take work, the reservations of a wave, in any order, give each task exactly its planned agent |
| `Dispatch.WaveTakesOne` | app/multiagent/parallel_scheduler.py:482-504 | whatever the limit, a wave is not empty if and only if the barrier lets some startable task through |
| `Dispatch.LimitIsBroken` | app/multiagent/parallel_scheduler.py:385-396 | a wave takes the load over the concurrency limit if and only if no slot is free and the barrier lets a task through, and then by that one task |
| `Dispatch.OneTooMany` | app/multiagent/parallel_scheduler.py:499-503 | one task running at a limit of one, one ready task and one idle agent: a second task starts |
| `Scheduler.DispatchScheduler.DepsSatisfied` | app/multiagent/parallel_scheduler.py:152-168 | true exactly when every dependency is on the board and succeeded |
| `Scheduler.DispatchScheduler.Collect` | app/multiagent/parallel_scheduler.py:374-396 | collects the ready tasks with the agents that can serve them |
| `Scheduler.DispatchScheduler.Admit` | app/multiagent/parallel_scheduler.py:450-480 | applies the barrier and the capacity that goes with it |
| `Scheduler.DispatchScheduler.Select` | app/multiagent/parallel_scheduler.py:482-504 | the selection loop computes the specified wave and remembers the planned agents |
| `Scheduler.DispatchScheduler.DiscoverDispatchable` | app/multiagent/parallel_scheduler.py:349-504 | answers the tasks of the specified wave and adds its planned agents to the hints |
| `Scheduler.DispatchScheduler.TakeTurn` | app/multiagent/parallel_scheduler.py:248-343 | one pass of the loop is the specified step |
| `Scheduler.DispatchScheduler.RunLoop` | app/multiagent/parallel_scheduler.py:223-347 | the loop over any sequence of turns ends where the specification does |
| `Scheduler.LaunchKeeps` | app/multiagent/parallel_scheduler.py:272-290 | launching a wave keeps the barrier; the futures in flight grow by one wave to at most the concurrency limit, or by one future beyond what they were |
| `Scheduler.BarrierOverRuns` | app/multiagent/parallel_scheduler.py:248-343 | in every reachable state a task that tolerates no siblings is alone in flight, no task is in flight twice, no more than the allowed waves have started, and the futures in flight exceed the concurrency limit by no more than the number of waves started |
| `Scheduler.StalledRun` | app/multiagent/parallel_scheduler.py:292-299 | when the loop stalls over a quiet board it reports a deadlock exactly for a task doomed at any distance, and a missing worker only when no idle agent can serve any ready task; such a ready task exists if dependencies are present and free of cycles |
| `Evidence.StepKeeps` | app/multiagent/parallel_scheduler.py:1046-1246 | every call on the board or the store, by any attempt or the operator, also between the read of a copy and its write-back, keeps the evidence invariant |
| `Evidence.EvidenceOverRuns` | app/multiagent/parallel_scheduler.py:1046-1246 | over every run an attempt past its marking that has a verified artifact won: verifier, hook and merge passed and all its artifacts are verified; where the task, or a copy that waits to be written back, has succeeded there is such an attempt |
| `Evidence.OwnStepKeeps` | app/multiagent/parallel_scheduler.py:799-820 | an agent works at one attempt at a time, and while it works nobody else takes the row it holds further |
| `Evidence.SucceedsExactly` | app/multiagent/parallel_scheduler.py:1203-1220 | a task succeeds exactly by mark_verified after a passed verification, an allowing hook, a merge without conflict and the marking of all its artifacts, or by the write-back of a copy read while it had succeeded; then an attempt has won |
| `Evidence.SuccessOverRuns` | app/multiagent/parallel_scheduler.py:1582-1597 | the same in every reachable state |
| `Evidence.RollBackKeeps` | app/multiagent/parallel_scheduler.py:1385-1406 | an attempt that fails in the marking loop or at the last step leaves no verified artifact |
| `Agreement.KeptStays` | app/multiagent/parallel_scheduler.py:1203-1226 | a success is kept by every step except a request for a new plan and a failure report of the attempt that won |
| `Agreement.UndoBreaks` | app/multiagent/parallel_scheduler.py:1221-1294 | either of these ends the agreement: artifacts stay verified of a task that has not succeeded; the report comes when the history or a hook raises after mark_verified |
| `CalmRuns.CalmStepKeeps` | app/multiagent/parallel_scheduler.py:1046-1246 | while the operator retries only when no attempt is being judged, the row and every copy that may still be written back belong to one attempt |
| `CalmRuns.CalmRunsAgree` | app/multiagent/parallel_scheduler.py:1046-1246 | over every such run board and artifacts agree throughout (the task has succeeded exactly when an attempt won, and records its verified artifacts) if and only if no step takes a success back |
| `CalmRuns.CalmRunsAreSound` | app/multiagent/parallel_scheduler.py:1582-1597 | and whatever is taken back, a succeeded task records verified artifacts only |
| `CalmRuns.CalmSuccess` | app/multiagent/parallel_scheduler.py:1203-1207 | in such runs success comes from VERIFYING, by the attempt whose artifacts the board records, and never from a copy |
| `SoloRuns.SoloRunsAgree` | app/multiagent/parallel_scheduler.py:434-440 | when the task is claimed only while no attempt of it is under way, as one dispatch loop does, board and artifacts agree throughout, whatever the operator retries and whenever, if and only if no step takes a success back |
| `SoloRuns.SoloRunsAreSound` | app/multiagent/parallel_scheduler.py:434-440 | and a succeeded task records verified artifacts only |
| `Retries.RetryIsSafe` | app/multiagent/task_board.py:451-487 | in every reachable state: after a retry while no attempt is being judged or has a copy to write back, no succeeded task records an unverified artifact, if the operator goes on like that |
| `Retries.RetryIsSafeExactly` | app/multiagent/task_board.py:451-487 | in every reachable state: such a success can follow if an attempt can still complete the task, and only if one is being judged or has a copy to write back |
| `Retries.RetryDuringFeedback` | app/multiagent/parallel_scheduler.py:1116-1123 | and it can follow where the feedback of a blocking hook is still to be written |
| `Retries.RetryInFlight` | app/multiagent/task_board.py:320-329 | from a fresh task such a run exists: mark_verified accepts PRODUCED, so an overtaken attempt completes the task on the artifacts of another |
| `Retries.CancelIsLost` | app/multiagent/parallel_scheduler.py:1582-1597 | whenever a cancellation falls between the read and the write-back of the verdict, that attempt can still make the task succeed |
| `Retries.CancelledTaskSucceeds` | app/multiagent/parallel_scheduler.py:1582-1597 | from a fresh task, with one attempt, a run in which the task is cancelled and then succeeds |
| `Retries.SuccessIsRestored` | app/multiagent/parallel_scheduler.py:1582-1597 | from a fresh task, a run in which a succeeded task is to be planned anew and the write-back of a copy makes it succeed again |
| `Artifacts.ArtifactStore.Create` | app/multiagent/artifact.py:186-275 | the create step: refused for a path that leaves the root, else written, registered and indexed, with its parent superseded |
| `Artifacts.ArtifactStore.MarkStatus` | app/multiagent/artifact.py:421-458 | changes one status and nothing else; false for an unknown id |
| `Artifacts.ArtifactStore.CheckIntegrity` | app/multiagent/artifact.py:410-418 | hashes the bytes at the place of the artifact and compares |
| `Artifacts.ArtifactStore.ListByTask` | app/multiagent/artifact.py:385-387 | the artifacts the task index lists, in its order |
| `Artifacts.ArtifactStore.WalkBack` | app/multiagent/artifact.py:500-508 | the walk to the first version; the guard against a cycle never stops it |
| `Artifacts.ArtifactStore.WalkLineage` | app/multiagent/artifact.py:495-514 | the whole lineage; no descendant was seen on the way back |
| `Artifacts.RunKeeps` | app/multiagent/artifact.py:216-275 | over every run of creates with fresh ids a predecessor is registered and one version older, and each index lists its artifacts exactly once |
| `Artifacts.LineageIs` | app/multiagent/artifact.py:495-514 | a lineage is the versions one to that of the artifact, each the predecessor of the next, then exactly its direct successors by time of creation |
| `Artifacts.LineageOverRuns` | app/multiagent/artifact.py:495-514 | the same after any such run, so predecessor links have no cycle |
| `Artifacts.IntegrityIs` | app/multiagent/artifact.py:410-418 | with an injective hash an artifact is intact if and only if the latest create at its place wrote the same bytes |
| `Artifacts.ElsewhereIsHarmless` | app/multiagent/artifact.py:327-347 | a create at another place never changes that answer |
| `Mailboxes.Mailbox.Send` | app/multiagent/mailbox.py:141-170 | hook verdict, block list, rate limit, capacity and delivery, with the error of a mailbox that can hold nothing |
| `Mailboxes.Mailbox.Receive` | app/multiagent/mailbox.py:199-212 | takes messages from the front of the inbox, at most the number asked for |
| `Mailboxes.Mailbox.EnforceCapacity` | app/multiagent/mailbox.py:441-449 | drops the oldest until one more fits; unnamed recipients are not bounded |
| `Mailboxes.Mailbox.RateCheck` | app/multiagent/mailbox.py:451-461 | forgets what is more than a minute old and admits while fewer than sixty are left |
| `Mailboxes.TrimIs` | app/multiagent/mailbox.py:441-449 | what stays is the end of the inbox, and no more is dropped than needed |
| `Mailboxes.RateLimitHolds` | app/multiagent/mailbox.py:451-461 | over every run with a clock that does not go back no sender has more than sixty sends admitted in any closed minute |
| `Mailboxes.InboxesHold` | app/multiagent/mailbox.py:158-212 | over every run each delivery was received or dropped once, in order, or still waits; a named inbox is the end of its deliveries and within the capacity |
| `CapabilityIndex.CapabilityRegistry.Register` | app/multiagent/agent_profile.py:157-170 | adds or replaces a profile and keeps the index exact, without empty buckets |
| `CapabilityIndex.CapabilityRegistry.Unregister` | app/multiagent/agent_profile.py:172-181 | removes a profile and its metrics and keeps the index exact |
| `CapabilityIndex.CapabilityRegistry.FindWorkers` | app/multiagent/agent_profile.py:193-208 | the intersection of buckets is what a look at every profile finds |
| `CapabilityIndex.CapabilityRegistry.FindBestWorker` | app/multiagent/agent_profile.py:210-218 | the highest score, the least id among equals; none exactly when no profile qualifies |
| `CapabilityIndex.IdleBeatsLoaded` | app/multiagent/agent_profile.py:233-267 | whatever their records an idle worker scores higher than any with more than two tasks and no lower than one with two; one with a single task scores higher only against a record of failures |
| `CapabilityIndex.Replay` | app/multiagent/agent_profile.py:157-208 | after any sequence of registrations and removals a search by the index finds what a scan of the profiles left finds |
| `Permissions.GrantIs` | app/multiagent/permission.py:224-234 | the grant found is the newest approved one for the run, agent and fingerprint that is good for the run or unused; none when there is no such one |
| `Permissions.PermissionBroker.MatchingGrant` | app/multiagent/permission.py:224-234 | the loop over the stored rows finds that grant |
| `Permissions.PermissionBroker.Authorize` | app/multiagent/permission.py:142-168 | grant, then policy, then a new request; the stored table and the answer or error |
| `Permissions.PermissionBroker.MakeRequest` | app/multiagent/permission.py:170-181 | stores a new request; the hook may refuse it, never approve it |
| `Permissions.PermissionBroker.Decide` | app/multiagent/permission.py:183-208 | a pending request takes the decision of a user or lead; a decided one stays |
| `Permissions.PermissionBroker.MarkUsed` | app/multiagent/permission.py:258-263 | notes the use of one request |
| `Permissions.GrantsAccounted` | app/multiagent/permission.py:142-263 | over every history each yes is allowed by the policy or backed by an approved request for the same run, agent and fingerprint; an approve-once request backs one yes at most |
| `Permissions.DecisionsStay` | app/multiagent/permission.py:183-208 | a decided request never changes its status or decision, and no request is lost |
| `DynamicTeam.DerivedTells` | app/multiagent/dynamic_team.py:143-144 | a derived profile id tells its source profile and its parent agent |
| `DynamicTeam.ProfilesAreFixed` | app/multiagent/dynamic_team.py:132-150 | over every run a registered profile stays as it is: what stands under a derived id depends on that id alone |
| `DynamicTeam.ChainShrinks` | app/multiagent/dynamic_team.py:132-150 | along every chain of spawns tools and the read, write and shell flags only shrink, and the depth grows by one each time within its limit |
| `DynamicTeam.SpawnTreeIsSafe` | app/multiagent/dynamic_team.py:64-150 | the same in every team a run reaches |
| `DynamicTeam.SpawnKeepsBudget` | app/multiagent/dynamic_team.py:68-70 | a spawn adds one agent to its own run at most, and only within the smaller of the two size limits |
| `DynamicTeam.BudgetOverRuns` | app/multiagent/dynamic_team.py:68-70 | by spawning alone no team exceeds that limit |
| `DynamicTeam.DynamicTeamManager.SpawnAgent` | app/multiagent/dynamic_team.py:64-123 | the checks in their order, the restricted profile, the member and its link; an agent the hook blocks has joined, stopped |

## Left out

- Fairness and liveness: the results are safety properties; that a run goes on is not stated beyond `Scheduler.StalledRun`.
- TaskBoard.DirectCheckComplete: is about boards where every task waits or has ended, as the scheduler's classification branch finds them.
- TaskBoard operations `complete`, `supersede_with_repair`, `prepare_for_resume`, `restore_run` and the reset of attempts on retry: no step of the scheduler's task path uses them; the two superseded flags are plain fields.
- Evidence.EvidenceOverRuns: calls that raise inside the board or the store, and cancellation between a reservation and the inner try block, are not modelled; an attempt's artifacts are new when it hands them in, the rejection of all its artifacts is one step, and the dependency check of a claim is left to TaskBoard. The board persists, as the runtime's does, so a claim puts a new object into the place of the row.
- CalmRuns.CalmRunsAgree: assumes that an attempt which submits a plan or stops for a permission, and so writes its own row back, still owns its task.
- Retries.RetryIsSafeExactly: for an attempt that holds the copy for a hook's feedback, or has merge conflicts to write, only one direction is stated; what can follow then depends on the retries its copy has left.
- Scheduler.DispatchScheduler.RunLoop: the coroutine of a task is a future that finishes when a turn says so; sleeping, the semaphore and the refresh of the task graph are not modelled, the flag of a task that tolerates no siblings is fixed for the run, and idle verdicts look at the board of the same turn.
- Scheduler.DispatchScheduler.DiscoverDispatchable: the event about tasks waiting for a capability is not modelled.
- Reservation.AnyOrderGetsHints: the agents of a wave change status only by the reservations themselves.
- Agents.LifecycleOverRuns: agent ids are fresh when created and agents are not removed from the registry; the statuses the runtime never sets have no steps.
- AgentRegistry.AgentRegistry.CreateAgent: names, roles, sessions, workspaces and time stamps other than the heartbeat carry no decision and are not modelled.
- ThinkExact.BatchIsExact: the back-reference of the batch pattern compares names through the same case folding as the pattern itself; exceptions inside the regular expression engine are not modelled; where both names occur, blocks close with their own names or the first one as in `ThinkExact.ForeignCloseIsExact`.
- Evidence.SucceedsExactly: its artifacts are verified when the task succeeds; a later create that names one of them as its parent marks it superseded (app/multiagent/artifact.py:262-263), and artifact statuses are not followed after that.
- Artifacts.IntegrityIs: files change only by creates, and a path always leads to the same place.
- Artifacts.RunKeeps: runs do not reload artifacts from the database.
- Mailboxes.InboxesHold: runs do not restore messages; broadcasts are sends, waiting is a receive.
- CapabilityIndex.CapabilityRegistry.FindWorkers: answers a set, because the source lists a set in no particular order; scores are real numbers, not floats.
- Permissions.PermissionBroker.Authorize: look-up and use are one step; rows with equal creation times keep their order of insertion; ids of new requests are fresh.
- DynamicTeam.ProfilesAreFixed: ids of agents and of base profiles hold no colon and base profiles are not registered again during the run; which profile a search picks is an input.
- DynamicTeam.ChainShrinks: the flag for team tools is copied from the chosen profile, not restricted to the parent's, and is not part of the claim.
- Persistence, events, logging, the HTTP and command line layers, prompts, model calls, tools, git and subprocess work have no part in the model.
- Control-plane changes of the task graph, the verifier's internals and the root graph are not part of this model.
