# Forge OS in Dafny

A verification project beside Forge OS. It models the parts of the program that keep state over many steps and proves
what they promise over all inputs, runs and interleavings.

| file | what it models |
|---|---|
| Common.dfy | optional values, results, joining, string order and sorting |
| Graphs.dfy | walks, reachability and shortest distances in finite graphs with cycles |
| Artifacts.dfy | artifact records, the disk, and the two graphs a document spans |
| Staleness.dfy | the status every artifact has after a refresh, from document and disk alone |
| Registry.dfy | `ArtifactRegistry`: register, refresh, marking, dependents, graph edges |
| RefreshLaws.dfy | fixpoints of refresh, its order sensitivity, edits between two disks, what registering hides |
| Activation.dfy | `_spread_activation_priorities`, the label-correcting depth-first search |
| Pruner.dfy | `ContextPruner.select`: ranking, the greedy choice, the content cache |
| Planner.dfy | `ReworkPlanner`: the breadth-first closure, rework and resolution |
| EventStore.dfy | the append-only event table, snapshots and replay |
| Pipeline.dfy | pipeline state, what each call makes of it and logs, the log read back |
| PipelineLaws.dfy | invariants of every run, progress without overrides, what gates decide, the log rebuilds the state |
| StateDocument.dfy | the saved state document read back |
| StateManager.dfy | `StateManager`: the same calls as separate writes, crash points, the dual write |
| Transcript.dfy | stream-json projections and `extract_outputs` |
| Recording.dfy | `ClaudeCodeAdapter.spawn_agent` recording and `replay_session` |
| BackChannel.dfy | the OpenCode back-channel: handlers, futures, the spawn loop, shutdown |
| BackChannelDelivery.dfy | its purpose: proposals served in turn, results delivered through any interleaving |
| ProxyQueue.dfy | the Claude SDK proxy tools over one shared result queue |
| Intake.dfy, DaemonState.dfy, Scheduler.dfy, LazyContext.dfy | four bounded loops refined to unbounded histories |

How the source is rendered:

- A class of the source that updates fields or files is a class here; the document, table or log it rewrites is a
  sequence or map field that its methods reassign. Loops stay loops and recursive closures stay recursive methods.
- The disk is a map from path to digest, token count, modification time and content. Digests stand for SHA-256.
- The pipeline's calls are specified as functions on the state; the methods of `StateManager` are proved against them,
  write by write. A ghost journal keeps the image after every single write, so a statement about the journal is a
  statement about every crash point.
- Gate results, clock readings, kernel transcripts, lost appends and other runs' appends are arguments.
- The two adapter protocols are transition systems over atomic steps split at `await` points. A sequence of steps is an
  interleaving; a step that is not enabled does nothing.
- Document paths and stage ids are unique, as `register` and the scaffold make them.

Where code and comments disagree the code is followed: `start_stage` also restarts a blocked stage, `resolve_ticket`
makes a missing artifact fresh, the rate limit holds over a full window only if items are stamped when they are
submitted, a session that fails before its `try` leaves its calls unresolved, and the promise that the `finally` clears
every future holds exactly while no call id is reused by a second request before the first one is finished. Each of
these is a lemma below, with the condition under which the promise does hold.

## Model

| member | source | states |
|---|---|---|
| `Activation.Spreading.Visit` | src/forge_os/context/pruner.py:103-112 | one recursive visit terminates on any graph, keeps every label the length of a walk from a seed, settles every path that is not still being visited, and never raises a label |
| `Activation.Spreading.VisitDependencies` | src/forge_os/context/pruner.py:111-112 | after the loop over a labelled path's dependencies that path too is settled, and labels on the visit stack have not moved |
| `Activation.Spreading.VisitAll` | src/forge_os/context/pruner.py:114-115 | after visiting every stage path at 0 all labels are walk lengths, all paths are settled, and every stage path has label 0 |
| `Activation.SpreadActivationPriorities` | src/forge_os/context/pruner.py:89-116 | on any finite dependency graph, cyclic or not, the map holds exactly the paths reachable from the seeds, each with its shortest distance; with no stage artifact every artifact is a seed |
| `Graphs.RelaxedLabelsAreDistances` | src/forge_os/context/pruner.py:103-112 | labels that are walk lengths and differ by at most one along every edge are exact shortest distances of exactly the reachable paths |
| `Activation.StagePathsAreSeeds` | src/forge_os/context/pruner.py:94-98 | the seed set is the stage's own paths, or all paths when it has none |
| `Staleness.TurnExtendsClosedForm` | src/forge_os/context/registry.py:120-134 | one turn of the refresh loop, marking included, carries the closed-form status of every artifact from the first k turns to the first k+1 |
| `Registry.ArtifactRegistry.Refresh` | src/forge_os/context/registry.py:117-137 | every artifact's status after a refresh is given by `RefreshStatus`: later hits, then absence, own change, earlier staleness or hits; its hash and tokens are the digest and tokens of its file on the disk, or none and 0; dependents and graph are exact |
| `Registry.ArtifactRegistry.Mark` | src/forge_os/context/registry.py:225-233 | the depth-first marking terminates on cyclic graphs, visits only what is downstream, completes every finished visit, and never clears a stale mark |
| `Registry.ArtifactRegistry.MarkDownstreamStale` | src/forge_os/context/registry.py:221-237 | exactly the artifacts downstream of the path over at least one edge become stale; the path itself ends fresh unless it was missing and on no cycle |
| `Registry.MarkingIsDownstream` | src/forge_os/context/registry.py:225-235 | a completed marking has made stale exactly what lies downstream, and changed nothing else |
| `Registry.ArtifactRegistry.Register` | src/forge_os/context/registry.py:69-102 | the document after registering: one new or updated artifact with the disk's status, hash and tokens, no other artifact changed, paths still unique, dependents and edges exact |
| `Registry.RegisterKeepsPathsUnique` | src/forge_os/context/registry.py:73-99 | registering never puts a path into the document twice |
| `Registry.RegisterTakesSnapshot` | src/forge_os/context/registry.py:83-99 | the registered record has its file's digest and tokens and is fresh, or none and 0 and is missing |
| `Registry.ArtifactRegistry.RebuildDependents` | src/forge_os/context/registry.py:206-219 | every `dependents` list is sorted, free of repeats, and holds exactly the artifacts that list this one as a dependency |
| `Registry.ArtifactRegistry.AddDependent` | src/forge_os/context/registry.py:211-217 | one dependency entry adds one dependent, if the dependency is registered and does not list it yet |
| `Registry.ArtifactRegistry.Save` | src/forge_os/context/registry.py:52-58 | after a save the graph has one node per artifact in path order, and its edges are exactly the dependencies between registered artifacts |
| `Registry.ArtifactRegistry.NodesInOrder` | src/forge_os/context/registry.py:150-160 | the nodes are the artifacts' paths, stages and statuses, once each, sorted by path |
| `Registry.ArtifactRegistry.EdgesInto` | src/forge_os/context/registry.py:163-166 | the edges built for one artifact are its registered dependencies |
| `RefreshLaws.EdgesMirrorDependents` | src/forge_os/context/registry.py:150-167 | the graph's edges and the `dependents` lists are the same relation |
| `RefreshLaws.SecondRefreshStatus` | src/forge_os/context/registry.py:120-134 | with the disk unchanged a second refresh keeps every present artifact's status and makes every absent one missing |
| `RefreshLaws.ThirdRefreshChangesNothing` | src/forge_os/context/registry.py:117-137 | with the disk unchanged a third refresh changes no record |
| `RefreshLaws.DownstreamOfChangeIsStaleIff` | src/forge_os/context/registry.py:120-134 | an artifact below a changed one ends stale if and only if it is present and unchanged itself, or a change later in the document reaches it |
| `RefreshLaws.RefreshDependsOnOrderIff` | src/forge_os/context/registry.py:120-134 | some reordering of the document changes an artifact's status if and only if another changed, present artifact reaches it and it is itself absent or changed |
| `RefreshLaws.OrderIrrelevantElsewhere` | src/forge_os/context/registry.py:120-134 | outside that condition every document of the same artifacts gives the artifact the same status |
| `RefreshLaws.OrderDecides` | src/forge_os/context/registry.py:120-134 | under that condition the artifact ends stale when it is moved to the front and not stale when it is moved to the end |
| `RefreshLaws.RefreshDependsOnDocumentOrder` | src/forge_os/context/registry.py:120-134 | the smallest case of it: two artifacts, both edited, one depending on the other |
| `RefreshLaws.FreshMeansPresent` | src/forge_os/context/registry.py:125-128 | a fresh artifact has its file; a missing file shows as stale exactly under a later change upstream |
| `RefreshLaws.ChangedIffEdited` | src/forge_os/context/registry.py:119-124 | a record as of one disk counts as changed on another if and only if its file was added, removed, or has a different digest |
| `RefreshLaws.UneditedStatus` | src/forge_os/context/registry.py:117-137 | recorded on one disk and refreshed on another, an unedited present artifact ends stale if and only if it was stale or an edited, present one reaches it |
| `RefreshLaws.EditedStatus` | src/forge_os/context/registry.py:117-137 | an edited artifact ends fresh unless another edited one later in the document reaches it |
| `RefreshLaws.NoEditNothingStale` | src/forge_os/context/registry.py:117-137 | with no digest different and nothing stale before, every present artifact stays fresh |
| `RefreshLaws.RegisterEditRefresh` | src/forge_os/context/registry.py:69-137 | two files registered on one disk, the second depending on the first, and refreshed on another: the second ends stale if and only if the first has a different digest |
| `RefreshLaws.RegisteringHidesChange` | src/forge_os/context/registry.py:90-99 | an artifact below a changed one, itself present, unchanged and not stale, ends stale after a refresh; if the changed one is re-registered first, it ends fresh if and only if no other change reaches it |
| `RefreshLaws.RegisteringHidesChangeIff` | src/forge_os/context/registry.py:90-99 | the same when the registration also replaces dependencies: fresh if and only if no other change reaches it over the dependencies then registered |
| `Pruner.ContextPruner.Select` | src/forge_os/context/pruner.py:32-87 | a non-positive budget is refused with nothing changed; otherwise the registry is refreshed, the candidates are the reachable artifacts with priorities never falling and equal ones in code-point order of paths, the selection follows the greedy choice over them, no read fails, and it is appended to the audit |
| `Pruner.ContextPruner.Rank` | src/forge_os/context/pruner.py:37-42 | the candidates are exactly the registered reachable artifacts, once each, at their shortest distances, nearer ones first and equally near ones in code-point order of paths |
| `Choice.NearerComesFirst` | src/forge_os/context/pruner.py:39-42 | no candidate comes before one that is strictly nearer to the seeds |
| `Ordering.LeqIsLexicographic` | src/forge_os/context/pruner.py:39-42 | the path order is the lexicographic one: a prefix, or the smaller character at the first difference |
| `Pruner.ContextPruner.Take` | src/forge_os/context/pruner.py:44-76 | the loop's total, selected items and omissions with their reasons are those of the choice, in order |
| `Pruner.ContextPruner.ReadArtifact` | src/forge_os/context/pruner.py:123-149 | fails exactly if the file is absent; if modification times tell edits apart the cached or read content is the disk's, and the cache stays true |
| `Choice.ChoiceIsFeasible` | src/forge_os/context/pruner.py:44-76 | the selection holds fresh candidates only and stays within the budget |
| `Choice.NoOmittedCandidateFits` | src/forge_os/context/pruner.py:57-65 | no fresh candidate that was left out fits in the budget that remains at the end |
| `Choice.ChoiceIsLexicographicallyFirst` | src/forge_os/context/pruner.py:47-76 | among all feasible sets of fresh candidates the selection takes the first candidate on which it differs from any other |
| `Choice.ChoicePartitions` | src/forge_os/context/pruner.py:47-76 | selected and omitted candidates together are the candidates, as multisets |
| `Pruner.FreshAreOnDisk` | src/forge_os/context/pruner.py:73 | after a refresh every fresh candidate's file is there to be read |
| `Planner.AffectedPaths` | src/forge_os/project/rework_planner.py:53-69 | the breadth-first closure terminates on any stored `dependents` lists and returns exactly what they reach from the stage's artifacts |
| `Planner.AddDependents` | src/forge_os/project/rework_planner.py:62-69 | one turn of the queue keeps everything seen reachable and closed except at waiting paths, and grows the set or shrinks the queue |
| `Planner.GetAffectedArtifacts` | src/forge_os/project/rework_planner.py:46-80 | on any stored document the affected paths are exactly what its `dependents` lists reach from the stage's artifacts; with exact lists that is the stage's artifacts and everything downstream of each; downstream stages are exactly the other stages owning one; both sorted without repeats |
| `Planner.AffectedIsStageAndDownstream` | src/forge_os/project/rework_planner.py:58-69 | closure over `dependents` equals the stage's own paths plus the union of what marking each of them reaches |
| `Planner.ListedReachIsDownstreamReach` | src/forge_os/project/rework_planner.py:66 | with exact lists, reachability over `dependents` is reachability over the dependency lists read backwards |
| `Planner.ReworkPlanner.CreateBacktrackTicket` | src/forge_os/project/rework_planner.py:18-39 | appends one open ticket whose affected paths are the stage's closure |
| `Planner.ReworkPlanner.ApproveTicket` | src/forge_os/project/rework_planner.py:82-86 | approves the first ticket with the id and reports whether there is one |
| `Planner.ReworkPlanner.RunRework` | src/forge_os/project/rework_planner.py:88-107 | only an approved ticket marks its registered artifacts stale and moves to in progress; otherwise nothing changes |
| `Planner.ReworkPlanner.ResolveTicket` | src/forge_os/project/rework_planner.py:109-132 | clears the stale mark of the ticket's artifacts only and resolves the ticket |
| `Planner.ResolveUndoesReworkIff` | src/forge_os/project/rework_planner.py:98-122 | resolving right after a rework restores the document if and only if every affected artifact was fresh before |
| `Planner.ResolvingClaimsFresh` | src/forge_os/project/rework_planner.py:116-122 | resolving a rework leaves every affected artifact fresh even if its file is absent; the next refresh makes it missing again exactly if the file is absent and no later change reaches it |
| `Planner.ReworkSurvivesRefresh` | src/forge_os/project/rework_planner.py:98-105 | an artifact marked for rework stays stale through a refresh while its file is present and unchanged |
| `EventTable.StreamReadsBackItsAppends` | src/forge_os/events/store.py:78-94 | for any history of appends to many streams, a stream reads back its own appends in order and its k-th event has version k |
| `EventTable.AppendKeepsVersions` | src/forge_os/events/store.py:234-241 | an append to one stream keeps every stream numbered 1, 2, 3, ... and event ids growing |
| `EventTable.MaxVersionIsStreamLength` | src/forge_os/events/store.py:234-241 | the greatest version of a numbered stream is its length |
| `EventTable.StreamFromDropsPrefix` | src/forge_os/events/store.py:131-143 | reading from version v gives the stream without its first v events, for every integer v |
| `EventTable.SnapshotDoesNotMatter` | src/forge_os/events/store.py:191-215 | if the snapshot holds the merge of the first k events, replay from it equals the merge of the whole stream |
| `EventTable.LastWriterWins` | src/forge_os/events/store.py:203-214 | a key of the replayed state has what the last event that writes it says |
| `EventTable.UnwrittenStays` | src/forge_os/events/store.py:203-214 | a key that no event writes keeps what the start state had |
| `EventTable.FoldFailsIff` | src/forge_os/events/store.py:203-214 | merging fails if and only if some event carries a state that is no object |
| `EventTable.FoldAfterDropsPrefix` | src/forge_os/events/store.py:208-213 | skipping events up to a version is merging the rest of the stream |
| `EventStores.EventStore.Append` | src/forge_os/events/store.py:78-94 | one row is added with the next version of its stream and the next id |
| `EventStores.EventStore.ReplayState` | src/forge_os/events/store.py:191-215 | the loop rebuilds the state from the snapshot and the later events; with a true snapshot that is the merge of all events |
| `PipelineLaws.RunIsCoherent` | src/forge_os/core/state_manager.py:111-208 | in every state any run of start, complete, advance and override reaches, under any gate results: at most one stage active, it is the current one, and the current stage is active or blocked |
| `PipelineLaws.CallKeepsCoherence` | src/forge_os/core/state_manager.py:111-208 | each single call keeps that invariant, refused or not |
| `PipelineLaws.ScaffoldIsCoherent` | src/forge_os/project/scaffold.py:88-109 | the scaffolded state satisfies the invariant |
| `PipelineLaws.CompletionFollowsGates` | src/forge_os/core/state_manager.py:138-161 | for an active stage: if any result blocks, completing raises with the reason, leaves the stage blocked and current, and logs StageBlocked; if none does, it is complete, stamped, none is current, and StageCompleted is logged; no other stage changes |
| `PipelineLaws.AdvanceFollowsGates` | src/forge_os/core/state_manager.py:163-186 | the same for an advance from an active current stage: one blocking result among any others blocks it, otherwise it is complete |
| `PipelineLaws.BlockReasonJoins` | src/forge_os/core/state_manager.py:296-300 | the reason is the summaries of the blocking results and no others, in order, joined by semicolons |
| `PipelineLaws.BlockReasonMentions` | src/forge_os/core/state_manager.py:296-300 | every blocking summary occurs in the reason |
| `PipelineLaws.OverrideNeedsReason` | src/forge_os/core/state_manager.py:188-192 | an override is refused for its reason if and only if that is nothing but white space |
| `PipelineLaws.CallKeepsEntryTimes` | src/forge_os/core/state_manager.py:129-131 | under every call a stage's time of entry is set when it first becomes active and never changed again |
| `PipelineLaws.RunKeepsShape` | src/forge_os/core/state_manager.py:111-186 | without an override the stages are always complete ones, then the current one if any, then ones not started; progress never goes back |
| `PipelineLaws.AdvanceRefusedIff` | src/forge_os/core/state_manager.py:163-186 | in such a state advance raises exactly when the pipeline is finished, the current stage is blocked, a gate blocks, or the reflection fails, each with its own error |
| `PipelineLaws.AdvancesMoveOneStageEach` | src/forge_os/core/state_manager.py:163-186 | k gate-passing advances complete the next k stages, or all that are left, and activate the one after; a finished pipeline is left alone |
| `PipelineLaws.ExactlyNAdvancesFinish` | src/forge_os/core/state_manager.py:163-186 | a scaffolded pipeline of n stages is finished after k gate-passing advances if and only if k is at least n; the next one is then refused, and not before |
| `PipelineLaws.AdvanceAgainAfterReflection` | src/forge_os/core/state_manager.py:155-161 | a failing reflection stops an advance with the stage complete and none current; the next advance starts the following stage |
| `PipelineLaws.StartSucceedsIff` | src/forge_os/core/state_manager.py:111-136 | without overrides a start succeeds if and only if it names the first stage not complete and that stage is not active, so a blocked stage restarts |
| `PipelineLaws.CallLogsItself` | src/forge_os/core/state_manager.py:130-208 | folding what a call logs over the view before it gives the view after it, for every call and outcome |
| `PipelineLaws.RunLogRebuildsState` | src/forge_os/core/state_manager.py:210-227 | folding the log of any run over the initial view gives the current stage and, under its id, the status of every stage |
| `StateManagers.StateManager.StartStage` | src/forge_os/core/state_manager.py:111-136 | a refused start writes nothing; otherwise state, log and mirror are those of the transition; at no intermediate write was the log more than one entry behind or the store more than one save |
| `StateManagers.StateManager.CompleteStage` | src/forge_os/core/state_manager.py:138-161 | completion or blocking by the gates, with gate events logged first, state saved, then the transition logged, then the reflection, which may raise |
| `StateManagers.StateManager.AdvancePipeline` | src/forge_os/core/state_manager.py:163-186 | completion and start of the next stage as two committed transitions, or a last save when there is none; a raising gate or reflection stops it after the first |
| `StateManagers.StateManager.OverrideStage` | src/forge_os/core/state_manager.py:188-208 | the loop makes the target active, every other active stage blocked, and nothing else different |
| `StateManagers.StateManager.Save` | src/forge_os/core/state_manager.py:87-104 | state.json, then the mirror, then the best-effort append; after the files the store is one save behind, and if the append succeeds the replayed stream is the saved document and reads back to the state |
| `StateManagers.StateManager.LogTransition` | src/forge_os/core/state_manager.py:210-227 | the log catches up with the state; stamping the event id leaves replay and state.json equal on every other key |
| `StateManagers.StateManager.PerformAll` | src/forge_os/core/state_manager.py:111-227 | over any sequence of calls the state is the run's and the log folds to it; at every crash point the log lacks at most the transition in flight, state.json is the last document saved, and the store replays to a saved document, the last or the one before if all appends succeeded; between calls with no append lost replay equals state.json except for the last event id, and reads back to the state |
| `StateManagers.SavedRowReplaysToItself` | src/forge_os/core/state_manager.py:96-104 | one more whole-document row makes the replay that document, whatever was appended or lost before and whatever true snapshot exists |
| `StateDocuments.LoadDump` | src/forge_os/core/state_manager.py:90-91 | the saved document determines the state: reading it back gives every stage, gate result, stamp and other entry, when the other entries use none of its six keys |
| `StateManagers.AgreeingDocumentLoads` | src/forge_os/core/state_manager.py:87-104 | a replayed document that agrees with state.json reads back to the state, the last event id aside |
| `StateManagers.SaveBegins` | src/forge_os/core/state_manager.py:87-104 | beginning a save puts the store one save behind and no earlier crash point further |
| `StateManagers.ApplyIgnoresStamps` | src/forge_os/core/state_manager.py:111-208 | no transition depends on the time and event stamps |
| `Transcript.ExtractOutputs` | src/forge_os/adapters/claude_code/adapter.py:348-390 | the loop's outputs are the first writes inside the project, in order, each under the tool that wrote it first |
| `Transcript.OutputsAreTheWrittenPaths` | src/forge_os/adapters/claude_code/adapter.py:362-390 | a path is among the outputs if and only if some file-writing tool use wrote it inside the project, and none is there twice |
| `Transcript.CollectToolUses` | src/forge_os/adapters/claude_code/runner.py:110-117 | the tool uses are those of the assistant lines, in order |
| `TranscriptLaws.ToolUseBlocksAre` | src/forge_os/adapters/claude_code/runner.py:66-86 | a line's tool uses are exactly the objects of that type in its message content |
| `TranscriptLaws.ToolUsesAre` | src/forge_os/adapters/claude_code/runner.py:110-117 | the tool uses of a run are exactly those of its assistant lines |
| `TranscriptLaws.ToolUsesInOrder` | src/forge_os/adapters/claude_code/runner.py:110-117 | they come in the order of the lines |
| `TranscriptLaws.WrittenByIff` | src/forge_os/adapters/claude_code/adapter.py:348-390 | a tool use is an output if and only if its tool writes files and its non-empty path lies in the project |
| `TranscriptLaws.SucceededIff` | src/forge_os/adapters/claude_code/runner.py:134-141 | a run succeeded if and only if it returned 0 and its last result line carries no true error flag |
| `TranscriptLaws.AssistantTextJoins` | src/forge_os/adapters/claude_code/runner.py:101-107 | without a result text the text is the non-empty texts of the assistant lines, one per line |
| `ReplayLaws.ResultLineTells` | src/forge_os/adapters/claude_code/runner.py:94-133 | text, usage and cost are those of the last result line, where it has them in the right form |
| `Recording.ClaudeCodeAdapter.SpawnAgent` | src/forge_os/adapters/claude_code/adapter.py:99-146 | the run's stream holds exactly the kept ones of its start, stream and terminal records, in order, whatever other runs append in between; the handle or the error is the run's |
| `Recording.ClaudeCodeAdapter.SafeAppend` | src/forge_os/adapters/claude_code/adapter.py:266-277 | a failed append loses that record only; other runs' appends do not touch this run's stream |
| `Recording.ReplaySession` | src/forge_os/adapters/claude_code/replay.py:36-99 | the scan's result is that of the last start, all stream and the last terminal records, with each error case: unknown, unstarted, unfinished or failed runs, missing keys, and a handle that does not validate |
| `ReplayLaws.ReplayIsIdentity` | src/forge_os/adapters/claude_code/replay.py:36-99 | with no append lost, replaying a recorded run returns the handle the spawn returned, outputs included, for every request and transcript |
| `ReplayLaws.RecordThenReplay` | src/forge_os/adapters/claude_code/replay.py:60-99 | a successful run replays to a handle if and only if its first and last records were kept, and then only outputs of lost stream records can be missing |
| `ReplayLaws.SpawnThenReplay` | src/forge_os/adapters/claude_code/adapter.py:99-146 | spawning, then appends of other runs, then replaying: a failed spawn never replays, a successful one replays if and only if its first and last records were kept, and to its own handle if all were |
| `ReplayLaws.StartRecordTells` | src/forge_os/adapters/claude_code/adapter.py:291-313 | the start record determines persona, stage, prompt, context and tools |
| `ReplayLaws.LastRecordTells` | src/forge_os/adapters/claude_code/adapter.py:315-345 | the last record carries the handle's id, status, counts and metadata, or the error |
| `ReplayLaws.MissingKeyIsMalformed` | src/forge_os/adapters/claude_code/replay.py:90-99 | a completed record is malformed if and only if one of the needed keys is missing |
| `ReplayLaws.FailedRunNeverReplays` | src/forge_os/adapters/claude_code/replay.py:82-88 | a failed run never replays to a handle, whichever records were lost |
| `ReplayLaws.UnfinishedRunNeverReplays` | src/forge_os/adapters/claude_code/replay.py:77-80 | a run cut off before its terminal record never replays to a handle |
| `BackChannelLaws.OneResponsePerCallWithItsOwnResult` | src/forge_os/adapters/opencode/adapter.py:436-519 | in every interleaving a request that is done has exactly one response; one with a result carries what the caller sent to that session under that call id, a 504 means the deadline fired, a 500 that the future failed, a 404 that no session was found |
| `BackChannelDelivery.ProposalIsAnswered` | src/forge_os/adapters/opencode/adapter.py:644-685 | a waiting request whose proposal heads the queue: taking it and sending the right result resolves its future with that result, withdraws its entry and lets the loop go on, and the request answers with it |
| `BackChannelDelivery.WrongResultEndsLoop` | src/forge_os/adapters/opencode/adapter.py:652-661 | no result, or one for another call, ends the loop and changes nothing else |
| `BackChannelDelivery.BuiltInTouchesNoFuture` | src/forge_os/adapters/opencode/adapter.py:680-685 | a built-in proposal touches no future and ends the loop only if the permission call fails |
| `BackChannelDelivery.EventPassesThrough` | src/forge_os/adapters/opencode/adapter.py:686-689 | any other event is passed on, and only a terminal one ends the loop |
| `BackChannelDelivery.FirstInFirstOut` | src/forge_os/adapters/opencode/adapter.py:633 | in every interleaving what the loop takes is what was queued and put, in that order, nothing lost or doubled |
| `BackChannelDelivery.EveryWaiterIsProposed` | src/forge_os/adapters/opencode/adapter.py:477-495 | in every run without a reuse in the session, a waiting request's proposal is in its queue or out with the caller, as long as the loop is not ending |
| `BackChannelDelivery.EveryWaiterCanBeAnswered` | src/forge_os/adapters/opencode/adapter.py:631-689 | in every reachable state a waiting request is reached by serving the queue up to its proposal, and answering that sends it the answer, unless a terminal event comes first |
| `BackChannelDelivery.ResultArrivesThroughInterleaving` | src/forge_os/adapters/opencode/adapter.py:648-679 | while a proposal is out with the caller, whatever other requests, sessions and events do, the caller's result is what the request answers with |
| `BackChannelDelivery.FutureFate` | src/forge_os/adapters/opencode/adapter.py:415-519 | exactly what each step makes of each future: its own timeout or disconnection cancels it, its session's finally or a shutdown that holds it fails it, its result resolves it, and nothing else touches it |
| `BackChannelDelivery.RespondsIff` | src/forge_os/adapters/opencode/adapter.py:497-519 | exactly when a request responds and with what: 504 past its deadline, 500 when failed, its result when resolved in time |
| `BackChannelDelivery.RespondingWithdraws` | src/forge_os/adapters/opencode/adapter.py:497-511 | an answer leaves the pending tables alone, a 504 or 500 first withdraws the entry under its call id |
| `BackChannelDelivery.ProposalIsRouted` | src/forge_os/adapters/opencode/adapter.py:469-479 | a request is registered, pending, under its call id in the session of its aggregate, or answered with 404 if there is none |
| `BackChannelLaws.EveryRunIsSafe` | src/forge_os/adapters/opencode/adapter.py:646-685 | pending tables, futures and responses stay matched to their calls under every step, and a request past its wait has a future that no longer changes |
| `BackChannelLaws.ClosedSessionLeavesNobodyWaiting` | src/forge_os/adapters/opencode/adapter.py:691-703 | while a session reuses no call id of an unfinished request, whatever other sessions do, once past its finally it has no unresolved future and every waiting handler can respond |
| `BackChannelLaws.AcceptingIsHarmlessIff` | src/forge_os/adapters/opencode/adapter.py:475-511 | accepting a request keeps that promise in every continuation without a reuse if and only if the session is abandoned or no unfinished request of it has the call id; otherwise a timeout of the older request withdraws the newer one's entry and its future outlives the finally |
| `BackChannelLaws.HarmIsReachable` | src/forge_os/adapters/opencode/adapter.py:475-479 | after one request to a new session, accepting a second is harmless if and only if its call id differs |
| `BackChannelLaws.EveryRunIsTidy` | src/forge_os/adapters/opencode/adapter.py:475-511 | in every run a pending future of a watched session is in that session's own table, registered sessions are not past their finally, and sessions past it have no unresolved future; a finally or shutdown settles it only if one still reaches that table |
| `BackChannelLaws.StrandedEndsIff` | src/forge_os/adapters/opencode/adapter.py:593-624 | a pending call of a session abandoned before its try is settled by a step if and only if that step is its own timeout, the loss of its connection, or a shutdown that finds it in a registered session's table |
| `BackChannelLaws.StrandedStays` | src/forge_os/adapters/opencode/adapter.py:593-624 | through any run without its own timeout or disconnection such a call stays pending, if the session is deregistered or no shutdown happens |
| `BackChannelLaws.FailedCreationStrandsIff` | src/forge_os/adapters/opencode/adapter.py:593-597 | a failing creation leaves a call unresolved through every run that does not end its own wait if and only if it is pending at that moment |
| `BackChannelLaws.FailedStartStrandsIff` | src/forge_os/adapters/opencode/adapter.py:600-629 | a failing start leaves the session registered, and a call unresolved until a shutdown or its own timeout if and only if it is pending at that moment |
| `BackChannelLaws.ShutdownSettlesIff` | src/forge_os/adapters/opencode/adapter.py:415-425 | a shutdown fails a stranded call that is in its session's table if and only if the session is still registered |
| `BackChannelLaws.FailedCreationLeavesFuturePending` | src/forge_os/adapters/opencode/adapter.py:593-597 | the shortest such run: opened, asked, creation failed, and nothing but the request's own timeout resolves it, not even a shutdown |
| `ProxyQueue.AcceptedIsDeliveredPlusCirculating` | src/forge_os/adapters/claude_sdk/adapter.py:148-172 | in every interleaving the accepted results are, as multisets, those delivered plus those queued plus those held, and a proxy only ever returns its own |
| `ProxyQueue.EveryRunConserves` | src/forge_os/adapters/claude_sdk/adapter.py:367-387 | every step of loop and proxies keeps that balance from any balanced state |
| `ProxyQueue.LateResultCirculatesForever` | src/forge_os/adapters/claude_sdk/adapter.py:148-172 | a result for a call that has timed out is never delivered and never leaves circulation |
| `ProxyQueue.OneResultPerProposal` | src/forge_os/adapters/claude_sdk/adapter.py:367-381 | in every interleaving a call is proposed at most once, and while the loop runs the results accepted plus those still owed number exactly the calls that have proposed |
| `ProxyQueue.FirstInFirstOut` | src/forge_os/adapters/claude_sdk/adapter.py:142-161 | in every interleaving both queues give out what was put in, in that order; a result put back goes to the end |
| `ProxyQueue.OwnResultIsFound` | src/forge_os/adapters/claude_sdk/adapter.py:146-161 | a waiting call whose result is anywhere in the queue reaches it by passing on the ones before it, which keep their order |
| `ProxyQueue.TakingDecides` | src/forge_os/adapters/claude_sdk/adapter.py:369-381 | taking an event makes the loop wait for a result after a proposal only, and ends it at the sentinel only |
| `Intake.FeedbackQueue.Submit` | src/forge_os/channels/intake.py:45-69 | refused as a duplicate if and only if a pending item has the same sender and text; else for the rate if and only if at least the maximum of the sender's own pending items have a readable stamp younger than the window; otherwise the item is appended |
| `Intake.LaggedWindowBound` | src/forge_os/channels/intake.py:57-66 | when stamps are at most a lag older than their submission, no interval as long as the window less the lag, open at either end, holds more of a sender's items than the maximum; clocks may jump and unreadable stamps may be mixed in |
| `Intake.BoundHoldsIff` | src/forge_os/channels/intake.py:57-78 | the bound holds for an interval length over every history with stamps that lag by at most `lag` if and only if the length is at most the window less the lag, or nothing is allowed or measured at all |
| `Intake.WindowBound` | src/forge_os/channels/intake.py:57-66 | with every item stamped at its submission the bound holds for the window's whole length |
| `Intake.LagBreaksTheFullWindow` | src/forge_os/channels/intake.py:57-66 | the smallest failing input: a limit of one in ten seconds, and an item submitted one second after it was stamped |
| `Intake.NoTwoPendingAlike` | src/forge_os/channels/intake.py:54-55 | no two pending items ever share sender and text |
| `Intake.UnreadableStampsAreNotLimited` | src/forge_os/channels/intake.py:71-78 | in any history a sender whose stamps are all unreadable is refused for exact repeats only, however many items it submits |
| `DaemonStates.DaemonStateStore.AddAlert` | src/forge_os/daemon/state.py:69-95 | an alert that repeats source, severity and message of the newest is dropped, otherwise it is added and the oldest go beyond 100; an error without state |
| `DaemonStates.AlertsAreLastOfCollapsed` | src/forge_os/daemon/state.py:69-95 | for every history the stored list is the last 100 entries of the history with consecutive repeats collapsed to their first |
| `DaemonStates.AlertsStayCappedAndDistinct` | src/forge_os/daemon/state.py:72-75 | never more than 100 alerts, never two adjacent alike |
| `DaemonStates.DaemonStateStore.RecordTaskRun` | src/forge_os/daemon/state.py:97-109 | updates one task's counters and nothing else |
| `DaemonStates.CountersCount` | src/forge_os/daemon/state.py:100-108 | over any history the counters are the numbers of runs and of failures, and the last error is the latest failure's |
| `Scheduler.TaskRunner.RunPending` | src/forge_os/daemon/scheduler.py:43-70 | who runs and the next due times are those of the poll, whichever runs fail; failures only decide who is notified |
| `Scheduler.TasksRunIndependently` | src/forge_os/daemon/scheduler.py:56-63 | for any tasks, names shared or not, a name runs at a poll exactly when a single task with its effective interval would alone: at the first poll, then at the first poll at or after its last run plus that interval; and as often as it has turns |
| `Scheduler.OwnNameOwnInterval` | src/forge_os/daemon/scheduler.py:56-63 | a task whose name no other task has is due after its own interval and alone runs |
| `Scheduler.FirstOfNameStarvesOthers` | src/forge_os/daemon/scheduler.py:57-61 | of several tasks with one name the first, if its interval is positive, sets the due time and is the only one that ever runs |
| `Scheduler.RunsSpanIntervals` | src/forge_os/daemon/scheduler.py:59-62 | n runs span at least n - 1 intervals |
| `Scheduler.RunCountBound` | src/forge_os/daemon/scheduler.py:51-53 | up to time t there are at most 1 + (t - first) / interval runs |
| `LazyContext.Build` | src/forge_os/context/lazy.py:80-122 | a non-positive budget is refused; otherwise the bundle fits its cap, trimmed and kept lessons are the originals in order, the trimmed ones are the smallest by (confidence, id) and as few as suffice, and the menu loses its tail only after every lesson |
| `LazyContext.CapIsQuarter` | src/forge_os/context/lazy.py:90-96 | the cap is a quarter of the budget, rounded down, but at least one token |
| `LazyContext.TrimLessons` | src/forge_os/context/lazy.py:97-100 | the first loop removes the least lessons one at a time, each only while the total is over the limit |
| `LazyContext.TrimMenu` | src/forge_os/context/lazy.py:101-103 | the second loop leaves a prefix of the menu that fits, and one skill more would not |
| `LazyContext.NoLongerMenuFits` | src/forge_os/context/lazy.py:101-103 | the menu that is left is the longest prefix that fits |
| `LazyContext.NothingTrimmedIff` | src/forge_os/context/lazy.py:97-106 | nothing is trimmed if and only if menu and index fit the cap to begin with |

## Left out

- Artifact objects shared between the document list and `by_path`: records are replaced in the list by position, which is the same update because paths are unique.
- Path normalisation, validation errors, timestamps, ids, kinds and metadata of artifacts; the graph file; the `reason` text of selected items.
- Duplicate dependencies inside one artifact: a reload drops them, and no statement here depends on them.
- Files that exist but cannot be decoded, and disk changes in the middle of one call.
- StateManagers.StateManager.Save: does not model a failing config load or file write; what it leaves on disk is one of the journal's images, but calls made after it in the same process are not followed.
- Hooks and hook timing, and what a reflection stores: they do not touch pipeline state; that a reflection raises is modelled.
- One clock reading per call where the source may read the clock several times; event ids are numbered.
- `Strip` removes ASCII white space only.
- A `state` payload that is not an object counts as malformed; Python would still merge an empty list or a list of pairs.
- Two writers that read the same greatest version before either inserts; the store is used by one writer at a time.
- Recording.ReplaySession: a stream record whose type or raw line has the wrong JSON type counts as malformed, where the source goes on and may fail inside output extraction; `spawn_agent` never records one.
- Non-string text blocks and unhashable tool names in a transcript, which make the source raise; prompt building, tool mapping and the security gate before a spawn.
- BackChannel and ProxyQueue are transition systems on values, not objects: aliasing of session and future objects is by number.
- Cancellation of a proxy or a handler at a queue put: the queues are unbounded, so a put never suspends.
- Requests refused as malformed before a session is looked up (status 400); they touch no state.
- The permission API, server events and HTTP parsing around the back-channel, except as items and failures that may happen at any step.
- Floating-point rounding of seconds, confidences and budgets: reals and integer division are used.
- The skill menu and lesson index as read from disk, and the estimator behind token counts.
- Command line, rendering, health checks, cost, lessons, channels other than intake, daemon processes: one-branch facts that would only add easy members.
