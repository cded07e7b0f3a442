# goagents: a model of its protocols, with proofs

This project models the parts of `goagents` whose guarantees span several functions and unbounded runs, and proves
those guarantees for all inputs and all runs. `dafny verify dfyconfig.toml` checks everything.

- **Workflow engine** (`Workflow*.dfy`). Executor sessions, the queue store and its clock are a transition system:
  sessions with a program counter, guarded writes, claims, extensions, releases, cancellations and lease-expiry
  recovery in any order, with a clock that need not be monotone. The executor's loops and the store's operations are
  imperative and are proved to take exactly the steps of that system.
- **Agent loop** (`ToolExecutor.dfy`, `Agent*.dfy`). The ReAct pipeline is a list of stages over one run record. The
  model, tools, policy, approver, providers and validators are uninterpreted deterministic functions. Runs are paused
  for approval, checkpointed, restored and resumed. `AgentRunner.dfy` holds the stages as loops that change the record
  in place. `StreamRelay.dfy` is the event relay as a three-channel process.
- **Governed memory** (`Memory*.dfy`, `SearchTerms.dfy`, `Recall*.dfy`, `Extraction*.dfy`). The versioned store, term
  and gram search, recall over the store, and the leased extraction-job queue.
- **Context compression** (`Context*.dfy`). Greedy window selection under a character and token budget, and chained,
  reversible collapses with their recursive restore.
- **Provider health and routing** (`Health*.dfy`, `Routing.dfy`). The circuit breaker, concurrency
  accounting, and the snapshot filter against the atomic admission check.

Shared definitions are in `Wrappers.dfy`, `Order.dfy`, `Text.dfy` and `Doubling.dfy`. Operations that change state are
classes or methods with loops, each proved against a function of the old state; theorems are about those functions.
What each function means is stated apart from its definition: `AgentGates`, `AgentMeaning`, `AgentOutcomes`,
`WorkflowOutcomes`, `WorkflowLeases`, `MemoryEffects`, `RecallMeaning`, `RecallOrder`, `ExtractionJobs` and
`HealthAdmits` say what operations write, admit, refuse and return in terms of records, calls and events.
Where Go walks a map, the model picks keys in an arbitrary order and the result is proved not to depend on it.

## Where the code does not meet the plain statement

Each of these has a lemma with a concrete input and a lemma with the condition under which the property holds.

- A resumed run counts its iteration limit from the checkpoint's iteration number, which an empty model answer does not
  advance. `AgentEmptyAnswer.EmptyAnswerOutlivesLimit` is a run that differs from its unpaused twin;
  `AgentEquivalence.ResumeMatchesAllowed` says exactly when they agree: when the checkpoint shows
  `LLMCalls == Iteration + 1`, or the unpaused run does not hit the limit. `AgentChain.ChainMatches` says so for chains.
- Starting a workflow run adopts the caller's copy of it. `WorkflowStarts.StaleStartLosesProgress` is a worker that
  starts an old claim again and loses an attempt. `WorkflowStarts.StartKeepsProgressIff`: a claimed copy loses nothing
  if and only if no write since the claim changed the run's progress, provided that no start in between brought back
  older progress; without that proviso the condition is still sufficient, and `WorkflowStarts.StaleStartHidesWrites` is
  a run in which it is not necessary. Attempt counts and completed prefixes stay in bounds however old the copies are.
- Health keys join account, model and provider with `|`. `HealthKeys.PipeEvadesAccountLimit` is a pair of accounts that
  share a key and exceed a limit. `HealthKeys.TotalsRightIff`: over a set of candidates, account totals equal the open
  calls in every run if and only if candidates that share a key belong to one account. Only account totals and limits
  need this: entry counts, provider limits and the single probe hold in every run (`HealthRuns.LimitsHold`).

## Model

| member | source | states |
|---|---|---|
| WorkflowProtocol.AtMostOneWriter | workflowkit/executor.go:84-178 | in every interleaving of sessions, saves, claims, extensions, releases, cancels and recovery, at most one session of a run can still commit a write |
| WorkflowProtocol.TerminalForever | workflowkit/executor.go:332-346 | a succeeded, failed or cancelled run is never overwritten; later events touch only its lease fields |
| WorkflowProtocol.FencedForever | workflowkit/executor.go:332-346 | a session that lost its run to a cancel, a recovery, a release or its own end never writes again |
| WorkflowProgress.CompletedPrefixAndAttempts | workflowkit/executor.go:180-226 | over any number of claims, yields and approvals, and however old the claimed copies are that are started, the completed steps are a prefix of the step list and no attempt count exceeds max(MaxAttempts, 1) |
| WorkflowProgress.CompletedNeverRunsAgain | workflowkit/executor.go:180-226 | if no accepted start brings back older progress, the body of a completed step never executes again |
| WorkflowProgress.BodiesBounded | workflowkit/executor.go:233-297 | under the same condition a step body executes at most max(MaxAttempts, 1) times for one run |
| WorkflowStarts.LatestClaimsAreCurrent | workflowkit/executor.go:84-114 | workers that start only their latest claim, once, never bring back older progress |
| WorkflowStarts.LatestClaimsBounded | workflowkit/executor.go:180-297 | for such workers the bounds on prefixes, attempts and executed bodies all hold |
| WorkflowStarts.StartKeepsProgressIff | workflowkit/executor.go:84-114 | an accepted start of a claimed copy loses no attempt and no completed step if no write since the claim changed the progress, and only then if the starts in between brought back none |
| WorkflowStarts.StaleStartLosesProgress | workflowkit/executor.go:84-114 | a concrete run in which starting an old claim again discards a recorded attempt |
| WorkflowStarts.StaleStartHidesWrites | workflowkit/executor.go:84-114 | a concrete run in which a stale start in between makes two executed bodies look like one attempt, so that a later start loses nothing although progress was written |
| WorkflowOutcomes.StatusMeans | workflowkit/executor.go:180-226 | over every behaviour, whatever copies are started: a run has succeeded only if every step is completed or a body of it returned succeeded; it waits, failed or was cancelled only because a body returned that, a body failed, someone cancelled it, or its lease was recovered |
| WorkflowOutcomes.CompletedRan | workflowkit/executor.go:211-221 | over every behaviour that starts only copies handed out before, however old, a step is completed only if a body of it returned without an error and without failing or cancelling the run |
| WorkflowOutcomes.ResultStored | workflowkit/executor.go:348-416 | an accepted write of a step result stores the status the step gave, or running if it gave none; its non-empty references and metadata are laid over the run's; the step is completed unless it failed or cancelled the run; nothing else changes |
| WorkflowOutcomes.FailureStored | workflowkit/executor.go:196-211 | an accepted write of a failed step fails the run with the step's error and keeps the references it returned |
| WorkflowOutcomes.AttemptRecorded | workflowkit/executor.go:233-327 | after a body one record of the attempt is added; a transient error with attempts left is tried again, at once or after the run is given back until its delay is over; any other error fails the run unless the body was preempted |
| WorkflowOutcomes.ApprovalStored | workflowkit/executor.go:120-156 | only a run waiting for approval goes on, with the approval's references laid over its own |
| WorkflowLeases.LeaseExcludes | workflowkit/store.go:199-338 | from a successful claim on, while its worker neither releases nor shortens the lease and no clock has passed its end, the worker holds the run, no claim of it succeeds and no recovery touches it, whatever else happens |
| WorkflowLeases.RetryWaits | workflowkit/executor.go:276-283 | a run given back for a retry is handed out by no claim made before the retry is due |
| WorkflowLeases.CancelWins | workflowkit/executor.go:160-178 | cancelling a run that has not ended closes it for good with the reason given, and no session of it can write any more; a run that has ended stays as it is |
| WorkflowLeases.RecoveryCloses | workflowkit/store.go:310-338 | recovery closes exactly the running runs whose lease is over, for good, and takes their lease |
| WorkflowLeases.ClaimHandsOut | workflowkit/store.go:199-244 | a claim hands out a run if and only if it is pending, due and not leased, and then only its lease changes |
| WorkflowLeases.StartStores | workflowkit/executor.go:84-114 | a start is accepted if and only if the run is pending under the caller's lease; its session works on the caller's copy, running, under the stored lease |
| WorkflowStore.MemoryStore.ClaimRunnable | workflowkit/store.go:199-244 | the earliest claimable run by creation time and ID gets a new lease, nothing else changes; both error cases, with their exact conditions |
| WorkflowStore.MemoryStore.ExtendLease | workflowkit/store.go:246-277 | only the holder of an unexpired lease extends it, and the store changes exactly as the transition system says |
| WorkflowStore.MemoryStore.ReleaseLease | workflowkit/store.go:279-308 | only the holder releases, and the store changes exactly as the transition system says |
| WorkflowStore.MemoryStore.FailExpiredRunning | workflowkit/store.go:310-338 | exactly the running runs with an expired lease are failed and reported, ordered by ID |
| WorkflowExecutor.Executor.Save | workflowkit/executor.go:332-346 | after anything others do, the save is accepted if and only if the context is alive and the stored run is running under the session's lease owner; then the run is stored but for lease expiry and creation time, otherwise the session is over |
| WorkflowExecutor.Executor.Write | workflowkit/executor.go:332-346 | the guarded store update is one save step of the transition system, accepted if and only if the session can commit |
| WorkflowExecutor.Executor.RunStepWithRetry | workflowkit/executor.go:233-297 | whatever others do, the loop terminates and extends the behaviour; it returns a result exactly of a body without error, gives up only on an error that may not be retried, backs off to pending only with a lease and a delay, each with the run stored, and otherwise stops because of a rejected write, a cancelled context or a preempted body |
| WorkflowExecutor.Executor.RunFrom | workflowkit/executor.go:180-226 | whatever others do, the step loop terminates with its session over: finished means that a terminal or waiting status is stored, which a body of the session returned or which is succeeded with every step completed; yielded that pending is stored; a step failure that failed is stored or the write was cut off; stopped that a write was rejected, the context cancelled or a body preempted |
| WorkflowExecutor.Executor.Run | workflowkit/executor.go:68-114 | a run starts if and only if it is pending and the caller holds its lease, the behaviour goes on with that start, and the reported end agrees with the stored run; otherwise nothing changes |
| WorkflowExecutor.Executor.ResumeWaiting | workflowkit/executor.go:138-156 | only a run waiting for approval is resumed, the behaviour goes on with that step, and its session runs to an end that agrees with the stored run |
| Doubling.BackoffBound | workflowkit/retry.go:22-39 | the doubling loop with its early stop yields min(cap, base * 2^(retry - 1)) over unbounded integers, with 32 * base as cap when none is set, and 0 without a delay |
| ToolExecutor.LastChangerWins | goagent/tools/executor.go:85-103 | after a parallel group, a key has the value left by the last call in order that changed it, deletions included |
| ToolExecutor.UnchangedKept | goagent/tools/executor.go:85-103 | a key no call of the group changed keeps its value |
| ToolExecutor.MergeMetadataWrites | goagent/tools/executor.go:85-103 | the merging loops, over map keys in any order, compute the call-order merge |
| ToolExecutor.ExecuteCalls | goagent/tools/executor.go:26-83 | the grouping loop fills one slot per call and returns the executions, the first error by index, or an unknown tool before anything ran |
| ToolExecutor.OneResultPerCall | goagent/tools/executor.go:26-57 | a successful batch has exactly one result per call, in call order |
| ToolExecutor.ExecuteKeepsFlag | goagent/tools/executor.go:59-103 | if no tool touches a set reserved key, no batch does, whichever calls ran together |
| ToolExecutor.ExecuteMeans | goagent/tools/executor.go:26-137 | a batch with an unknown tool runs nothing and names the first one; otherwise every call runs once on the metadata it sees, the results come in call order or the first failing call's error is returned |
| ToolExecutor.BatchViews | goagent/tools/executor.go:36-112 | calls of a parallel group see the same metadata and leave their merged writes, on every key those of the last call that changed it; any other call hands on exactly what it left |
| AgentRunner.RunState.RunPipeline | goagent/agentcore/pipeline.go:13-27 | the stages run in order up to the first that does not continue |
| AgentRunner.RunState.Think | goagent/agentcore/think_stage.go:23-72 | one model call, usage and calls recorded, rejected calls answered at once, the others left pending |
| AgentRunner.ScreenCalls | goagent/agentcore/think_stage.go:51-58 | pending and rejected calls are the accepted and rejected ones, each in call order |
| AgentRunner.RunState.Policy | goagent/agentcore/policy_stage.go:23-49 | the first unknown or denied call in order aborts, and nothing is changed |
| AgentRunner.RunState.Approve | goagent/agentcore/approval.go:41-94 | the first call that is not granted decides: pending interrupts, denied aborts |
| AgentRunner.RunState.Act | goagent/agentcore/act_stage.go:17-64 | the batch is executed once and recorded, or the run aborts with the metadata the tools left |
| AgentRunner.RunState.RecordToolResults | goagent/agentcore/run_state.go:67-80 | every result counts and each tool is listed once, at its first use |
| AgentRunner.RunState.Observe | goagent/agentcore/observe_stage.go:12-36 | one reply per result in order, results and pending calls cleared, iteration advanced; or no change |
| AgentRunner.RunState.React | goagent/agentcore/finalize_stage.go:113-149 | the loop from the current iteration ends as the model's loop: finished and saved, paused, failed, or at the limit |
| AgentRunner.RunAgent | goagent/agentcore/agent.go:219-237 | a run from a fresh record ends as the model's run |
| AgentRunner.ResumeAgent | goagent/agentcore/agent.go:239-285 | restoring, checking the decisions, registering tools, rechecking policy, executing and looping end as the model's resumption |
| AgentRunner.ValidateResolutions | goagent/agentcore/resume_stage.go:39-65 | accepted if and only if the decisions name each pending call exactly once; the result is in call order |
| AgentRunner.CoversIffDistinct | goagent/agentcore/resume_stage.go:39-65 | with as many decisions as calls, all in range, none is repeated if and only if none is missing, so the final missing-index check never fires |
| AgentPass.LoadFacts | goagent/agentcore/finalize_stage.go:79-111 | the once-only stages each do their work once, and nothing at all once all are done |
| AgentPass.PassCounts | goagent/agentcore/finalize_stage.go:113-131 | one model call per pass; the iteration advances by at most one and not in a pass that pauses |
| AgentPairing.ThinkOpens | goagent/agentcore/think_stage.go:45-72 | after the model answers a paired history, replying to exactly the pending calls completes it |
| AgentPairing.ActAndObserveCloses | goagent/agentcore/observe_stage.go:12-36 | executing the batch answers exactly the pending calls |
| AgentPairing.LoopPairs | goagent/agentcore/finalize_stage.go:113-131 | at each model call every tool-calling assistant message is followed at once by one reply per call, as a multiset of IDs; at most maxIterations - Iteration calls are made |
| AgentPairing.ResumePairs | goagent/agentcore/agent.go:239-271 | a resumed run answers its batch before it calls the model, keeps histories paired, and pauses only at a later iteration below the limit |
| AgentPairing.RunPairs | goagent/agentcore/agent.go:251-263 | over a whole run with any pauses and decisions: at most maxIterations pauses, and every resumption calls the model with paired histories |
| AgentPairing.SentPaired | goagent/agentcore/think_stage.go:95-113 | without a projection the messages sent are paired too |
| AgentResume.RestoredIsStripped | goagent/agentcore/checkpoint.go:96-117 | with a non-empty input, restoring a checkpoint gives back everything but the compiled prompt, the projection and the last response |
| AgentResume.PassStrip | goagent/agentcore/checkpoint.go:179-207 | a pass from a restored record equals the pass from the record itself |
| AgentResume.ResumedBatch | goagent/agentcore/agent.go:251-256 | resuming with every call allowed executes the batch as allowing it at once would have |
| AgentResume.LoopAgree | goagent/agentcore/approval.go:41-94 | approvers that agree on all later batches give the same run |
| AgentEquivalence.ResumeMatchesAllowed | goagent/agentcore/agent.go:239-271 | a paused, checkpointed, restored and fully approved run ends with the same messages, final answer, usage, counts and saved memory as the run allowed at once, if and only if no earlier model answer was empty or the unpaused run does not hit the iteration limit |
| AgentEquivalence.EarlierIff | goagent/agentcore/finalize_stage.go:113-131 | a lower start of the loop counter changes the end of a run if and only if the limit ended it |
| AgentEmptyAnswer.EmptyAnswerOutlivesLimit | goagent/agentcore/finalize_stage.go:114-131 | a concrete host and model for which one empty answer before the pause makes the two runs differ |
| AgentChain.ChainMatches | goagent/agentcore/agent.go:239-271 | along any number of pauses and approvals: if the earlier resumptions were fine, the run after this one is where the run that allowed all those batches at once is, if and only if this one is fine, that is, the checkpoint shows `LLMCalls == Iteration + 1` or the unpaused run does not hit the limit |
| AgentGates.PassExecutesOnlyCleared | goagent/agentcore/approval.go:41-94 | a pass executes the calls its model asked for if and only if policy allows and the approver grants every one of them; otherwise it ends with its record as the answer left it, by the first call that policy refuses or else the first that the approver does not grant |
| AgentGates.PolicyDecides | goagent/agentcore/policy_stage.go:23-49 | policy passes a batch if and only if every call names a registered tool and is allowed; otherwise the first that is not decides the error |
| AgentGates.ApprovalDecides | goagent/agentcore/approval.go:41-94 | the approver passes a batch if and only if it grants every call; otherwise the first that it does not grant pauses or ends the run |
| AgentGates.ResumeExecutesOnlyAllowed | goagent/agentcore/resume_stage.go:19-37 | a resumption executes the paused batch if and only if policy still allows every call and the host denied none; otherwise it fails by the first call that policy refuses, or else by the denied call with the smallest index, with the restored record, nothing executed and the model not called |
| AgentGates.ResumeNeedsDecisions | goagent/agentcore/agent.go:239-250 | decisions that do not name each pending call once, or a failing tool provider, end the resumption with the restored record |
| AgentGates.CheckpointChecked | goagent/agentcore/checkpoint.go:71-94 | a checkpoint is refused if and only if its version, run, start or encoding is wrong, or no named calls are waiting |
| AgentMeaning.FirstCallTells | goagent/agentcore/finalize_stage.go:79-111 | the first model call of a run is told the compiled blocks of agent, provider, skills and format, then the remembered messages without tool replies and the input, or their projection, and is offered the agent's and the run's tools |
| AgentMeaning.GuardStops | goagent/agentcore/input_guard.go:41-66 | a rejected input ends the run at once: nothing is loaded and the model is never called |
| AgentMeaning.AnswerMeans | goagent/agentcore/think_stage.go:23-93 | an answer adds its message and one correction per call of an unknown tool or with bad input; the other calls wait; its tokens and one model call are counted; nothing else changes |
| AgentMeaning.BatchMeans | goagent/agentcore/act_stage.go:17-64 | a batch either fails or adds one report per call in call order, silent results hidden and errors marked, counts every result, and advances the iteration by one |
| AgentMeaning.NoBatchMeans | goagent/agentcore/observe_stage.go:12-36 | without a waiting batch nothing is executed; the iteration advances if and only if the answer's calls were all to be corrected |
| AgentMeaning.UsedToolsAre | goagent/agentcore/run_state.go:67-80 | the used tools are those used before and those of the batch, each once |
| AgentMeaning.SavedLoadsBack | goagent/agentcore/memory_stage.go:39-60 | what a run saves, all messages that neither call tools nor answer a call, the next run loads whole |
| AgentMeaning.LastRegisteredWins | goagent/agentcore/tool_registry.go:23-32 | of the tools registered under one name the last one counts |
| AgentOutcomes.RunEndsWell | goagent/agentcore/finalize_stage.go:113-149 | every run makes at most its limit of passes, and all of them if the limit ends it; it finishes only with a validated text answer without tool calls, the run's totals and its plain messages saved; it pauses only at a call the approver left open; either within the budget |
| AgentOutcomes.FinalAnswerEnds | goagent/agentcore/finalize_stage.go:23-50 | a pass ends the run by its answer if and only if the answer is text without tool calls |
| AgentOutcomes.PassInBudget | goagent/agentcore/budget.go:41-55 | a pass goes on, pauses or finishes only if the tokens used so far are within every limit that is set |
| AgentOutcomes.UnansweredAborts | goagent/agentcore/budget_stage.go:16-28 | a pass without an answer within the budget aborts: with the error of its preparation or model, or because the answer exceeded the budget |
| StreamRelay.DeliversPrefix | goagent/agentcore/stream.go:110-159 | in every run what is delivered is a prefix of what was sent, in order |
| StreamRelay.DeliversAll | goagent/agentcore/stream.go:110-159 | an ended relay closed the public channel exactly once and, unless it took a discard, delivered everything |
| StreamRelay.DeliversAllUnlessDiscarded | goagent/agentcore/stream.go:82-93 | if the consumer never discards, an ended relay delivered everything |
| StreamRelay.NothingAfterDiscard | goagent/agentcore/stream.go:142-149 | once the discard is taken nothing more is delivered and the channel is not closed again |
| StreamRelay.AlwaysReceives | goagent/agentcore/stream.go:107-135 | while the sender is open the relay can take from the buffer, so a full buffer always becomes free |
| StreamRelay.RelayEnds | goagent/agentcore/stream.go:124-158 | once the sender has closed, every relay step decreases a measure |
| StreamRelay.RelayMoves | goagent/agentcore/stream.go:124-158 | a relay with something to receive, or whose sender has closed, has a step to take |
| StreamRelay.Relay.Turn | goagent/agentcore/stream.go:124-158 | one turn of the select loop is one step of the process; it idles only if nothing can be received |
| StreamRelay.Relay.Run | goagent/agentcore/stream.go:110-159 | under any schedule of sender and consumer the loop delivers a prefix, and everything if it ends undiscarded |
| MemoryInvariants.StoreInvariants | memorykit/memorystore/store.go:66-134 | after any commands at most one memory per scope, kind and key is active, and revisions are numbered 1..Version ending in the current record |
| MemoryInvariants.SupersedeClears | memorykit/memorystore/store.go:555-566 | after supersession only the target itself can be active under its conflict key |
| MemoryErasure.ExecEvolves | memorykit/memorystore/store.go:369-480 | over any commands a record keeps its identity, its version only grows, and inactive is final |
| MemoryErasure.OneSuccessPerVersion | memorykit/memorystore/store.go:543-552 | at most one command per ID and ExpectedVersion ever succeeds |
| MemoryErasure.ErasedForever | memorykit/memorystore/store.go:436-480 | after Erase at version v, forever: no revision up to v has content, no embedding, never active, no Create with its ID or non-empty idempotency key succeeds, even after a correction |
| MemoryErasure.ReplayReturnsCurrent | memorykit/memorystore/store.go:88-102 | replaying a create later returns the current record and changes nothing, until it is erased |
| MemoryEffects.CorrectStores | memorykit/memorystore/store.go:398-426 | a correction succeeds if and only if it is valid and addresses the current version; the record then has exactly the request's content, validity and scores under the next version and its other fields, the sources are the request's, one revision is added, and nothing else changes |
| MemoryEffects.CreateStores | memorykit/memorystore/store.go:66-134 | a valid and new request stores a record that says what it said, with its sources and first revision, while active rivals retire; a repeated request returns the current record; anything else is refused and changes nothing |
| MemoryEffects.ActivateStores | memorykit/memorystore/store.go:369-396 | activation succeeds if and only if it addresses a candidate at its version; that becomes active, its rivals inactive with their content kept, and no other memory changes |
| MemoryEffects.DeactivateStores | memorykit/memorystore/store.go:511-541 | dismissing or forgetting succeeds if and only if it addresses a memory in the right status at its version, which becomes inactive, and nothing else changes |
| MemoryEffects.EraseStores | memorykit/memorystore/store.go:436-480 | erasure empties record, sources, embeddings, snapshots and creation record of exactly the addressed memory |
| MemoryEffects.EmbeddingStored | memorykit/memorystore/store.go:344-367 | an embedding is stored if and only if it is valid and made for the current content of an active memory of its scope |
| MemoryEffects.CorrectionStays | memorykit/memorystore/store.go:398-426 | a corrected memory says what the correction said, through any commands, until it is corrected or erased again |
| MemoryEffects.CreationStays | memorykit/memorystore/store.go:66-134 | a created memory says what its creation said, through any commands, until it is corrected or erased |
| MemoryEffects.LimitsKept | memorykit/memorystore/store.go:66-134 | every stored record keeps the limits on key, content, scores, validity, metadata and sources through any commands |
| MemoryStore.Store.Create | memorykit/memorystore/store.go:66-134 | the maps change as the create command says: replay, conflict, supersession and revision included |
| MemoryStore.Store.Activate | memorykit/memorystore/store.go:369-396 | only a candidate at the expected version is activated, superseding the active rival |
| MemoryStore.Store.Correct | memorykit/memorystore/store.go:398-426 | content, validity, scores and sources are replaced under a new version, status kept |
| MemoryStore.Store.TransitionInactive | memorykit/memorystore/store.go:511-541 | only a memory in the required status becomes inactive, under a new version |
| MemoryStore.Store.Erase | memorykit/memorystore/store.go:436-480 | content, sources, embeddings, fingerprints and all snapshots are emptied and the erasure recorded |
| MemoryStore.Store.PutEmbedding | memorykit/memorystore/store.go:344-367 | stored only for an active memory of the scope whose content hash matches |
| MemoryStore.Store.Revisions | memorykit/memorystore/store.go:482-509 | the newest revisions below the bound, newest first, or one of the two errors exactly in its case |
| MemoryShape.ShapedExec | memorykit/memorystore/store.go:66-134 | after any commands every stored record has the shape recall demands; only inactive ones may lack content |
| SearchTerms.SplitSearchTerms | memorykit/search_terms.go:26-68 | the scan returns the first distinct words and grams of the text in order of appearance |
| SearchTerms.LimitedIsPrefix | memorykit/search_terms.go:26-68 | a limited term list is a duplicate-free prefix of the unlimited one |
| SearchTerms.GramsExact | memorykit/search_terms.go:26-68 | the grams are exactly the adjacent CJK pairs and the isolated CJK characters |
| SearchTerms.WordsExact | memorykit/search_terms.go:26-68 | the words are exactly the maximal runs of letters and digits, lower-cased |
| SearchTerms.IndexGrams | memorykit/search_terms.go:74-100 | the index holds exactly the CJK characters and adjacent pairs of the text, sorted, each once |
| SearchTerms.IndexIsExact | memorykit/search_terms.go:74-100 | a query gram is a substring of a text if and only if it is in the text's index |
| SearchTerms.PrefilterLosesNothing | memorykit/pgstore/query.go:103-111 | the indexed prefilter keeps every text the scan would match by a gram |
| SearchTerms.CountSearchTermHits | memorykit/search_terms.go:104-123 | the loops count the query words among the memory's words and the query grams among its substrings |
| SearchTerms.OwnContentMatchesAll | memorykit/search_terms.go:104-123 | a memory whose content is the query text matches every query term, whatever its key |
| RecallSearch.OwnContentSurvivesCutoff | memorykit/memorystore/store.go:249-290 | an eligible memory whose content is the query text gets the best full-text score of all, and the more-than-half-of-best cutoff keeps it |
| RecallSearch.SearchCandidates | memorykit/memorystore/store.go:208-301 | for any walk over the map, the three channels hold the rated, cut off, sorted and limited candidates |
| RecallSearch.SearchIsDeterministic | memorykit/memorystore/store.go:239-301 | the result does not depend on the order in which the map is walked |
| RecallMeaning.ExactMeans | memorykit/memorystore/store.go:239-301 | the exact channel lists the active, effective memories of the scope and kinds whose key is named, more important and later updated first, and leaves one out only when it is full of better ones |
| RecallMeaning.FullTextMeans | memorykit/memorystore/store.go:249-290 | the full-text channel lists those that contain more than half as many of the query's distinct terms as any other does, by how many they contain, and leaves one out only when it is full of better ones |
| RecallMeaning.VectorMeans | memorykit/memorystore/store.go:249-301 | the vector channel lists those whose embedding was made for their current content, has the query's profile and dimensions and is similar enough, by similarity, and leaves one out only when it is full of better ones |
| RecallValidate.ValidateCandidateSet | memorykit/recall.go:286-378 | accepted if and only if each channel is enabled, within its limit, well-formed and duplicate-free and all channels agree on each record; outdated candidates are dropped |
| RecallValidate.StoreResultAccepted | memorykit/recall.go:286-378 | whatever the reference store returns is accepted with nothing dropped |
| Recall.Fuse | memorykit/recall.go:380-434 | each memory once, with the sum of its channel weights, sorted by score, importance, update time and ID |
| Recall.Choose | memorykit/recall.go:212-233 | the budget loop takes, in order, whatever still fits |
| Recall.PackFits | memorykit/recall.go:212-233 | the choice keeps the order and both budgets, and with a slot to spare nothing left out could be added |
| Recall.PackIsGreedy | memorykit/recall.go:212-233 | whether a memory is taken depends only on those taken before it: it is taken if and only if a slot and enough tokens are left |
| Recall.RecallItems | memorykit/recall.go:114-239 | the items are the packing within MaxItems and MaxTokens of the fusion of what the store finds: active, effective, same-scope records, each once, in fused order; a store result is never rejected |
| Recall.QueryMeans | memorykit/recall.go:114-180 | the query asks what the request asked under the policy's limits; the vector channel is on only with one usable vector, a recoverable embedding failure only degrades, any other is an error |
| RecallOrder.RecalledByRank | memorykit/recall.go:380-434 | a recalled memory comes before another if every channel that found the other found it too, no worse, and some channel found it better |
| RecallOrder.LeaderRecalledFirst | memorykit/recall.go:380-434 | a memory that is first in every channel that found anything is recalled first if it fits the token budget |
| RecallOrder.FusedInOrder | memorykit/recall.go:416-434 | in the fused list higher scores come first, then more important memories, later updates, smaller IDs |
| RecallOrder.WeightMeans | memorykit/recall.go:402-402 | a rank's weight times the constant plus the rank is one |
| Extraction.JobExec | memorykit/pgstore/extraction.go:41-161 | attempts never fall or pass the limit, and completed and failed are final |
| Extraction.OneCommitPerAttempt | memorykit/pgstore/extraction.go:104-161 | in every interleaving of workers at most one complete or fail commits per attempt |
| Extraction.CandidateIDInjective | memorykit/extraction.go:249-260 | within a job two valid drafts share a candidate ID if and only if kind, key and content agree, unless UUIDv5 collides on their two identity texts |
| Extraction.RetriesOnlyAdd | memorykit/extraction.go:186-232 | over any number of attempts existing memories are unchanged, everything added is a candidate with the kind, key and content of a written draft, and there is at most one per kind, key and content |
| ExtractionRetries.RepeatChangesNothing | memorykit/extraction.go:186-260 | in any run of the store, with other jobs writing and hosts activating, correcting or erasing in between, a later write of the same job, kind, key and content as an accepted one changes nothing |
| ExtractionRetries.OneMemoryPerDraft | memorykit/extraction.go:186-260 | in any run of the store at most one write of a job's kind, key and content brings a memory, under that candidate ID |
| ExtractionRetries.CandidateSays | memorykit/extraction.go:205-216 | the candidate that a write adds says what the draft says, in the scope and with the source of its job, created by its extractor, and waits for review |
| ExtractionJobs.JobStatusMeans | memorykit/pgstore/extraction.go:41-161 | over every interleaving: a job is completed only by a completion of its last attempt; it has failed only with its attempts used up, by a failure of the last or by losing its lease; it says what to extract until it ends and nothing of it afterwards |
| ExtractionJobs.ClaimStores | memorykit/pgstore/extraction.go:41-102 | a claim fails exactly the jobs whose last lease is over and leases the picked job for one more attempt if and only if it is free; no other row changes |
| ExtractionJobs.CompleteStores | memorykit/pgstore/extraction.go:104-125 | completion is accepted exactly from the holder of the attempt; the job is then completed and emptied |
| ExtractionJobs.FailStores | memorykit/pgstore/extraction.go:127-161 | failure is accepted exactly from the holder of the attempt; the job waits again with its source, or has failed and is emptied after its last attempt |
| ExtractionWorker.JobTable.ClaimExtraction | memorykit/pgstore/extraction.go:41-102 | exhausted leases end first, then at most one claimable row is leased for its next attempt |
| ExtractionWorker.JobTable.CompleteExtraction | memorykit/pgstore/extraction.go:104-125 | commits if and only if the caller holds this very attempt under an unexpired lease |
| ExtractionWorker.JobTable.FailExtraction | memorykit/pgstore/extraction.go:127-161 | the same guard; back to pending, or failed on the last attempt |
| ExtractionWorker.WriteDrafts | memorykit/extraction.go:186-232 | the loop over drafts makes only creates of its own valid drafts, each candidate ID once, and when it succeeds one for every draft |
| ContextWindow.Split | contextkit/window/window.go:259-271 | system messages, summaries and conversation, each in order |
| ContextWindow.TurnBoundaries | contextkit/window/window.go:224-243 | exactly the positions at which a window may start |
| ContextWindow.WindowStart | contextkit/window/window.go:197-222 | the earliest boundary, no later than the mandatory one, whose suffix fits, else the mandatory one; the running cost is the direct cost of the suffix |
| ContextWindow.WindowStartUnique | contextkit/window/window.go:197-222 | that start is unique |
| ContextWindow.ChooseWindow | contextkit/window/window.go:83-98 | OverBudget holds exactly when the mandatory window does not fit |
| ContextCompress.Compress | contextkit/window/window.go:66-111 | the outcome is the compression at the window that ChooseWindow picks, it conserves messages from its own input, and unless it reports that it is over budget its system messages and conversation fit the effective character and token limits |
| ContextCompress.ProjectionConserves | contextkit/window/window.go:245-255 | shortening tool messages changes neither the conversation length nor the carried total |
| ContextCompress.SummaryFacts | contextkit/window/window.go:115-162 | the summary is recognised as one, carries the running total, and in the deep profile names its collapse |
| ContextCompress.CompressConserves | contextkit/window/window.go:83-128 | conversation length plus carried dropped total is the same before and after every compression |
| ContextCompress.CompressConservesImages | contextkit/window/window.go:115-157 | every compression preserves the number of images in view plus those its summaries stand for |
| ContextCompress.CountSurvivesJSON | contextkit/window/window.go:280-289 | a count that comes back from JSON as a float reads as the same count |
| ContextCompress.ProjectionKeeps | contextkit/window/window.go:245-255 | projection changes only tool messages, and of those only the text and two notes about it |
| ContextRestore.Restorer.Restore | contextkit/compressor.go:75-89 | the recursion terminates on every input, cyclic records included, and restores the shared set |
| ContextRestore.RestoreProjection | contextkit/compressor.go:65-73 | the restored history is the recursive expansion of all recorded collapses |
| ContextRestore.ChainRestored | contextkit/compressor.go:75-89 | the newest summary of a chain expands to everything the chain removed |
| ContextRestore.CompressionsRestore | contextkit/window/window.go:324-345 | for any chain of incremental deep compressions, budgets and summaries, with distinct collapse IDs, restoring gives back exactly the full history |
| ContextDistinct.CollapseIDsDistinct | contextkit/window/window.go:324-351 | the collapse IDs of such a chain are distinct, if no two recorded ID lists collide under the digest and no message ID has the form used for summaries |
| ContextDistinct.CompressionsRestoreAll | contextkit/compressor.go:65-89 | so under those two conditions every chain restores the full history |
| Health.MemoryHealthStore.Acquire | llmkit/health.go:126-178 | admits exactly when nothing blocks, changing one entry; otherwise changes nothing and names the block |
| Health.MemoryHealthStore.Release | llmkit/health.go:180-195 | gives back one call of the entry |
| Health.MemoryHealthStore.RecordOutcome | llmkit/health.go:197-236 | the entry changes as the outcome says; caller failures only give back the call |
| Health.MemoryHealthStore.CooldownFor | llmkit/health.go:288-294 | the loop yields min(MaxCooldown, Cooldown * 2^(streak - threshold)) |
| HealthRuns.LimitsHold | llmkit/health.go:126-236 | in every run that closes each admitted call once, whichever accounts share keys: an entry's count equals its open calls, a fixed provider limit holds, and an unavailable entry has at most one open call admitted since it opened |
| HealthRuns.AccountLimitsHold | llmkit/health.go:126-236 | in every such run in which a key determines its account, account totals equal the open calls and fixed account limits hold |
| HealthRuns.OpensAfterBurst | llmkit/health.go:197-236 | a closed circuit opens only by a counted failure that is the last of exactly a threshold of failures with no success between them and every gap shorter than the cooldown, and for exactly one cooldown |
| HealthRuns.CooldownsDouble | llmkit/health.go:197-294 | in every reachable state an unavailable entry cools down for min(MaxCooldown, Cooldown * 2^n) after its last failure, where n = streak - threshold is the number of counted outcomes since it opened, all failures |
| HealthAdmits.FailureOpensIff | llmkit/health.go:197-236 | with clocks that do not run backwards, a counted failure leaves the circuit open if and only if it was open or the failure completes a burst of a threshold of failures with every gap below the cooldown |
| HealthAdmits.AdmittedIff | llmkit/health.go:126-178 | in every reachable state a call is admitted if and only if its circuit is not open, or has cooled down with no call under way, and its provider and account have room |
| HealthAdmits.NoCooldownUnlessOpen | llmkit/health.go:197-236 | in every reachable state an entry has a cooldown if and only if its circuit is open |
| HealthAdmits.SuccessCloses | llmkit/health.go:197-236 | after a success, whatever failures came before, the next call is admitted at any time unless its provider or account is full |
| HealthKeys.TotalsRightIff | llmkit/health.go:94-178 | over a set of candidates, account totals equal the open calls in every run if and only if candidates that share a key belong to one account |
| HealthKeys.AccountLimitHolds | llmkit/health.go:126-236 | under that condition an account's enforced limit holds in every run |
| HealthKeys.PlainAliasesTell | llmkit/health.go:94-96 | aliases without the separator satisfy the condition |
| HealthKeys.PipeEvadesAccountLimit | llmkit/health.go:94-96 | a concrete run in which a separator in an alias lets an account exceed its limit |
| Routing.ApplyProviderHealth | llmkit/health.go:98-124 | every candidate shows its entry's state and its account's total from the snapshot |
| Routing.FilteredIsAdmitted | llmkit/policy.go:175-206 | for arbitrary store contents, what passes the filter on a snapshot of the same time is admitted by Acquire |
| Routing.FilterMeans | llmkit/policy.go:175-206 | the filter lets through exactly the candidates whose model can do what the profile asks, whose account, provider and model have room, whose circuit lets a call through, and that cost no more than allowed |
| Routing.Choose | llmkit/policy.go:137-165 | the pool is exactly the ranked candidates within the tolerance of the best, and the choice is the less loaded of two different drawn positions of it, the first drawn on a tie |
| Routing.Select | llmkit/policy.go:78-134 | an available candidate within the tolerance of the best, the best by score and then key without load spread, or an error exactly if none is available |
| Routing.Route | llmkit/policy.go:78-134 | snapshot, enrich, select and acquire with nothing in between: a candidate is selected unless none is available, within the tolerance, and it is admitted |

## Left out

- `artifactkit`, `evalkit`, `mcpkit`, `ocrs`, `skillkit`, `runkit`, `hostkit`: plumbing or small linear state machines that would add only easy members.
- SQL stores other than the extraction-job updates and the gram prefilter; PostgreSQL word matching is not claimed to equal the in-memory one.
- HTTP handlers, OIDC, encryption, audit files, configuration and the host API.
- The first, unguarded save of an unknown workflow run and the host's requeue: both act outside the guarded protocol.
- Contexts and deadlines: cancellation stops a workflow session at any of its writes and waits, and does not appear in stores, tools or recall.
- Events, their payloads, streamed model deltas and durations of the agent loop.
- JSON: a checkpoint is restored from the value that was stored, an arbitrary predicate says which checkpoints encode, and canonical recall payloads are an arbitrary cost function. Nil and empty maps are told apart only where the code writes to them.
- Custom budget guards that read more than token usage, and text details of prompts, rejections and skills.
- AgentEquivalence.ResumeMatchesAllowed: assumes that tools leave the reserved `agentcore.` metadata keys alone, that the request does not carry the reserved tool-provider key, and that the provider gives the same tools for the request with its run ID filled in.
- Recall.RecallItems: is about the reference store; degraded answers of other stores and the embedder's own errors beyond their recoverability are not modelled.
- StreamRelay.Relay.Run: covers any finite number of turns; that a turn comes whenever one is possible is Go's scheduler's promise.
- ContextRestore.CompressionsRestore: covers histories without tool-role messages, which every compression shortens again.
- Floating point, 64-bit overflow and clock resolution: reals, unbounded integers and integer times. SHA-256 and UUIDv5 are arbitrary functions, but create fingerprints are compared as the values they digest; similarity is any function into [-1, 1].
- Reliability, price and latency scoring and decay weights of routing: candidate scores are given.
- MemoryHealthStore.Set, by which a host overwrites an entry: whole runs start idle and consist of admissions, releases and outcomes, while Routing.FilteredIsAdmitted holds for arbitrary entries. The classes of errors are reduced to whether they count.
- The store's List, Get, Sources and PendingEmbeddings queries, and trusted projections.
