# Durable runs, documents and evidence: a verified model

This project models the parts of crewos on which its guarantees rest and proves
those guarantees for every input, every interleaving and every reachable state.

* **Agent runs.** One row per run with its attempts, a lease, a random token, a
  write-once deadline and a gate against repeating unsafe tool calls. `RunRecords`
  gives each store transaction as a function on the row and proves what every life
  of a row keeps; `RunVerdicts` says, by guards a requester could read beforehand,
  what each of them decides and how long an attempt keeps the run. `RunStore` is the store itself: a class that updates its tables in
  place, each method proved against the function it performs.
* **The loop on top.** `AgentMachine` is the system of one run: any number of
  attempts, each stepping through the loop, crashing (taking no further step),
  going on as a zombie after its lease lapsed, or starting again, while requests to
  cancel, resume and read come in between. `AgentInvariant` and `AgentSteps` prove
  its invariant; `AgentTheorems`, `AgentBudget` and `AgentLives` draw the
  consequences, and `AgentHistory` says what every later system still remembers.
  `ExecutionControl`, `AgentLoop` and `AgentRunner` are the program: classes whose
  methods call the store through `Deployment`. That class keeps the whole history of
  events in a ghost field; each call is proved to add one possible event to it, and
  every method, the one that stands for interference included, promises that the
  history has only been continued (`Onward`). So what holds over all runs of the
  machine holds of the program, across any number of deliveries. The model as it
  was really invoked and the tools as they really ran are ghost records too: the
  tool record equals the machine's log, and every invocation is of a call in that
  log, by the attempt it was granted to, at most once. Each attempt also keeps a
  trail of its accepted checkpoints, invocations and tool runs in order. An
  attempt can only raise what was thrown at it from outside (`thrown`) or what the
  machine prescribes, so a method cannot fail without a cause.
  `AgentExamples` runs through one history event by event.
* **Documents.** `DocumentTables` gives the version and job tables and every
  transaction on them, `DocumentSystem` any interleaving of submissions, claims,
  commits, failures, retries, deletes and direct writes, `DocumentTheorems` what
  holds over all of them. `DocumentVerdicts` says what each job transaction decides
  and which events can touch a job at all; `DocumentIsolation` proves that tenants
  neither see nor disturb each other. `DocumentStore` is the store as a class;
  `DocumentCorpus` specifies its corpus reader. `DocumentWorker` is the coordinator
  and the job worker, run against `DocumentDeployment`, again event by event.
* **Algorithms.** `Chunking` (closed-form windows against the span validator),
  `ReviewGate` (the coverage scan and the receipt), `Ranking` and `Retrievers` (both
  retrieval strategies), and `CorpusSearch` (retrieval over what the store hands out).

In `Deployment` and `DocumentDeployment` the method that stands for "others may
act now" does nothing in its body; its contract permits every behaviour of the
others, and callers are verified against the contract alone. In `DocumentWorker`
the ghost flag `quiet` says that nobody else acts: the general contract holds
without it, the exact outcome is stated under it.

## Assumptions

* Each store transaction is atomic and transactions are serialized.
* Random identifiers and tokens were never seen before. Digests are injective, so
  a fingerprint or request digest is the value it was computed from.
* The clock does not run backwards between transactions. Inside one transaction
  every reading is separate, and the reading a run's claim makes before its
  transaction begins may be stale by the time it is used.
* Model calls, document reviews and tool runs return anything, or fail.
* The registered tools and their replay safety are the same for every attempt of a
  run. A tool declared replay safe when its call was checkpointed and unsafe later
  would be replayed by the code, and at-most-once would not hold of it.
* Decoding of document text, the blank-text test, the word tokenizer, the
  alphanumeric test and the inverse document frequency are parameters; the last is
  assumed positive. Ranking arithmetic and time are over the reals.

## Where the code says something unexpected

* `get` reads the clock several times, so a run whose cancellation was requested
  can be recorded as exhausted. `CancelledRunCanReadExhausted` runs into it and
  `CancelledRunReadExactly` says exactly when.
* `failed` is not a terminal state: a failed run can be resumed or cancelled, so
  absorption is stated for the four terminal states only.
* `finish` does not look at the deadline. `SuccessAfterDeadline` is a run that
  succeeded a second late; `SuccessAfterDeadlineExactly` says when that is stored.
* `cancel` and `resume` on a lapsed run leave its attempt row open, and `cancel`
  leaves the token in the row: `CancelLeavesToken` and `ResumeLeavesAttemptOpen`
  show it. `CancelLeavesTokenExactly` says exactly when the token stays;
  `OrphanedExactly` says exactly when an attempt is left open: when the row was
  running and its lease had lapsed, and, for a resume, attempts are left, no
  cancellation was requested, no unsafe call is pending and the deadline is ahead.
  The invariant has the implications that do hold.
* An exception handler looks at the attempt's own copy of the checkpoint, which is
  updated before the store is asked. If the storage refuses the checkpoint of an
  unsafe tool's result, the run is recorded as failed while the stored checkpoint
  still holds the call: nobody is asked to review it, and it can be neither resumed
  nor claimed. `FailedHidesCall` is such a run; `FailedHidesCallExactly` says when.
* `fail_job` does not look at the lease, so a claimant whose lease lapsed but who
  was not replaced can still fail its job. `LapsedClaimStillFails` reaches such a
  job; `FailureChangesNothingExactly` says that being replaced is the exact condition.

## Model

| member | source | states |
|---|---|---|
| `Chunking.WindowCountIsLeast` | crewos/chunking/strategies/character_window.py:13-16 | n windows reach the end of the text if and only if n is at least the closed-form count |
| `Chunking.WindowsSize` | crewos/chunking/strategies/character_window.py:17-20 | the windows hold exactly length + (count - 1) * overlap characters |
| `Chunking.SplitRefinesValidator` | crewos/chunking/strategies/character_window.py:10-29 | splitting is refused exactly when the real output breaks a limit, and its windows always pass the span validator |
| `Chunking.ChunkingService.Chunk` | crewos/chunking/service.py:21-46 | for any strategy: success exactly on covering spans within the limits, and each of the four errors exactly in its case, the first that applies |
| `Chunking.ChunkWithWindows` | crewos/chunking/service.py:21-46 | with the shipped strategy the only error is the limit error, raised exactly when the output exceeds a limit, and the chunks rebuild the text |
| `Chunking.Reconstruction` | crewos/chunking/service.py:33-46 | any accepted chunk list, from any strategy, rebuilds its text once each overlap is dropped |
| `Chunking.CoverDeterminesText` | crewos/chunking/service.py:33-46 | a chunk list is accepted for at most one text |
| `Chunking.ValidateSavedChunks` | crewos/ingestion/contracts.py:101-119 | the stored-snapshot check accepts exactly the covering chunk lists |
| `ReviewGate.MarkOccurrences` | crewos/application/services/document_review_validation.py:45-52 | the scan from start + 1 ends and marks exactly the positions inside some, possibly overlapping, occurrence |
| `ReviewGate.CheckClaim` | crewos/application/services/document_review_validation.py:44-62 | a claim passes exactly when it is an answer span with supported, exact, cited quotes |
| `ReviewGate.ValidateDocumentReview` | crewos/application/services/document_review_validation.py:31-74 | a review is accepted if and only if envelope, claims, excerpts and coverage all hold, or an abstention is appropriate |
| `ReviewGate.LookupUnique` | crewos/application/services/document_review_validation.py:42 | passages with distinct identities are each found under their own identity, so their order does not matter |
| `ReviewGate.ReviewReceipt` | crewos/application/services/document_review_validation.py:77-83 | a receipt exists exactly for accepted reviews and certifies the request |
| `ReviewGate.ValidateReviewReceipt` | crewos/application/services/document_review_validation.py:86-93 | a receipt is accepted exactly when policy version, request and review all fit |
| `ReviewGate.AcceptedAnswerIsGrounded` | crewos/application/services/document_review_validation.py:44-67 | every alphanumeric character of an accepted answer lies in a claim with an exact quote from a cited, supplied passage |
| `Ranking.OrderIsUnique` | crewos/retrieval/strategies/bm25.py:78 | candidates with distinct identities have one order under (score descending, id, version, index) |
| `Ranking.TopKIsBest` | crewos/retrieval/strategies/bm25.py:78-79 | the selection is ordered, has min(k, n) entries, and whatever is left out ranks behind everything in it |
| `Ranking.TopKByScore` | crewos/retrieval/strategies/bm25.py:78-79 | the selection has the highest scores first, equal scores by document, version and chunk, and nothing left out scores more than anything selected |
| `Ranking.TopKUnique` | crewos/retrieval/strategies/bm25.py:78-79 | any selection with these properties is the one computed |
| `Ranking.TopKCanonical` | crewos/retrieval/strategies/bm25.py:67-79 | the selection is unchanged by any permutation of the documents read |
| `Retrievers.CorpusHasNoDuplicateSource` | crewos/retrieval/strategies/bm25.py:82-94 | on a corpus as the store hands it over, no two returned passages share an identity |
| `Retrievers.AnswersAreBest` | crewos/retrieval/strategies/keyword_overlap.py:44-70 | the passages returned are matches, best scores first, and no better match of the corpus is left out |
| `Retrievers.RefusedForSizeOnly` | crewos/retrieval/strategies/keyword_overlap.py:52-70 | over a reader's corpus the only refusal is an answer with more text than asked for |
| `Retrievers.KeywordSearch` | crewos/retrieval/strategies/keyword_overlap.py:35-70 | the search returns the k passages that share the most terms with the query, most first, or the first refusal that applies |
| `Retrievers.AnswersCanonical` | crewos/retrieval/strategies/keyword_overlap.py:44-70 | two runs of a search over the same documents in different orders return the same result |
| `Retrievers.Bm25Search` | crewos/retrieval/strategies/bm25.py:45-94 | the search returns the k passages with the highest BM25 scores, highest first, or the first refusal that applies |
| `Retrievers.ScoreOne` | crewos/retrieval/strategies/bm25.py:68-75 | the loop over the terms adds up exactly their shares |
| `Retrievers.Bm25Canonical` | crewos/retrieval/strategies/bm25.py:55-79 | for any order of the documents read, corpus statistics, every passage's score and the result are the same |
| `Retrievers.TermOrderIrrelevant` | crewos/retrieval/strategies/bm25.py:46-75 | any order of the same terms gives the same score |
| `Retrievers.SameCandidates` | crewos/retrieval/strategies/bm25.py:67-77 | before the cut to k, BM25 considers exactly the passages keyword overlap considers |
| `Retrievers.ShareSaturates` | crewos/retrieval/strategies/bm25.py:70-75 | a term's share is positive, rises strictly with its count at fixed length and stays below idf * (k1 + 1) |
| `Retrievers.RarerCountsMore` | crewos/retrieval/strategies/bm25.py:71-76 | of two terms a passage mentions equally often the one with the larger inverse frequency adds more |
| `Retrievers.StatisticsCount` | crewos/retrieval/strategies/bm25.py:45-66 | the first pass counts passages, words, and for each term the passages that mention it |
| `Retrievers.NormalizationShape` | crewos/retrieval/strategies/bm25.py:63-70 | length normalization is k1 at the average length, k1 everywhere without b, proportional to length with b = 1, and grows with length whenever b is positive |
| `CorpusSearch.ReaderGivesCorpus` | crewos/ingestion/adapters/sqlite_document_store.py:190-219 | what the store's reader hands out is a corpus of the tenant's own documents, each once, its chunks numbered in order |
| `CorpusSearch.SearchIsCurrent` | crewos/retrieval/strategies/bm25.py:50-94 | over the store's corpus a search of either kind fails only on its output limit, and every passage is a chunk of the tenant's latest stored version |
| `CorpusSearch.SearchByKeyword` | crewos/retrieval/strategies/keyword_overlap.py:35-70 | reader and keyword ranking together: a refused read is the answer, and over a corpus that was read it is the best k by keyword overlap, distinct passages of current text, or the output limit |
| `RunStore.SQLiteRunStore.Create` | crewos/infrastructure/run_store.py:99-132 | a repeated key returns the existing run for the same message, budget and mode, and a conflict otherwise; without one exactly one fresh queued row appears |
| `RunStore.SQLiteRunStore.Get` | crewos/infrastructure/run_store.py:134-187 | reading settles a lapsed run as the row function says and changes nothing else |
| `RunStore.SQLiteRunStore.MarkPublished` | crewos/infrastructure/run_store.py:189-194 | only the publication mark of one visible row changes |
| `RunStore.SQLiteRunStore.Claim` | crewos/infrastructure/run_store.py:196-237 | the stored result, a new attempt under a fresh token, or a refusal that changes nothing, each in its case |
| `RunStore.SQLiteRunStore.OwnedAttempt` | crewos/infrastructure/run_store.py:239-247 | passes exactly for the token of a running row whose lease is active |
| `RunStore.SQLiteRunStore.Guard` | crewos/infrastructure/run_store.py:249-258 | renews the owner's lease and returns the time left, or refuses and changes nothing |
| `RunStore.SQLiteRunStore.Checkpoint` | crewos/infrastructure/run_store.py:260-273 | the owner's checkpoint and lease are written together, or nothing is |
| `RunStore.SQLiteRunStore.Finish` | crewos/infrastructure/run_store.py:275-295 | the owner's outcome is written, as cancelled without result when a cancellation was requested |
| `RunStore.SQLiteRunStore.Cancel` | crewos/infrastructure/run_store.py:297-310 | requests cancellation, and cancels at once when no lease is active |
| `RunStore.SQLiteRunStore.Resume` | crewos/infrastructure/run_store.py:312-330 | requeues exactly the runs every condition allows |
| `RunRecords.LifeInv` | crewos/infrastructure/run_store.py:99-330 | every reachable row: running implies token, lease, deadline and an open last attempt; attempts within the limit, numbered 1..attempts; a token names the last one, on a running or cancelled row only |
| `RunRecords.LifeMovesForward` | crewos/infrastructure/run_store.py:196-330 | attempts are only added, the deadline is written once, a cancellation request stays |
| `RunRecords.TerminalForever` | crewos/infrastructure/run_store.py:196-330 | a terminal row keeps everything but its publication mark through every later operation |
| `RunRecords.CancelEstablishes` | crewos/infrastructure/run_store.py:297-310 | cancelling any run that is not terminal binds it |
| `RunRecords.CancelForever` | crewos/infrastructure/run_store.py:202-316 | a run bound by a cancellation is never attempted again, keeps its checkpoint and deadline and never succeeds |
| `RunRecords.RefusalMeansNotOwner` | crewos/infrastructure/run_store.py:239-280 | guard, checkpoint and finish refuse for a lost lease exactly when the token does not own it |
| `RunRecords.RefusedForever` | crewos/infrastructure/run_store.py:239-247 | a token refused once for a lost lease is refused forever |
| `RunRecords.OwnerIsLast` | crewos/infrastructure/run_store.py:217-247 | only the last attempt of a run can own its lease |
| `RunRecords.OwnershipIntervals` | crewos/infrastructure/run_store.py:196-258 | ownership intervals are disjoint and ordered by attempt number |
| `RunRecords.StrandedForever` | crewos/infrastructure/run_store.py:212-214 | an unsafe pending call nobody owns stays in the checkpoint, and neither claim nor resume ever succeeds again, except for reading back a success |
| `RunRecords.CancelledRunCanReadExhausted` | crewos/infrastructure/run_store.py:134-178 | a life of three operations in which a run with a requested cancellation is recorded as exhausted |
| `RunRecords.CancelledRunReadExactly` | crewos/infrastructure/run_store.py:134-178 | it happens if and only if the lease lapses between the first and the third reading with the deadline past at the fourth |
| `RunRecords.SuccessAfterDeadline` | crewos/infrastructure/run_store.py:275-295 | a life in which a run succeeds after its deadline |
| `RunRecords.SuccessAfterDeadlineExactly` | crewos/infrastructure/run_store.py:275-295 | a success past the deadline is stored if and only if the lease still holds and no cancellation was requested |
| `RunRecords.CancelLeavesToken` | crewos/infrastructure/run_store.py:297-310 | a life that ends cancelled with a token in the row and an open attempt |
| `RunRecords.CancelLeavesTokenExactly` | crewos/infrastructure/run_store.py:297-310 | cancelling leaves a token on a cancelled row if and only if it met a running row whose lease had lapsed |
| `RunRecords.ResumeLeavesAttemptOpen` | crewos/infrastructure/run_store.py:312-330 | a life that ends queued with the lapsed attempt still open |
| `RunRecords.OrphanedExactly` | crewos/infrastructure/run_store.py:196-330 | an operation leaves the last attempt open with nobody running it if and only if it cancels a running row whose lease lapsed, or resumes one that also has attempts left, no cancellation requested, no unsafe pending call and its deadline ahead |
| `RunVerdicts.ClaimOpensExactly` | crewos/infrastructure/run_store.py:196-237 | a claim opens a new attempt if and only if the job is the registered one, no cancellation is requested, no unsafe call is pending, attempts are left and the row is queued or its lease lapsed; what the new row holds, and that any other claim changes nothing |
| `RunVerdicts.ClaimRefusedExactly` | crewos/infrastructure/run_store.py:200-217 | which refusal a claim gets: cancelled, unsafe replay, or conflict |
| `RunVerdicts.OwnerUndisturbed` | crewos/infrastructure/run_store.py:196-331 | mutual exclusion: until its lease runs out, an attempt that does not finish still owns the run, whatever anybody asks of the store |
| `RunVerdicts.ClaimSparesOwner` | crewos/infrastructure/run_store.py:210-211 | a claim whose reading lies within a lease is refused and leaves the run as it is, however late its transaction comes |
| `RunVerdicts.RenewalOwns` | crewos/infrastructure/run_store.py:249-273 | guard and checkpoint succeed exactly for an owner nobody cancelled, extend its ownership to one lease time from the reading, and change nothing else |
| `RunVerdicts.FinishExactly` | crewos/infrastructure/run_store.py:275-295 | an attempt ends exactly while it owns the run; a requested cancellation decides the outcome and drops the result; its attempt row is closed the same way and nobody owns the run |
| `RunVerdicts.ResumeExactly` | crewos/infrastructure/run_store.py:312-331 | exactly which runs are requeued, failed ones included; a requeued run can be claimed at any time with everything it had |
| `RunVerdicts.ReadSettlesExactly` | crewos/infrastructure/run_store.py:134-181 | reading a lapsed run settles it as needing review for an unsafe pending call, else as exhausted past its deadline, else leaves it alone; its last attempt is closed the same way |
| `RunVerdicts.ReadingIsStable` | crewos/infrastructure/run_store.py:134-181 | a run that reading has settled reads the same ever after |
| `Budget.AllowanceIsTighter` | crewos/core/agent_job_runner.py:63-87 | an attempt's allowance exceeds neither the limits the first attempt recorded nor the current settings, and takes one of the two in each component |
| `Budget.AllowanceRefusedExactly` | crewos/application/services/execution_control.py:37-52 | an attempt cannot run on a budget without tokens, with a money limit but no rates, or with negative amounts, and on any other it can |
| `Budget.AdmittedExactly` | crewos/application/services/execution_control.py:105-116 | a reservation is admitted exactly when tokens and money with it are within the allowance |
| `Budget.ReserveConserves` | crewos/application/services/execution_control.py:105-121 | a reservation adds exactly its charge to the durable totals |
| `Budget.ReconcileConserves` | crewos/application/services/execution_control.py:123-140 | reconciling replaces one charge by the larger of reserved and reported, per component |
| `Budget.ReservedBoundsReported` | crewos/application/services/execution_control.py:123-140 | the total of all charges bounds all usage reported |
| `AgentSteps.NextKeepsInv` | crewos/application/use_cases/agent_loop.py:98-454 | every event of the system, from any attempt or request, keeps the invariant |
| `AgentSteps.ReachableInv` | crewos/application/use_cases/agent_loop.py:98-454 | the invariant holds in every reachable state |
| `AgentTheorems.UnsafeToolRunsAtMostOnce` | crewos/application/use_cases/agent_loop.py:350-362 | over all attempts, crashes, zombies and resumes a decision whose tool is not replay safe is dispatched at most once |
| `AgentTheorems.DispatchesFollowCalls` | crewos/application/use_cases/agent_loop.py:216-240 | every dispatch is of the decision of one model call, and no two calls share a number |
| `AgentTheorems.DecisionBudget` | crewos/application/use_cases/agent_loop.py:216-240 | the model is called at most max_decisions times per run, over all attempts |
| `AgentTheorems.AnswerAgreement` | crewos/core/agent_job_runner.py:137-142 | every answer handed out is the stored result of the succeeded run |
| `AgentTheorems.CheckpointAgreesWithTranscript` | crewos/application/use_cases/agent_loop.py:177-198 | a stored checkpoint's sources are those of the search results the loop put in its history, a search counts as done exactly when one is there, and in document mode at most 100 passages carry those sources |
| `AgentTheorems.CheckpointRoundTrip` | crewos/application/use_cases/agent_loop.py:116-219 | writing the loop's variables to a checkpoint and reading them back gives the same variables; budget, receipt and final result are left alone |
| `AgentTheorems.ResumesWhereStored` | crewos/application/use_cases/agent_loop.py:116-219 | a later attempt goes on where the checkpoint stands: a pending call keeps its number and is replayed, and history, evidence and question are as stored |
| `AgentTheorems.ModeNeverConflicts` | crewos/application/use_cases/agent_loop.py:207-210 | no attempt is refused over the answer mode of what an earlier attempt of the run stored |
| `AgentTheorems.MergeExactly` | crewos/application/use_cases/agent_loop.py:397-405 | search results are refused exactly when two passages of one identity differ; otherwise nothing is lost and what was there stays first |
| `AgentTheorems.ObserveRefusesExactly` | crewos/application/use_cases/agent_loop.py:395-416 | a tool result is refused exactly when it is a document run's search that contradicts known evidence or makes it more than 100 passages |
| `AgentTheorems.AnswerPassesExactly` | crewos/application/use_cases/agent_loop.py:279-285 | an answer passes its citation checks exactly when it is of the run's mode and cites only what the transcript's searches show, in document mode after at least one search |
| `AgentTheorems.FinalResultRecovers` | crewos/core/agent_job_runner.py:90-116 | a final result that reached a checkpoint passes every check recovery makes of mode, citations and receipt |
| `AgentTheorems.SucceededDocumentIsCertified` | crewos/application/use_cases/agent_loop.py:278-322 | a succeeded document run holds a receipt the gate accepts, for its answer and its evidence |
| `AgentTheorems.StoredReviewSays` | crewos/application/services/document_review_validation.py:22-75 | what the review behind a stored document answer says: supported throughout for an answer, an appropriate abstention after a search for an abstention |
| `AgentTheorems.CitationsResolve` | crewos/application/use_cases/agent_loop.py:278-301 | every citation of a stored answer names a passage of the review request that the transcript shows |
| `AgentTheorems.StoredAnswerIsGrounded` | crewos/application/use_cases/agent_loop.py:278-322 | end to end: each alphanumeric character of a stored answer is covered by a claim quoted from a passage this run's searches returned |
| `AgentTheorems.GeneralCitationsObserved` | crewos/application/use_cases/agent_loop.py:320-322 | a stored general answer cites only sources the run's searches returned |
| `AgentLives.EventIsOneOp` | crewos/infrastructure/run_store.py:196-330 | whatever happens in the system, the store sees one operation, in time and with a fresh token |
| `AgentLives.StrandedRunIsOver` | crewos/infrastructure/run_store.py:212-214 | when the attempt holding an unsafe call is gone, checkpoint and attempts are frozen whatever any attempt or request does |
| `AgentLives.CancelledRunIsOver` | crewos/infrastructure/run_store.py:202-316 | after a cancellation request nothing any attempt does changes the checkpoint, starts an attempt or makes the run succeed |
| `AgentLives.ZombieStaysZombie` | crewos/infrastructure/run_store.py:239-280 | an attempt that lost its lease never has another checkpoint or outcome stored |
| `AgentLives.SettledRunStays` | crewos/infrastructure/run_store.py:196-330 | a terminal run stays as it is over every later event of the system |
| `AgentHistory.LaterRemembers` | crewos/infrastructure/run_store.py:202-203 | every later system still holds all grants, calls, tool runs and answers on record, and a settled run as it was |
| `AgentBudget.BudgetConservation` | crewos/application/services/execution_control.py:105-142 | durable totals equal the sum over all calls of all attempts, cover every single charge and bound all reported usage |
| `AgentBudget.RecoveriesBounded` | crewos/application/services/execution_control.py:144-149 | recoveries over all attempts stay within the first attempt's recorded limit |
| `AgentBudget.LimitsWrittenOnce` | crewos/core/agent_job_runner.py:63-89 | recorded limits never change |
| `AgentBudget.ReservationsAdmitted` | crewos/application/services/execution_control.py:105-121 | after each admitted reservation the totals are within the recorded limits |
| `AgentBudget.OverrunAdmitsNothing` | crewos/application/services/execution_control.py:115-142 | once reported usage overran the limits no attempt gets another reservation |
| `ExecutionControl.ExecutionControl.Guard` | crewos/application/services/execution_control.py:62-72 | a heartbeat exception is raised again; otherwise success, exhaustion, cancellation and loss of the lease are told apart by what the store holds |
| `ExecutionControl.ExecutionControl.Persist` | crewos/application/services/execution_control.py:98-103 | local state changes first; the store accepts it and it joins the trail, or the attempt is in its handler |
| `ExecutionControl.ExecutionControl.Reserve` | crewos/application/services/execution_control.py:105-121 | admits a call within the allowance, in tokens and money, and records it durably while the store still names this attempt, or stops the attempt |
| `ExecutionControl.ExecutionControl.Reconcile` | crewos/application/services/execution_control.py:123-142 | records reported usage durably, then stops the attempt if it overran |
| `ExecutionControl.ExecutionControl.Recover` | crewos/application/services/execution_control.py:144-149 | a recovery is spent exactly when one is left, and durably or the attempt is in its handler; with none left nothing changes and the attempt breaks down |
| `AgentLoop.TakeEvidence` | crewos/application/use_cases/agent_loop.py:395-424 | the passage loop merges a search result into the evidence, or refuses conflicting or too many passages |
| `AgentLoop.Outside.Invoke` | crewos/application/use_cases/agent_loop.py:233-240 | the model can only be invoked under a new decision number whose checkpoint is stored, while the store names this attempt as the running one |
| `AgentLoop.Outside.Dispatch` | crewos/application/use_cases/agent_loop.py:356-362 | a tool can only be run right behind the accepted checkpoint that names this call as pending, with the lease active and the deadline ahead, and its run is then owed to the log |
| `AgentLoop.AgentLoop.CheckDeadline` | crewos/application/use_cases/agent_loop.py:164-176 | passing the check means the lease was renewed with time left and nothing thrown was swallowed |
| `AgentLoop.AgentLoop.Converse` | crewos/application/use_cases/agent_loop.py:233-258 | a decision is used exactly as the model replied it and only in the run's mode; an unusable reply asks for a recovery; a broken call raises its own fault |
| `AgentLoop.AgentLoop.AskModel` | crewos/application/use_cases/agent_loop.py:229-276 | on the trail: the checkpoint of the new decision number with nothing pending, the reservation, one invocation; an unusable reply costs one durable recovery, and a stopped attempt invoked at most once |
| `AgentLoop.AgentLoop.Choose` | crewos/application/use_cases/agent_loop.py:216-240 | a pending decision is replayed without a model call; otherwise one call is made under the next number |
| `AgentLoop.AgentLoop.UseTool` | crewos/application/use_cases/agent_loop.py:340-394 | on the trail, for a registered tool: the pending checkpoint of this call, one run, then checkpoints only, the last with nothing pending; an unregistered tool is not run and is not named in the fault note, and a stopped attempt ran its tool at most once |
| `AgentLoop.AgentLoop.RunTool` | crewos/application/use_cases/agent_loop.py:356-394 | one run of the tool joins the trail behind its pending checkpoint; an unavailable tool that is not replay safe, and a broken handler, stop the attempt with the call still pending; wrong arguments or an unavailable replay-safe tool may be recovered; a result joins the history or is refused as evidence |
| `AgentLoop.AgentLoop.RunPending` | crewos/application/use_cases/agent_loop.py:356-394 | a recovery is spent exactly on the recoverable failures, and leaves proposal and fault in the history |
| `AgentLoop.AgentLoop.ReviewAnswer` | crewos/application/use_cases/agent_loop.py:294-301 | the review returned for this question, answer and evidence is the one in the stored receipt; one the gate rejects stops the attempt |
| `AgentLoop.AgentLoop.Answer` | crewos/application/use_cases/agent_loop.py:278-338 | an answer is final only once validated, reviewed in document mode, and the last accepted checkpoint holds it |
| `AgentLoop.AgentLoop.Run` | crewos/application/use_cases/agent_loop.py:98-454 | the history of the run is only continued, whatever others do; a normal return comes with the final result in the last accepted checkpoint |
| `AgentRunner.Revalidate` | crewos/core/agent_job_runner.py:90-116 | a stored final result is recovered exactly when mode, citations and receipt still back it |
| `AgentRunner.AgentRunner.Execute` | crewos/core/agent_job_runner.py:36-171 | a job over the decision policy is refused; a claim that meets a succeeded run returns its stored answer; one that may not open an attempt leaves the run alone; a failed attempt leaves the row its fault and checkpoint call for, unless the storage broke or the run was lost; a normal return is the stored result of the succeeded run |
| `AgentRunner.AgentRunner.Handle` | crewos/core/agent_job_runner.py:138-168 | the terminal write of a failed attempt: cancelled if a cancellation is requested or was the fault, exhausted for a spent budget, needs review for an unsafe pending call, failed otherwise, and never a result |
| `AgentExamples.FailedHidesCall` | crewos/core/agent_job_runner.py:151-162 | a reachable run recorded as failed whose stored checkpoint holds an unsafe pending call |
| `AgentExamples.FailedHidesCallExactly` | crewos/core/agent_job_runner.py:151-162 | it happens exactly when the store holds the unsafe call and the attempt's own copy does not |
| `AgentRunner.AgentRunner.DeliverTwice` | crewos/core/agent_job_runner.py:43-53 | two deliveries that both return an answer return the same one |
| `AgentRunner.ToolsRunAtMostOnce` | crewos/application/use_cases/agent_loop.py:350-362 | tools that are not replay safe really run at most once for one decision, over all deliveries |
| `AgentRunner.ModelInvokedWithinBudget` | crewos/application/use_cases/agent_loop.py:216-240 | the model is really invoked at most max_decisions times, over all deliveries |
| `DocumentStore.SQLiteDocumentStore.CreateVersion` | crewos/ingestion/adapters/sqlite_document_store.py:127-148 | a well-formed next version is appended, or nothing changes |
| `DocumentStore.SQLiteDocumentStore.AppendRow` | crewos/ingestion/adapters/sqlite_document_store.py:136-148 | only the revision after the highest stored one is accepted |
| `DocumentStore.SQLiteDocumentStore.Get` | crewos/ingestion/adapters/sqlite_document_store.py:150-169 | the row asked for, or the newest, checked against its own identity |
| `DocumentStore.SQLiteDocumentStore.Delete` | crewos/ingestion/adapters/sqlite_document_store.py:171-188 | all versions go and every job of the document is fenced, or nothing changes |
| `DocumentStore.SQLiteDocumentStore.ReadLatestDocuments` | crewos/ingestion/adapters/sqlite_document_store.py:190-219 | one consistent reading of the tenant's newest snapshots in order of id, or an error and nothing |
| `DocumentStore.SQLiteDocumentStore.SubmitJob` | crewos/ingestion/adapters/sqlite_document_jobs.py:71-120 | a repeated key gets the job it names or a conflict; otherwise exactly one queued job appears |
| `DocumentStore.SQLiteDocumentStore.GetJob` | crewos/ingestion/adapters/sqlite_document_jobs.py:46-69 | the receipt of a job its tenant may see |
| `DocumentStore.SQLiteDocumentStore.ClaimJob` | crewos/ingestion/adapters/sqlite_document_jobs.py:126-165 | a fresh claim, nothing for a settled or exhausted job, or a refusal that changes nothing |
| `DocumentStore.SQLiteDocumentStore.CommitJob` | crewos/ingestion/adapters/sqlite_document_jobs.py:167-194 | version and success are written together for the current claim, or nothing is |
| `DocumentStore.SQLiteDocumentStore.FailJob` | crewos/ingestion/adapters/sqlite_document_jobs.py:196-210 | only the current token of a running job records a failure |
| `DocumentStore.SQLiteDocumentStore.RetryJob` | crewos/ingestion/adapters/sqlite_document_jobs.py:212-229 | requeues exactly the jobs every condition allows |
| `DocumentStore.SQLiteDocumentStore.MarkJobPublished` | crewos/ingestion/adapters/sqlite_document_jobs.py:231-237 | only the publication mark of one visible job changes |
| `DocumentTables.GetIsExact` | crewos/ingestion/adapters/sqlite_document_store.py:150-169 | in well-kept tables a read finds exactly the stored versions and never reports corruption |
| `DocumentTables.ClaimKeeps` | crewos/ingestion/adapters/sqlite_document_jobs.py:126-165 | a claim keeps the table invariant and never finds a stored job unreadable |
| `DocumentCorpus.CorpusIsExact` | crewos/ingestion/adapters/sqlite_document_store.py:190-219 | the corpus is what a read without a version gives for each document of the tenant, once each, in order |
| `DocumentCorpus.CorpusFailsOnLimitsOnly` | crewos/ingestion/adapters/sqlite_document_store.py:208-215 | in well-kept tables the reader fails exactly when a limit is exceeded |
| `DocumentSystem.NextKeepsInv` | crewos/ingestion/adapters/sqlite_document_jobs.py:71-237 | every transaction of any worker or request keeps the invariant of both tables |
| `DocumentSystem.ReachableInv` | crewos/ingestion/adapters/sqlite_document_jobs.py:71-237 | the invariant holds in every reachable state |
| `DocumentTheorems.OneAppendPerKey` | crewos/ingestion/adapters/sqlite_document_jobs.py:71-120 | for each tenant and idempotency key at most one version is ever appended |
| `DocumentTheorems.SucceededMeansAppended` | crewos/ingestion/adapters/sqlite_document_jobs.py:167-194 | a job is succeeded exactly when it appended a version, the one it was entitled to |
| `DocumentTheorems.LedgerIsHonest` | crewos/ingestion/adapters/sqlite_document_jobs.py:180-193 | a job's commit and nothing else adds a ledger entry, together with one row of its document |
| `DocumentTheorems.HistoryIsContiguous` | crewos/ingestion/adapters/sqlite_document_store.py:136-169 | the versions of a document are exactly 1..n and each reads back as written |
| `DocumentTheorems.SnapshotsNeverAltered` | crewos/ingestion/adapters/sqlite_document_store.py:136-148 | without a delete, histories only ever get longer |
| `DocumentTheorems.DeletedStaysDeleted` | crewos/ingestion/adapters/sqlite_document_store.py:171-188 | after a successful delete no later state, over any events, holds a version of the document |
| `DocumentTheorems.JobShape` | crewos/ingestion/adapters/sqlite_document_jobs.py:126-229 | token exactly when running, payload when queued or running, version exactly when succeeded, attempts within the limit |
| `DocumentTheorems.SettledForever` | crewos/ingestion/adapters/sqlite_document_jobs.py:126-229 | succeeded jobs and failed jobs without a payload never change again, up to publication mark and error note |
| `DocumentTheorems.ResultAvailableUntilDeleted` | crewos/ingestion/adapters/sqlite_document_jobs.py:46-69 | a receipt offers a result exactly when the job succeeded and its document was not deleted since |
| `DocumentTheorems.StaleClaimChangesNothing` | crewos/ingestion/adapters/sqlite_document_jobs.py:180-210 | a claim that lost its job never commits again, and once replaced cannot fail it either |
| `DocumentTheorems.FailureChangesNothingExactly` | crewos/ingestion/adapters/sqlite_document_jobs.py:196-210 | a claimant's failure report changes nothing if and only if its token has been replaced |
| `DocumentTheorems.CommitRefusedExactly` | crewos/ingestion/adapters/sqlite_document_jobs.py:180-193 | a commit of the entitled next version is refused if and only if the claim lost its job, by token or by lease |
| `DocumentTheorems.LapsedClaimStillFails` | crewos/ingestion/adapters/sqlite_document_jobs.py:196-210 | a reachable job, its claim lapsed and not replaced, that its late claimant fails |
| `DocumentTheorems.ClaimsAreBounded` | crewos/ingestion/adapters/sqlite_document_jobs.py:134-159 | over all retries a job is claimed exactly attempts times, at most the configured maximum |
| `DocumentVerdicts.DeleteFencesExactly` | crewos/ingestion/adapters/sqlite_document_store.py:171-188 | a delete takes all versions of its document; its jobs stay succeeded as they were or fail as DocumentDeleted without payload and token; every other document and job, of any tenant, is untouched |
| `DocumentVerdicts.SubmitExactly` | crewos/ingestion/adapters/sqlite_document_jobs.py:71-120 | a key used before gets its job for the same request and a conflict for any other; a new key adds exactly one queued job |
| `DocumentVerdicts.RepeatedSubmission` | crewos/ingestion/adapters/sqlite_document_jobs.py:90-103 | whatever happened since, a repeated submission gets the job its key named and a different one is a conflict |
| `DocumentVerdicts.ClaimExactly` | crewos/ingestion/adapters/sqlite_document_jobs.py:126-165 | a job is handed out exactly when it is queued or its lease lapsed and attempts are left; the claim holds it until one lease time from the reading |
| `DocumentVerdicts.RetryExactly` | crewos/ingestion/adapters/sqlite_document_jobs.py:212-229 | exactly which jobs are requeued; a requeued job can be claimed at once |
| `DocumentVerdicts.FailExactly` | crewos/ingestion/adapters/sqlite_document_jobs.py:196-210 | a failed job can be retried exactly while attempts are left |
| `DocumentVerdicts.ReceiptSays` | crewos/ingestion/adapters/sqlite_document_jobs.py:46-69 | what a receipt says of its job, its lease and its result |
| `DocumentVerdicts.UntouchedJob` | crewos/ingestion/adapters/sqlite_document_jobs.py:71-237 | an event that is not about a job, or its document, leaves the job's row exactly as it is |
| `DocumentVerdicts.HolderUndisturbed` | crewos/ingestion/adapters/sqlite_document_jobs.py:126-229 | until its lease runs out a worker that has not reported holds its job against every claim and retry, unless the document is deleted |
| `DocumentIsolation.TransactionsApart` | crewos/ingestion/adapters/sqlite_document_store.py:127-219 | a stranger's transaction leaves a tenant's rows as they are, and its own is decided by those rows alone |
| `DocumentIsolation.TenantsAreApart` | crewos/ingestion/adapters/sqlite_document_jobs.py:38-237 | over any run of the whole system a tenant's rows are what its own transactions alone make of them |
| `DocumentIsolation.AnswersApart` | crewos/ingestion/adapters/sqlite_document_store.py:150-169 | reads and receipts of a tenant are decided by its own rows |
| `DocumentIsolation.CorpusApart` | crewos/ingestion/adapters/sqlite_document_store.py:190-219 | the corpus a tenant searches is read from its own rows |
| `DocumentWorker.Coordinator.Process` | crewos/ingestion/document_processing_coordinator.py:34-41 | a new document gets a generated id and version 1; a failure writes nothing |
| `DocumentWorker.Coordinator.Update` | crewos/ingestion/document_processing_coordinator.py:43-54 | the next version only on top of the expected latest one; otherwise the error that applies first, and nothing written |
| `DocumentWorker.Coordinator.PrepareAndStore` | crewos/ingestion/document_processing_coordinator.py:67-86 | decoding or chunking that fails stops before the store; otherwise the snapshot is handed over |
| `DocumentWorker.DraftExactly` | crewos/ingestion/document_processing_coordinator.py:67-86 | a draft is refused exactly for unreadable text or windows over a limit; otherwise it carries title, source and decoded content, in chunks that rebuild it |
| `DocumentWorker.RunClaim` | crewos/ingestion/document_job_processor.py:31-41 | authorization, then the coordinator under the claim, with the exact error when nobody interferes |
| `DocumentWorker.PermissionNeeded` | crewos/ingestion/document_job_processor.py:31-47 | without document.create or document.update, whichever the claim needs, nothing is written and the job fails as denied |
| `DocumentWorker.CodeOf` | crewos/ingestion/document_job_processor.py:42-66 | every failure maps to a code the store accepts |
| `DocumentWorker.ProcessDocumentJob` | crewos/ingestion/document_job_processor.py:27-68 | under any interference a run of the document system in which the claim taken no longer holds its job when the delivery returns, and the answer is the refused claim or the job as it stands in the end; without interference the job ends succeeded with its one version, rebuilt exactly from the content, or failed for the stated reason with no version |

## Left out

- HTTP routes, schemas, middleware, background-task transport, task ownership, logging, metrics and the command line: wiring without the state these proofs are about.
- Model, review and tool adapters: any reply or failure is allowed in their place. Permissions are a set of names; the policy service's own faults are not modelled.
- JSON, base64, SHA-256, UUID and UTF-8: replaced by the values they encode and by the assumptions above.
- Floating-point rounding, the 28-digit decimal context and `log1p`: ranking and cost arithmetic is over the reals with an arbitrary positive inverse document frequency.
- The tokenizer, case folding and Unicode character classes: parameters. Titles and source references are taken as already normalized.
- SQLite itself, schema set-up and migration, file permissions, locking time-outs and commits whose outcome is unknown: a transaction happens or it does not.
- The columns created, updated, started and ended of runs, jobs and attempts: no decision reads them.
- The attempts table is kept as one history per run; tokens are unique, so an update by token touches one run.
- The heartbeat thread: renewals by any attempt at any time are events of the machine, and a failed renewal is a fault the attempt may meet at any call.
- The process-local duration clock and the per-tool time budget: an attempt may be stopped at any check by a fault of that kind.
- The 128,000-byte limit on accumulated evidence: the byte size of encoded passages is not modelled, so its error is one of the faults that may stop an attempt; the limit of 100 passages is modelled.
- The schema check of a cached answer against the job's answer mode on a repeated delivery.
- The lifecycle log records around ingestion, and the read and delete pass-throughs of the coordinator, which only call the store.
- Retrieval metrics, fusion contracts, the evaluation tools and the two-step workflow: interfaces or simple arithmetic.
