# Verified model of the incident investigator

A Dafny model of the parts of the investigator whose correctness is a matter of protocol rather than of one
function, with machine-checked proofs about them. `dafny verify dfyconfig.toml` checks everything.

## What is modelled

**The reasoning journal.** A run owns one ledger record (charges and completions, extended only by
compare-and-set) and a directory of content-addressed artifacts. The loop reserves an operation, performs it,
stores its receipt, and anchors the receipt's digest. Any entry after a crash starts again at turn one and rebuilds
its evidence, feedback and history from anchored receipts alone. `Records`, `Budget`, `Context` and `Loop` are the
data and the behaviour as functions of durable state, volatile session and an arbitrary environment (the model, the
read handlers, the authority checks, and the moment of death). `LoopSession` and `Budget.BudgetLedger` are the same
behaviour as objects that update themselves, proved equal to those functions. On top of them: growth (`LoopGrowth`),
what one undisturbed operation does exactly (`LoopProgress`), exact replay over a read-only ledger (`LoopReplay`), the
shape of the journal over every schedule of entries and crashes (`LoopJournal`, `LoopSchedule`), the reconstruction of
finished reports (`LoopReconstruct`), concurrent workers and whole concurrent sessions without the file lock
(`LedgerRace`, `SessionRace`), grounding of every published result (`Grounding`), and reported spend against reserved
spend (`Spend`).

**The investigation around it.** `Lifecycle` models the five nodes, the durable attempt files, the one-shot
collection marker, the checkpoint written after each node, and a crash or an exception at any point inside a node;
`LifecycleObject` is its file-updating form, `LifecycleSafety` holds the invariants over all restarts, including
the read allowances split between the graph and the ledger, and `LifecycleProgress` shows that runs without a crash
end.

**Remediation.** `Policy` is the review, `ActionStore` the action and audit tables, `Broker` a machine in which every
clock reading, backend answer and transaction of any number of workers, each bound to its own operation mode, is one
step and any worker may die. `BrokerSafety` proves what every interleaving keeps; `BrokerObject` is the broker object,
each of whose calls is one worker of that machine; `BrokerProgress` says, from any reachable state and for a backend
whose answers keep their meaning over a period, exactly when an undisturbed call proposes, approves or executes, and
which records it leaves.

**Sequential cores.** `JsonDepth` and `TraceLog` (the nesting scan and span framing), `Lineage` (retrieval chains),
`ConcurrencyTrace` (the lifecycle checker and its producer), `Pointer` (JSON Pointer, RFC 6901) and `PaymentWindow`
(counter windows).

## Reading the model

- A SHA-256 digest is the free constructor over the content it names, so digests never collide. Files may still be
  missing.
- Prompt text is the term of the values it is built from; its message bounds and the provider adapter's count are
  functions of that term.
- Times are integers (reals in `PaymentWindow`), confidences and counters are reals.
- Failures that Python raises as exceptions are results: `Fail(Integrity)` in the loop stands for every integrity,
  validation and ledger-conflict exception, `Fail(NewWorkRefused)` for the refusals of the read-only ledger.
- `Sealed` is a host that can only replay: read-only ledger, inert handlers, and an adapter that cannot dispatch but
  counts prompts. `LoopReplay` gives it the provider's count, `LoopReconstruct` the count of the adapter that
  reconstruction really uses.
- The read-only ledger is the ledger class with a constant `finished` flag; `model-NN` and `reads-NN` are the
  constructors `ModelOp` and `ReadsOp`.
- The read registry is represented by its contract: a batch is charged in full, once, before any handler starts
  (`src/payops/tools/registry.py:112-127`).

## Findings

- **Reported spend.** An observation that ends as an error keeps the provider usage that failed the token check
  (`src/payops/orchestrator/model_runtime.py:329-353`), so "reported spend is covered by the reservation" fails for
  such a run (`Spend.ErrorSpendIsNotCovered`). A run is covered at every price table exactly when each retained usage
  keeps its prompt's token contract (`Spend.RunCoveredExactly`); only the branch of that failed check retains one that
  does not (`Spend.UncoveredExactly`), so every run without an error outcome is covered, timeouts and busy runtimes
  included (`Spend.OnlyErrorsOverspend`, `Spend.SpendStaysWithinLimits`).
- **Reconstruction.** The adapter used for reconstruction accepts every prompt within the message bounds
  (`src/payops/operator_host.py:296-298`), while a provider's adapter may refuse one
  (`src/payops/orchestrator/openai_adapter.py:95-123`, `src/payops/orchestrator/local_llama.py:26-44`), which ends the
  live run as out of budget. The finished report of such a run is then not reconstructed
  (`LoopReconstruct.RefusedPromptIsNotReconstructed`). Every other report is: reconstruction accepts exactly unless the
  run stopped at a prompt only the provider refuses and the ledger had room for it
  (`LoopReconstruct.ReconstructionAcceptsExactly`).
- **Duplicate collected ids.** The collect node does not check that evidence ids are distinct
  (`src/payops/orchestrator/nodes.py:143-156`), so a collection that repeats one is accepted
  (`LifecycleSafety.RepeatedIdIsReachable`). It is blocked by ranking, `finish` can never build its report, and no later
  node run gets past the two (`LifecycleSafety.DuplicatesNeverFinish`); `finish` succeeds exactly when the ids are
  distinct (`LifecycleSafety.FinishSucceedsExactly`).
- **Publication clock.** A derived payment window is accepted by its verifier exactly when the publishing clock is
  not behind its observation time (`PaymentWindow.PublishedIsAccepted`, `PaymentWindow.EarlyClockPublishesRefused`),
  which fails for a clock between two scrapes (`PaymentWindow.ClockBetweenScrapesIsRefused`); a clock that has reached
  the collection of the later snapshot suffices.
- **Fairness.** The recent-first context order always deals the evidence in rounds. The plain order, the default of
  `build_context`, is a stable sort by source and lets two snapshots of one source come before the first log
  (`Context.PlainOrderCrowdsOut`). It deals in rounds exactly when every source before the last one present names each
  resource at most once and the items of each source were given in rounds (`Context.DealtInRoundsExactly`).
- **Documentation.** `docs/reasoning.md` names an older local contract version than
  `src/payops/orchestrator/loop.py:147`; the code is followed.

## Model

| member | source | states |
|---|---|---|
| Records.Retain | src/payops/evidence/artifacts.py:67-77 | storing an artifact never replaces one, and on an intact store always succeeds and leaves the artifact present |
| Records.Restore | src/payops/orchestrator/loop_records.py:56-65 | what is restored is the content its digest names; on an intact store exactly the stored digests restore |
| Context.Ordered | src/payops/evidence/context.py:121-148 | the loop with its dictionary of group counts computes the ranked, rounded order |
| Context.RanksFollowPrecedence | src/payops/evidence/context.py:130-140 | recent-first ranks put supported mechanisms first, then preferred ids, observations before guidance, the newest, the source priority, the id |
| Context.RoundRobinIsFair | src/payops/evidence/context.py:141-148 | a permutation that keeps each group's rank order, with no group's later item before any group's earlier depth |
| Context.OrderedIsPermutation | src/payops/evidence/context.py:121-148 | both orders lose and invent nothing |
| Context.PlainOrderBySource | src/payops/evidence/context.py:128-129 | the plain order is a permutation sorted by source priority that keeps every source and resource group in its given order |
| Context.DealtInRoundsExactly | src/payops/evidence/context.py:121-148 | no group's later item comes before any group's earlier depth: always in the recent-first order, and in the plain order exactly when the evidence was given so |
| Context.PlainOrderCrowdsOut | src/payops/evidence/context.py:128-129 | three items that the plain order does not deal in rounds, and the recent-first order does |
| Context.Build | src/payops/evidence/context.py:80-118 | verify all, order, and append until the item cap is the recursive bundle |
| Context.RejectionPersists | src/payops/evidence/context.py:151-159 | an entry that does not fit never fits a grown bundle |
| Context.FactsAreKeptWhereTheyFit | src/payops/evidence/context.py:151-159 | an entry is reduced to metadata only where the full entry would have passed the limit |
| Context.ContextIsSound | src/payops/evidence/context.py:99-118 | the bundle is a subsequence of the order, counts every item once, respects size and cap, is maximal below the cap, and its ids are evidence ids |
| Budget.BudgetLedger.Open | src/payops/orchestrator/budget.py:151-164 | creates a fresh record, or accepts exactly the same binding and limits; the read-only form never creates |
| Budget.BudgetLedger.Reserve | src/payops/orchestrator/budget.py:177-200 | extends the row by exactly the charge when NEW and otherwise changes nothing, read-only form included |
| Budget.BudgetLedger.Complete | src/payops/orchestrator/budget.py:202-219 | extends the row by exactly the completion when NEW and otherwise changes nothing |
| Budget.BudgetLedger.Replace | src/payops/orchestrator/budget.py:221-240 | the row is swapped exactly when it still equals the expected record |
| Budget.SpentGrows | src/payops/orchestrator/budget.py:113-123 | every total is monotone in the charge list |
| Budget.DeniedExactly | src/payops/orchestrator/budget.py:187-198 | a new charge is denied exactly when an allowance or the row's capacity does not cover it |
| Budget.DenialPersists | src/payops/orchestrator/budget.py:193-198 | a denial given without looking at the stored row holds on every extension of the record |
| LedgerRace.GrantedAtMostOnce | src/payops/orchestrator/budget.py:177-240 | over all interleavings and crashes of workers, each run and operation is granted NEW at most once, and only charged |
| LedgerRace.RecordsOnlyGrow | src/payops/orchestrator/budget.py:103-124 | later records extend earlier ones, keep binding and limits, and stay within the first limits |
| LedgerRace.LoserGetsNothing | src/payops/orchestrator/budget.py:221-240 | of two workers holding one record, the second update changes neither table nor grants |
| SessionRace.JournalSurvivesRaces | src/payops/orchestrator/loop.py:322-464 | sessions of one run interleaved without the file lock: no operation is performed twice or uncharged, none completed unperformed, and charges and completions keep their shape |
| SessionRace.ReceiptIsAnchored | src/payops/orchestrator/loop_records.py:80-84 | whoever performed an operation gets its receipt anchored, whatever the other sessions did meanwhile |
| SessionRace.SessionsAgree | src/payops/orchestrator/loop.py:417-423 | any two sessions have consumed beginnings of one common history |
| SessionRace.LostHolderFreezes | src/payops/orchestrator/loop.py:417-423 | once the holder of an open operation is gone, no session ever performs or records anything again |
| LoopGrowth.TurnGrows | src/payops/orchestrator/loop.py:209-230 | a turn keeps the record valid and growing, keeps artifacts and effects, and touches only its own operation ids |
| LoopGrowth.TurnsGrow | src/payops/orchestrator/loop.py:202-243 | all remaining turns together do the same, and leave earlier turns' entries alone |
| LoopReplay.DenialReplays | src/payops/operator_host.py:253-277 | the read-only ledger repeats a denial of the live one on every extension of the record |
| LoopReplay.ModelReplays | src/payops/orchestrator/loop.py:322-381 | a sealed re-run of a model operation with the same adapter counts returns what the live one returned, fresh, saved or denied, and changes nothing |
| LoopReplay.ReadsReplay | src/payops/orchestrator/loop.py:425-464 | the same for a read batch |
| LoopReplay.TurnsReplay | src/payops/orchestrator/loop.py:202-243 | the same for all turns to the end of the run |
| LoopReplay.ReplayIsExact | src/payops/operator_host.py:239-286 | for the same authority answers and the same adapter counts, the sealed re-entry returns the identical result and leaves the identical disk |
| LoopJournal.TurnsKeepJournal | src/payops/orchestrator/loop.py:202-243 | a session started on a well-formed journal leaves one, and has consumed it unless a receipt is missing |
| LoopSchedule.ScheduleIsReachable | src/payops/orchestrator/loop.py:141-163 | every sequence of entries and crashes leaves a well-formed journal |
| LoopSchedule.JournalShape | src/payops/orchestrator/loop.py:322-464 | charges read model-01 [reads-01] model-02 ..., completions are their ids in order with at most the last missing |
| LoopSchedule.LaterEntries | src/payops/orchestrator/loop.py:417-423 | records and effects only grow, and once the last charge lacks its completion no later entry adds or performs anything |
| LoopSchedule.DispatchedAtMostOnce | src/payops/orchestrator/loop.py:327-358 | over every schedule each prompt and each batch reaches the outside at most once, and only charged |
| LoopSchedule.RebindingIsRefused | src/payops/orchestrator/budget.py:151-164 | an entry under another binding raises and changes neither record nor world |
| LoopReconstruct.ReconstructionIsExactly | src/payops/operator_host.py:289-306 | with the adapter that cannot invoke, a replay never changes record or world and repeats the live entry, unless that stopped at a prompt only the provider refuses; then it raises if the ledger had room for the prompt and otherwise returns the same result |
| LoopReconstruct.AcceptingProviderReplaysExactly | src/payops/operator_host.py:239-306 | where the provider accepts every prompt within bounds, result and disk are repeated exactly |
| LoopReconstruct.ReconstructionAcceptsExactly | src/payops/operator_host.py:524-576 | after any schedule, the report of an authorized run with all receipts is reconstructed exactly unless it stopped at a prompt only the provider refuses and the ledger had room for it |
| LoopReconstruct.RefusedPromptIsNotReconstructed | src/payops/operator_host.py:524-576 | a finished, authorized run whose reconstruction raises |
| LoopReconstruct.DeniedBatchReplaysExactly | src/payops/orchestrator/loop.py:400-415 | the local run that answers after a denied batch is replayed exactly |
| LoopProgress.FreshModelCompletes | src/payops/orchestrator/loop.py:327-381 | an undisturbed model operation is denied exactly when unaffordable, and otherwise charged, performed once, receipted, anchored and returned |
| LoopProgress.FreshReadsComplete | src/payops/orchestrator/loop.py:425-464 | the same for a read batch, merged into the session |
| LoopProgress.CompletionIsNew | src/payops/orchestrator/budget.py:202-219 | a granted operation always has room for its completion, and it is the first |
| LoopProgress.AnswersAfterDeniedBatch | src/payops/orchestrator/loop.py:400-415 | a local run whose read batch is denied still answers with both receipts, and replays exactly |
| LoopSession.Conversation.Publish | src/payops/orchestrator/loop_records.py:80-84 | retain, then anchor, with every crash point |
| LoopSession.Conversation.Model | src/payops/orchestrator/loop.py:322-381 | the method's outcome, session and durable state are those of the model operation |
| LoopSession.Conversation.Accept | src/payops/orchestrator/loop.py:466-498 | merging a batch in place, with the partial feedback of a failing one |
| LoopSession.Conversation.Reads | src/payops/orchestrator/loop.py:425-464 | the method's outcome, session and durable state are those of the read operation |
| LoopSession.Conversation.RequestReads | src/payops/orchestrator/loop.py:383-415 | filtering completed reads and surviving a denied batch, in place |
| LoopSession.Conversation.Run | src/payops/orchestrator/loop.py:202-243 | the loop over turns with its closing checks is the session function |
| LoopSession.RunLoop | src/payops/orchestrator/loop.py:141-163 | one whole entry over ledger, artifacts and world is the entry function |
| Grounding.LicensedIsSelection | src/payops/orchestrator/loop.py:307-320 | filtering local causes keeps only licensed ones, distinct and no more than before |
| Grounding.AnswerIsGrounded | src/payops/orchestrator/reasoning.py:88-118 | a parsed and filtered answer is in the vocabulary, distinct, disjoint, and cites only the context |
| Grounding.ClosingCheckHolds | src/payops/orchestrator/loop.py:231-231 | the evidence recheck that closes a run never fails |
| Grounding.EveryResultIsGrounded | src/payops/orchestrator/loop.py:466-498 | every published result extends the initial evidence with verified items of its incident and cites nothing else, so its report validates |
| Grounding.SealedTurnsSound | src/payops/orchestrator/loop.py:209-230 | at most two receipts a turn, evidence only extended, and an answer grounded in the evidence at hand |
| Spend.RetainedIsCovered | src/payops/orchestrator/model_runtime.py:213-244 | whatever the runtime returns, its usage is proper, and keeps the prompt's token contract unless the outcome is an error |
| Spend.UncoveredExactly | src/payops/orchestrator/model_runtime.py:307-353 | a usage outside the contract is retained exactly by the branch of the failed token check, for an answer in time with a proper count, and then the outcome is an error |
| Spend.CoveredExactly | src/payops/orchestrator/budget.py:48-56 | a reported usage costs no more than its reservation at every price table exactly when it keeps that contract |
| Spend.RunCoveredExactly | src/payops/orchestrator/budget.py:113-123 | a whole run costs no more than its charges at every price table exactly when each of its retained usages keeps its contract |
| Spend.OnlyErrorsOverspend | src/payops/orchestrator/model_runtime.py:213-244 | a run made by the runtime without an error outcome keeps every contract, timeouts and busy runtimes included |
| Spend.SpendStaysWithinLimits | src/payops/orchestrator/budget.py:113-123 | while the contracts are kept, summed reported tokens and cost are at most the charges and hence within the limits, whatever the outcomes |
| Spend.ErrorSpendIsNotCovered | src/payops/orchestrator/model_runtime.py:328-353 | a run of the runtime with one error outcome whose reported spend exceeds the limits of its valid record |
| LifecycleSafety.AttemptsAreBounded | src/payops/orchestrator/nodes.py:31-43 | attempts are numbered 1..n, never collide, bound the operations by max_steps over all restarts, and the collector runs at most once |
| LifecycleSafety.RouteNeverRaises | src/payops/orchestrator/nodes.py:208-220 | a node that ends has a legal successor, breaks no field bound and never moves the phase back |
| LifecycleSafety.PhasesOnlyAdvance | src/payops/orchestrator/graph.py:99-131 | checkpointed phases only move forward over any continuation |
| LifecycleSafety.AllowancesSurviveCrashes | src/payops/orchestrator/graph_reasoning.py:14-46 | collection and ledger reads fit the allowances at every moment, and a ranked checkpoint counts the ledger exactly once |
| LifecycleSafety.EnterKeepsLedger | src/payops/orchestrator/graph_reasoning.py:20-33 | any further entry, by any host whose limits fit, keeps the row valid and within the remaining allowance |
| LifecycleSafety.CollectEnds | src/payops/orchestrator/nodes.py:113-141 | whatever the collector and the writes do, marker, result file and allowances stay consistent |
| LifecycleSafety.FinishSucceedsExactly | src/payops/orchestrator/nodes.py:183-197 | with a reasoner the report validates exactly when the collected ids are distinct, and otherwise the investigation is stuck |
| LifecycleSafety.EscalatesExactlyWithCauses | src/payops/orchestrator/graph_reasoning.py:49-59 | with a reasoner an investigation escalates exactly when it has causes, so failed or ambiguous work never becomes an answer |
| LifecycleSafety.DuplicatesNeverFinish | src/payops/orchestrator/nodes.py:143-156 | over every continuation, an investigation whose collection repeats an id stays at ranking or reporting with that evidence |
| LifecycleSafety.RepeatedIdIsReachable | src/payops/orchestrator/nodes.py:143-156 | under any host, three node runs reach such an investigation |
| LifecycleProgress.QuietNodeAdvances | src/payops/orchestrator/nodes.py:56-70 | a node run without a crash moves the checkpoint strictly forward, unless the report is refused |
| LifecycleProgress.FiveQuietNodesFinish | src/payops/orchestrator/graph.py:27-48 | five node runs without a crash and with distinct collected ids end in a valid report, whatever the model and tools do |
| LifecycleObject.IncidentFiles.Reserve | src/payops/orchestrator/nodes.py:31-43 | creates exactly the next attempt file, or none |
| LifecycleObject.IncidentFiles.Collect | src/payops/orchestrator/nodes.py:113-141 | the in-place collection leaves the files and state of the specification |
| LifecycleObject.IncidentFiles.Step | src/payops/orchestrator/nodes.py:56-70 | every node, run in place, is the node of the specification |
| LifecycleObject.InvestigationWorker.Resume | src/payops/orchestrator/graph.py:99-131 | one invocation is a prefix of a life: nodes from the recorded one, each checkpointed, until the end or a lost node |
| Policy.ReviewCitations | src/payops/policy/engine.py:101-123 | the loop over citations finds the first failure |
| Policy.ReviewedExactly | src/payops/policy/engine.py:126-143 | a review passes exactly when identity, support and freshness hold at its instant |
| Policy.ReviewDeadline | src/payops/remediation/broker.py:68-78 | the collected minimum is the deadline |
| Policy.FreshUntilDeadline | src/payops/remediation/broker.py:68-78 | from a passed review on, every age limit holds exactly until the deadline |
| ActionStore.Database.Create | src/payops/remediation/store.py:96-111 | one row and its first audit event, or an idempotent or refused duplicate |
| ActionStore.Database.Transition | src/payops/remediation/store.py:113-150 | compare-and-set of the whole record together with its audit row, or nothing |
| ActionStore.TransitionKeeps | src/payops/remediation/store.py:42-49 | a transition keeps every action audited and consistent and never collides with an audit row |
| ActionStore.Database.History | src/payops/remediation/store.py:152-166 | exactly the stored audit rows of the action, in ascending revision, or an error if a row names another identity |
| ActionStore.HistoryIsComplete | src/payops/remediation/store.py:152-159 | the history of an audited action is every revision from 0 to the stored one, once, in order |
| BrokerSafety.ExecutedAtMostOnce | src/payops/remediation/broker.py:119-138 | over all interleavings and crashes an action is executed at most once |
| BrokerSafety.OneInstantOfAuthority | src/payops/remediation/broker.py:145-166 | behind every effect is one instant at which identities, approval window, resource age and evidence ages all hold |
| BrokerSafety.ClaimantAlwaysRecords | src/payops/remediation/broker.py:168-201 | the claimant's terminal write is always stored |
| BrokerSafety.DecisionsAreFixed | src/payops/remediation/contracts.py:46-73 | proposal, proposer, approval, final records and audit rows never change once stored |
| BrokerSafety.AuditIsThePath | src/payops/remediation/store.py:77-94 | at every moment the history of an action is revisions 0..n, a path of transitions from proposed to the stored state |
| BrokerSafety.ChangeIsValid | src/payops/remediation/store.py:123-134 | the record validator never refuses a transition the broker attempts |
| BrokerSafety.ApprovedIsUnclaimed | src/payops/remediation/broker.py:119-138 | an action still approved has no claimant and no effect |
| BrokerProgress.ProposalIsStoredExactly | src/payops/remediation/broker.py:80-96 | in a reachable state and a steady period, a new proposal is stored with the final reading exactly when its proposer is valid and the review's support and freshness hold at the start; a repeated one by the same proposer returns the stored record; otherwise nothing changes |
| BrokerProgress.ApprovalIsStoredExactly | src/payops/remediation/broker.py:98-117 | a stored proposal becomes approved exactly when both people are valid and differ and the review holds at the start; the stored approval is the last reading, not after the review's deadline, for five minutes; otherwise nothing changes |
| BrokerProgress.ExecutionIsPerformedExactly | src/payops/remediation/broker.py:119-138 | a stored approval is claimed, performed once under three identities of one reading, and ends as the stored record of the answer, exactly when people, window and review hold at the start; a valid executor of a claimed action is shown its record; otherwise nothing changes |
| BrokerProgress.DispatchExecutesExactly | src/payops/remediation/broker.py:145-201 | a claimed action is performed once and its answer stored exactly when people, window and deadline are good at the start of the dispatch; otherwise its failure is stored and nothing performed |
| BrokerProgress.SoloIsLone | src/payops/remediation/broker.py:33-45 | a worker of the machine whom nobody disturbs ends as the lone call these results speak of |
| BrokerObject.RemediationBroker.Propose | src/payops/remediation/broker.py:80-96 | the call is one worker's proposal, step for step |
| BrokerObject.RemediationBroker.Approve | src/payops/remediation/broker.py:98-117 | the call is one worker's approval, step for step |
| BrokerObject.RemediationBroker.Execute | src/payops/remediation/broker.py:119-138 | the call is one worker's execution, step for step |
| BrokerObject.RemediationBroker.DispatchAuthority | src/payops/remediation/broker.py:145-166 | fresh identities and the three clock readings end in the effect or in the recorded refusal |
| BrokerObject.LoneStepIsAStep | src/payops/remediation/broker.py:33-45 | what the object does is a step of the machine among any other workers |
| JsonDepth.Depth | src/payops/evidence/trace_span.py:195-213 | the counters of the loop pass exactly the texts the scan does not raise on |
| JsonDepth.ScanString | src/payops/evidence/trace_span.py:195-213 | strings leave the depth alone, whatever brackets and escaped quotes they hold |
| JsonDepth.ScanValue | src/payops/evidence/trace_span.py:195-213 | scanning a rendered value raises exactly when its nesting exceeds what is left, and otherwise returns to its depth |
| JsonDepth.ScanAgreesWithRecursion | src/payops/evidence/trace_span.py:195-213 | for every JSON text, the scan raises exactly when the value nests more than eight containers |
| TraceLog.OpenMeans | src/payops/evidence/trace_span.py:247-256 | a candidate is open exactly when some opening line has no closing line after it |
| TraceLog.Parse | src/payops/evidence/trace_span.py:235-288 | it returns exactly when no line stops it, and then its spans and counters are those of the whole log |
| TraceLog.CandidatesAreConserved | src/payops/evidence/trace_span.py:235-288 | spans, malformed, excluded and partial add up to opening lines plus stray fragments |
| TraceLog.EveryKeptSpanIsABlock | src/payops/evidence/trace_span.py:257-279 | a kept span is one contiguous block, in time order, shallow, in scope, ended before it was logged |
| TraceLog.EveryGoodBlockIsKept | src/payops/evidence/trace_span.py:257-279 | conversely, every such block is kept |
| TraceLog.KeptSpansFollowTheLog | src/payops/evidence/trace_span.py:257-279 | blocks of later spans lie behind those of earlier ones |
| Lineage.Verify | src/payops/memory/data_clients.py:282-309 | the recursion over the shared visited set, with measure eight minus the visited digests |
| Lineage.AcceptedExactly | src/payops/memory/data_clients.py:277-322 | an item is accepted exactly when at most eight distinct links lead to an original of its namespace and service |
| Lineage.ChainKeepsTheOriginal | src/payops/memory/data_clients.py:292-305 | kind, service, summary and observation time stay along the chain, and collection only gets later outward |
| ConcurrencyTrace.ValidateEvents | src/payops/scenarios/concurrency_evidence.py:83-127 | accepts exactly traceable and sufficient logs, and reports the true maxima over all prefixes |
| ConcurrencyTrace.SerialAcceptedExactly | src/payops/scenarios/concurrency_evidence.py:120-124 | a serial control passes exactly when it is eight admitted, allocated, released blocks, one per planned sample |
| ConcurrencyTrace.ProducerIsAccepted | src/payops/sandbox/concurrency_memory.py:80-104 | every interleaving of normally completing runs prints a trace the checker reconstructs exactly |
| ConcurrencyTrace.ConcurrentMemory.Begin | src/payops/sandbox/concurrency_memory.py:80-97 | refused when closed, skipped when disabled, refused when eight are active, each without a trace; otherwise admitted and allocated |
| ConcurrencyTrace.ConcurrentMemory.Finish | src/payops/sandbox/concurrency_memory.py:94-104 | release, after the hold or at once, frees the slot and prints the remaining count |
| ConcurrencyTrace.Allocate | src/payops/sandbox/concurrency_memory.py:41-46 | exactly one byte of every page is touched |
| Pointer.ReplacementsUnescape | src/payops/evaluation/replay_facts.py:43-45 | on checked strings the two global replacements are one pass from the left |
| Pointer.AtPointer | src/payops/evaluation/replay_facts.py:36-52 | the loop with its rebound value is the walk over the split parts |
| Pointer.ExistingPathResolves | src/payops/evaluation/replay_facts.py:36-52 | every existing path is found under its escaped pointer |
| Pointer.ResolvedPointerNamesPath | src/payops/evaluation/replay_facts.py:36-52 | whatever resolves is found by stepping along a path spelled by the pointer, the only such path in that value |
| PaymentWindow.Required | src/payops/evidence/payment_window.py:103-121 | the loops collect every initialized series |
| PaymentWindow.ReadMetrics | src/payops/evidence/payment_window.py:185-203 | the dictionary loop accepts a vector exactly when every row is in scope, known, timely and new |
| PaymentWindow.Agrees | src/payops/evidence/payment_window.py:293-307 | the loops compare each cell's histogram count with the sum of its requests |
| PaymentWindow.CellsPartition | src/payops/evidence/payment_window.py:293-307 | the four cell sums add up to the total, over any requests |
| PaymentWindow.WindowMeaning | src/payops/evidence/payment_window.py:315-355 | complete means nonnegative deltas over exactly the required series, counts equal per cell and in total, between scrapes of one epoch that bracket the interval; any other status carries no numbers |
| PaymentWindow.PublishedIsAccepted | src/payops/evidence/payment_window.py:358-379 | a published window is accepted exactly when the publishing clock was not behind its observation |
| PaymentWindow.SteadyClockPublishesAcceptable | src/payops/evidence/payment_window.py:358-379 | a clock that has reached the later collection always publishes acceptable windows |
| PaymentWindow.EarlyClockPublishesRefused | src/payops/evidence/payment_window.py:382-398 | a clock behind the observation publishes a refused one |
| PaymentWindow.ClockBetweenScrapesIsRefused | src/payops/evidence/payment_window.py:358-398 | two scrapes and a clock between them whose window is published and refused |
| PaymentWindow.AcceptedIsRecomputed | src/payops/evidence/payment_window.py:382-398 | an accepted item holds exactly what its two sources recompute to |

## Left out

- PaymentWindow.WindowMeaning: floating-point rounding is not modelled; deltas and sums are exact reals.
- PaymentWindow.PublishedIsAccepted: redaction of a window's own payload and the microsecond rounding of scrape times are taken to change nothing.
- BrokerProgress.ExecutionIsPerformedExactly: for calls nobody disturbs and a backend whose answers keep their meaning during the call's checks; what holds under interference is `BrokerSafety`.
- BrokerSafety.OneInstantOfAuthority: `evaluate` reads the wall clock and the broker its injected clock; the model has one monotone clock for both.
- LoopReplay.ReplayIsExact: digest collisions and damaged files are not modelled, missing files are.
- LoopReconstruct.ReconstructionAcceptsExactly: stated for reservations at the input ceiling, which the operator configuration demands (`src/payops/operator_config.py:193`), and for an authority that stands throughout.
- SessionRace.JournalSurvivesRaces: a session is reduced to its ledger calls; that all sessions ask for the same charges after the same receipts is assumed of them, as exact replay suggests.
- LoopProgress.AnswersAfterDeniedBatch: an example, for local hosts without initial evidence or read allowance and a batch of one request.
- LifecycleSafety.FinishSucceedsExactly: stated for reasoning workers; the deterministic baseline ranker is an arbitrary list of causes.
- Grounding.EveryResultIsGrounded: byte limits and duplicate keys of raw model output are below the typed decision; derived-source checks inside evidence verification are one verified flag per item.
- TraceLog.Parse: decoding, the byte and line limits of the raw log and the projection of one object's fields are a parameter.
- ConcurrencyTrace.ValidateEvents: raw log parsing and field bounds of a single event are not modelled.
- ConcurrencyTrace.ConcurrentMemory.Begin: failing container checks and kernel reads are not modelled.
- ConcurrencyTrace.ProducerIsAccepted: only normally completing runs and refusals; a run cancelled or stopped at the allocation deadline releases early.
- Lineage.Verify: a stored value that is not text where a scope field is expected counts as a missing field.
- HTTP, GraphQL, Kubernetes, Redis, Elasticsearch and SQL transport, threads, file locks and the graph library: the model starts at their atomic effects.
- Tool collection, scenario runners and traffic drivers: arbitrary environment.
- Prompt wording, telemetry, redaction patterns, credentials, the user interface and command-line scripts.
- Fault harnesses, traffic control, sample stores and recall metrics: single-update or one-branch facts.
