# CrackRAG: paid calls, durable jobs, delivery and evidence

This project models the part of CrackRAG that decides things: the Go transactions over the call ledger, the
background jobs, the outbox and the published facts, and the few Python algorithms that feed them. Every database
transaction is one atomic step on an explicit state (`Types.Db`). The `Service.Server` class performs the
transactions as methods, check by check and write by write, and each method is proved to accept exactly when its guard
holds, to change the tables exactly as its effect says, and to change nothing otherwise. The properties are proved of
runs: arbitrary sequences of such steps (`Runs.Step`), so that workers may crash, stall, be superseded, replay old
requests or wake up late between any two of them, while processes expire and the clock advances.

Money is counted in integer units of 1e-8 CNY, in which the tariff's divisions are exact; time in nanoseconds.

## Parts

| files | what they hold |
|---|---|
| `Types`, `Table` | the rows, and sums over the call table |
| `Tariff` | usage checks, price window, verified cost, cold upper bound |
| `Ledger`, `LedgerLaws`, `Settlement` | admission, settlement, owner loss, reconciliation; conservation, caps, lanes, halts |
| `Jobs`, `JobLaws` | guards and effects of job transactions; job, batch and call invariants; what may never move back |
| `Runs`, `Safety`, `Spending`, `Resumption` | steps and runs; fencing, one extraction, spend bounds, no stranded job |
| `Billing`, `Limits` | every charge and every limit as numbers, in the fields of records, contracts and rows |
| `Leases`, `Admission`, `Endings` | what leases, requests and endings mean, in the columns of the rows, whatever guard or effect computes them |
| `Witnesses` | concrete sound states that show what the laws do not promise |
| `Recovery` | what a recovering worker is told, when it dispatches and how it concludes |
| `Server` | the transactions as imperative methods (module `Service`) |
| `Delivery` | outbox relay, stream and acknowledgement |
| `Probe`, `ProbeRuns` | the resumable probe round, and its phases over whole runs of the service |
| `HotWindow`, `HotRuns` | timed HOT dispatch |
| `Validator`, `Facts`, `Publication` | source validation, fact reading and reuse, publishing a validated batch |
| `Answer`, `Release` | answer rendering, and what a rendered value rests on when the validator judges its claims |
| `UnionArea`, `Terms` | the image-area sweep and the streaming tokenizer |

## What the proofs found

Where a natural property is false of the code, there is a concrete state or input that shows it, and a statement for all
inputs of exactly when it holds.

- A later claim that a call was never dispatched can never resolve it: every record that proves as much has already
  settled the call (`Settlement.NonDispatchNeverResolves`). That branch of the reconciliation is unreachable.
- Replaying a recorded settlement never moves anything, and is acknowledged exactly when it is not taken for late
  evidence (`Settlement.ReplayNeverMoves`). A paid call of the third experiment that a settlement leaves UNKNOWN answers
  that settlement's replay with an error unless the record itself says that its cost is unknown
  (`Settlement.UnresolvedReplay`); so does every estimate whose usage cannot be verified
  (`Settlement.UnverifiedEstimateReplayIsRefused`).
- An experiment is halted exactly while one of its paid calls is UNKNOWN or cost more than its reservation
  (`LedgerLaws.HaltExact` inside `Safety.RunKeeps`); the reason text may change, since a settlement overwrites it.
- Nothing in the service bounds the provider's token count. Within the allowance of two tokens a byte plus 4096 no
  verified cost exceeds the reservation (`Tariff.VerifiedCostWithinUpper`), and for every prompt beyond it there is
  evidence whose verified cost does (`Tariff.LongPromptOvershoots`): no larger allowance would do.
- The batch id of an answer call is not checked when the run has no extraction tools. Such a call is the one
  way for an open call to touch a FAILED job, for recovery and claiming to judge a job differently, for the two
  cancellations to label it differently, and for a job to be neither held, recoverable nor claimable
  (`Safety.TouchingCallsAreOwnOrForeign`, `Witnesses.ForeignAnswerTouchesFailedJob`, `Resumption.CancellationsDisagree`,
  `Safety.RecoveryAgreesWithClaim`, `Resumption.NoJobIsStranded`).
- Publication ends a job without looking at its open calls. An accepted step ends a job that has an open call of its
  own other than as OUTCOME_UNKNOWN exactly if it is that job's publication (`Safety.OnlyPublicationIgnoresOpenCalls`),
  and a published job may keep an open probe call (`Witnesses.PublicationLeavesOpenCall`).
- Paid admissions of the first two experiments do not consult the release project cap and can pass it
  (`Witnesses.UnreleasedCallPassesProjectCap`). The cap holds for the whole ledger, up to overshoot, whenever the latest
  paid call was admitted under a live session: each such admission establishes it again, whatever was admitted before
  (`LedgerLaws.StandingAfterInsert`, `Spending.EveryCapHoldsTogether`).
- Reused facts are also refused when more than 200 current facts bear on the same questions (`Facts.ValidateReuse`):
  ten documents that report the same twenty values, one of which is also derived, are enough
  (`Facts.CrowdedReuseIsRefused`).

## Model

| member | source | states |
|---|---|---|
| Tariff.RateWindow | api/internal/app/m3_settlement.go:58-80 | the returned window is exactly the maximal interval of constant tariff rate that starts at the stamp |
| Tariff.OneRateThroughout | api/internal/app/m3_settlement.go:130-133 | finishing before the next change is equivalent to one rate holding from start to finish |
| Tariff.PriceWindow | api/internal/app/m3_settlement.go:58-80 | the boundary and weekday search returns the tariff's factor and the next instant at which it differs |
| Tariff.NextWorkdaySkipsOnlyRestDays | api/internal/app/m3_settlement.go:75-79 | the day search stops at the first working day and skips nothing but rest days |
| Tariff.VerifiedCostWithinUpper | api/internal/app/m3_settlement.go:91-143 | a verified amount never exceeds the cold upper bound if the prompt is within two tokens a byte plus 4096 |
| Tariff.LongPromptOvershoots | api/internal/app/m3_policy.go:122-125 | for every request size, output limit and prompt beyond the allowance there is evidence with that prompt whose verified amount exceeds the reservation |
| Tariff.NotDispatchedIsNeverABill | api/internal/app/m3_settlement.go:25-41 | a record that proves non-dispatch verifies no cost |
| LedgerLaws.AdmissionIsRoomInEveryGroup | api/internal/app/tools.go:348-417 | the whole branch structure of admission holds exactly if the gates are open and every group the call joins has room for its reservation |
| LedgerLaws.BudgetIsOccupied | api/internal/app/m3_budget.go:159-175 | known plus reserved of an experiment is what its calls occupy |
| LedgerLaws.InsertKeeps | api/internal/app/tools.go:415-456 | an admission keeps conservation, every limit, the lanes and the exact halt |
| LedgerLaws.StandingAfterInsert | api/internal/app/m3_budget.go:141-153 | an admission moves no limit of any group but the project, whose limit then stands exactly if the paid call was admitted under a session |
| LedgerLaws.PriceKeeps | api/internal/app/tools.go:543-590 | each settlement branch keeps conservation, every limit, the lanes and the exact halt |
| LedgerLaws.MarkLostKeeps | api/internal/app/m4_call_recovery.go:12-31 | marking lost calls UNKNOWN keeps their reserve and count and halts exactly the experiments concerned |
| LedgerLaws.ResolveKeeps | api/internal/app/m4_reconciliation.go:227-252 | applied evidence moves the reserve to known money and lifts the halt exactly when nothing keeps it |
| LedgerLaws.ResolveAtZeroKeeps | api/internal/app/m2_reconciliation.go:248-277 | the zero-charge reconciliation keeps the ledger invariant of the second experiment |
| LedgerLaws.SpendBound | api/internal/app/m3_budget.go:165-175 | an experiment never occupies more than its cap plus the summed overshoot of its settled calls |
| LedgerLaws.OverCapMeansOvershoot | api/internal/app/m4_reconciliation.go:232-252 | money beyond the cap means some settled call cost more than its reservation |
| Settlement.NonDispatchNeverResolves | api/internal/app/m4_reconciliation.go:112-122 | evidence of non-dispatch never resolves an attempt of a reachable ledger |
| Settlement.EvidenceDecides | api/internal/app/m4_reconciliation.go:147-245 | an unaudited paid attempt is reconciled exactly if it is UNKNOWN and the evidence proves a price |
| Settlement.ReserveCoversOpenCalls | api/internal/app/m4_reconciliation.go:197-205 | the experiment's reserve always covers the call being resolved |
| Settlement.ReplayNeverMoves | api/internal/app/tools.go:534-541 | replaying the recorded settlement changes nothing and is accepted exactly if it is not late evidence |
| Settlement.UnresolvedReplay | api/internal/app/tools.go:534-541 | a call that a settlement leaves UNKNOWN acknowledges that settlement's replay if the record says the cost is unknown, and otherwise refuses it as evidence; the tables stay |
| Settlement.UnverifiedEstimateReplayIsRefused | api/internal/app/m4_reconciliation.go:257-286 | an estimate whose usage cannot be verified leaves the call UNKNOWN and its own replay is refused |
| Settlement.EvidenceReplayIsAccepted | api/internal/app/m4_reconciliation.go:172-186 | replaying the evidence that was applied is acknowledged and changes nothing |
| Settlement.SettleKeeps | api/internal/app/tools.go:499-602 | every settlement keeps ledger and audits, and settled rows never change |
| Settlement.ReconcileKeeps | api/internal/app/m4_reconciliation.go:147-245 | every reconciliation keeps ledger and audits; an unknown call keeps its record and never gains a receipt |
| Settlement.HonestSettleStaysWithin | api/internal/app/m3_settlement.go:91-143 | with prompts inside the allowance no settlement exceeds its reservation |
| Settlement.HonestReconcileStaysWithin | api/internal/app/m4_reconciliation.go:123-137 | nor does late evidence |
| JobLaws.ClaimKeeps | api/internal/app/m3_jobs.go:225-343 | a claim keeps every job, batch and call invariant and moves no money |
| JobLaws.RenewedLease | api/internal/app/m4_lease.go:35-51 | renewal neither shortens a lease, nor passes the deadline, nor revives an expired one; the lease then lasts as long as asked, or as it did if that was longer, or to the deadline |
| JobLaws.FinishKeeps | api/internal/app/m3_jobs_rpc.go:189-285 | every conclusion keeps the invariants and changes one job row |
| JobLaws.CancelsKeep | api/internal/app/m3_jobs_rpc.go:286-308 | both cancellations keep the invariants |
| JobLaws.StoreKeeps | api/internal/app/m3_jobs.go:362-382 | storing gives batch and job the same digest, once |
| JobLaws.CommitKeeps | api/internal/app/m3_jobs.go:383-407 | publication keeps the invariants and ends the job once |
| JobLaws.CreateJobKeeps | api/internal/app/m3_jobs.go:29-174 | creation links one job to one batch of the same run |
| JobLaws.BeginExtractionKeeps | api/internal/app/m2_extraction.go:165-217 | the new batch keeps the invariants |
| JobLaws.ProbeStepsKeep | api/internal/app/m2_extraction.go:293-428 | beginning a probe and opening documents keep the round, call and tool counters within limits |
| JobLaws.ReserveKeepsJobs | api/internal/app/m2_accounting.go:20-59 | an admission keeps one extraction and mapping per batch and counts each probe call |
| JobLaws.RecoverJobKeeps | api/internal/app/m4_job_recovery.go:63-118 | recovery of a job marks its open calls, keeps every invariant and only moves rows forward |
| JobLaws.TerminateJobKeeps | api/internal/app/m3_lifecycle.go:74-106 | termination does the same |
| JobLaws.FailRecoveryKeeps | api/internal/app/m4_recovery.go:98-137 | giving up recovery keeps the invariants |
| JobLaws.SweepOwnersKeeps | api/internal/app/m4_ownership.go:178-231 | stopping expired processes and giving up their calls keeps the invariants |
| JobLaws.SweepTerminalCallsKeeps | api/internal/app/m4_call_recovery.go:32-60 | so does giving up the calls of finished work |
| JobLaws.FinishRunKeeps | api/internal/app/server.go:659-809 | so does ending a run with calls in flight |
| Runs.StepKeeps | migrations/00012_m4_ownership.sql:45-66 | every transaction keeps the joint invariant and moves jobs, batches and calls only as the job trigger and the write-once rules allow |
| Safety.RunKeeps | api/internal/app/tools.go:415-590 | conservation, limits, halts, lanes, links and counters hold after any run, and nothing finished moves back |
| Safety.ReachedIsSound | api/internal/app/tools.go:276-602 | every state reached from an empty ledger satisfies the joint invariant |
| Safety.AcceptedWriterHoldsFence | api/internal/app/m3_jobs.go:175-223 | an accepted worker step carries the job's current owner and token |
| Safety.FencingOrdersWriters | api/internal/app/m3_jobs.go:175-223 | along any run accepted writers' tokens do not decrease, and equal tokens are the same owner |
| Safety.SupersededForever | api/internal/app/m3_jobs.go:332-343 | a worker below the present fence is never accepted again |
| Safety.TokenRisesExactly | api/internal/app/m3_jobs_rpc.go:243-274 | the token rises by one on claim, release, cancel, termination, recovery and given-up recovery, and on nothing else |
| Safety.OneExtractionPerBatch | api/internal/app/m2_accounting.go:44-53 | a batch never has two extraction calls |
| Safety.OneExtractionPerJob | api/internal/app/m2_accounting.go:44-53 | nor does a job |
| Safety.NeverExtractedTwice | api/internal/app/m2_accounting.go:44-53 | after one extraction of a batch no later state of any run admits another |
| Safety.RecordedIsSaved | api/internal/app/m4_job_recovery.go:121-147 | a recorded answer is the content of a settled extraction of that job |
| Safety.ClaimReusesTheOneAnswer | api/internal/app/m3_jobs.go:279-300 | a job with calls but no candidates is claimable only with recovery on, all calls settled and its only extraction holding content |
| Safety.RecoveryAgreesWithClaim | api/internal/app/m4_job_recovery.go:63-118 | with recovery on, a job is given up exactly when claiming could repeat a dispatch or only foreign answers touch it; with recovery off it never waits for a dispatch |
| Safety.TouchingCallsAreOwnOrForeign | api/internal/app/m3_jobs_rpc.go:233-242 | open calls of a job's check are its own, or another run's answer that names its batch |
| Safety.OpenCallEndsUnknown | api/internal/app/m3_jobs.go:279-285 | a job with an open call is not claimable, and no step but publication ends it other than as OUTCOME_UNKNOWN |
| Safety.OnlyPublicationIgnoresOpenCalls | api/internal/app/m3_jobs.go:383-407 | an accepted step ends a job that has an open call of its own other than as OUTCOME_UNKNOWN exactly if it is that job's publication |
| Witnesses.PublicationLeavesOpenCall | api/internal/app/m3_jobs.go:383-407 | a sound state whose accepted publication leaves the job COMMITTED with a call of its own still open |
| Safety.FailedJobsAreSettled | api/internal/app/m3_jobs_rpc.go:233-264 | a FAILED job has only settled calls in all later states, and is touched by an open call exactly through a foreign answer |
| Safety.FinishedForever | api/internal/app/m3_jobs.go:273-343 | terminal states absorb, candidates are write-once, RESULT_READY is exactly having candidates, leases end by the deadline |
| Safety.ProbeStaysBounded | api/internal/app/m2_extraction.go:312-399 | one round, two model calls equal to the ledger's probe rows, four tool calls, in every later state |
| Spending.EveryCapHoldsTogether | api/internal/app/m3_prefix.go:92-168 | run, stage, job, experiment, subexperiment and session limits all hold at once, up to overshoot, and the project limit with them whenever the latest paid call was admitted under a live session |
| Limits.RunBudgetHolds | api/internal/app/tools.go:357-367 | a run's calls never exceed its contract's cost and number, up to overshoot |
| Limits.ExperimentBudgetHolds | api/internal/app/m3_budget.go:159-199 | nor an experiment's its cap and count, nor its probes 10 CNY, or 0.1 CNY in the earlier ones |
| Limits.SubexperimentBudgetHolds | api/internal/app/m3_budget.go:176-190 | nor a subexperiment's its 20, 50 or 30 CNY and 200, 1000 or 800 calls |
| Limits.SessionBudgetHolds | api/internal/app/m3_budget.go:141-153 | nor a live session's its cap and count |
| Limits.ProjectBudgetHolds | api/internal/app/m3_budget.go:141-153 | the project stays within 100 CNY, up to overshoot, whenever the latest paid call was admitted under a session |
| Witnesses.UnreleasedCallPassesProjectCap | api/internal/app/tools.go:380-417 | a sound state at the project cap admits a paid call of an earlier experiment that takes the total over it |
| Spending.OnePaidCallPerLane | api/internal/app/m3_budget.go:126-136 | at most one paid answer and one paid other call are reserved |
| Spending.RunKeepsCaps | api/internal/app/m3_budget.go:159-175 | no run changes an experiment's cap |
| Spending.SpendNeverExceedsCap | api/internal/app/m3_budget.go:159-206 | known plus reserved never exceeds the initial cap plus summed overshoot, after any run |
| Spending.HonestSpendStaysWithinCap | api/internal/app/m3_settlement.go:91-143 | with prompts inside the allowance spend stays within the cap, no halt is for excess, and halted means an unknown call |
| Spending.StuckCallsStopPaidWork | api/internal/app/m3_budget.go:130-163 | an unknown or excessive paid call halts its experiment and refuses every paid admission |
| Spending.OvershootHaltsForever | api/internal/app/m4_reconciliation.go:232-252 | an excessive call halts its experiment in every later state, with no further paid attempt |
| Spending.HaltedAttemptsStay | api/internal/app/tools.go:380-398 | no step raises the attempt count of a halted experiment |
| Resumption.RecoveredIsResumable | api/internal/app/m4_job_recovery.go:63-118 | what recovery leaves unfinished has only settled calls, and an answer to reuse if it had any call |
| Resumption.RunResumable | api/internal/app/m4_job_recovery.go:14-120 | after any run an unheld unfinished job has nothing in flight that it could not reuse |
| Resumption.NoJobIsStranded | api/internal/app/m3_jobs.go:279-300 | an unfinished job of open work is under a running lease of a live process, due for recovery, or claimable at once, short of a foreign open answer |
| Resumption.CancellationsDisagree | api/internal/app/query.go:306-358 | the two cancellations label a job differently exactly when only a foreign answer is open on its batch |
| Witnesses.ForeignAnswerTouchesFailedJob | api/internal/app/m2_accounting.go:20-33 | a concrete sound state admits an answer that touches a FAILED job |
| Recovery.RecoveryMaterial | api/internal/app/m4_validation.go:33-92 | a recorded answer is told exactly if the job has one settled extraction, it is readable and nothing is open; unresolved exactly if something is |
| Recovery.RecordedIsTold | api/internal/app/m4_validation.go:70-109 | an answer that lets a job be claimed is the one that is told |
| Recovery.ToldAfterClaim | api/internal/app/m3_jobs_rpc.go:101-136 | a claimed job's worker is told its recorded answer exactly if the job ever had a call |
| Recovery.OnlyTheHolderAppends | api/internal/app/m3_jobs.go:175-223 | while a job's fence stands, over any steps, a call of the job is appended only by its holder's own reservation |
| Recovery.Worker.Begin | ai-runtime/src/crackrag_m1/m4_resume.py:77-147 | one dispatch exactly when nothing is recorded, stored or open and every gate allows it; exactly the due text is submitted |
| Recovery.Worker.ValidateAndPublish | ai-runtime/src/crackrag_m1/m4_resume.py:148-162 | publishes only validated candidates, and stops at the first failure |
| Recovery.Worker.Resume | ai-runtime/src/crackrag_m1/m4_resume.py:33-186 | every resumed job is published, concluded, or left by a lost lease; over stored candidates it is handed back as RESULT_READY unless the service refused or a sent request is unpriced; FAILED is never asked for over candidates, and an unpriced request that was sent ends as OUTCOME_UNKNOWN |
| Recovery.DispatchesOnlyUntouchedJobs | ai-runtime/src/crackrag_m1/m4_resume.py:113-147 | whatever others do between claim and reading, a worker whose fence still stands and who has not asked yet dispatches only for a job that never had a call, and otherwise submits the one recorded answer |
| Service.Server.ValidateJob | api/internal/app/m3_jobs.go:175-223 | accepts exactly the holder of the job's live lease and fence |
| Service.Server.OpenTransaction | api/internal/app/m2_extraction.go:50-111 | opens exactly for an authorized caller of a live run or job |
| Admission.BatchStepsAreGuarded | api/internal/app/m2_extraction.go:140-151 | storing, validating, publishing, beginning a probe and opening a document are each accepted exactly for a caller that may act, on its own open batch, in the batch's right state |
| Service.Server.CheckBatch | api/internal/app/m2_extraction.go:140-151 | accepts exactly a batch of the caller's run and job before its deadline |
| Service.Server.AdmitStage | api/internal/app/m2_accounting.go:20-59 | accepts exactly one generation per stage and batch, and a probe under the batch's own capability |
| Service.Server.ReadStageLimits | api/internal/app/m3_prefix.go:97-117 | refuses exactly a contract with a stage count outside the policy or a negative stage cost, and otherwise reads the tighter limits; in numbers, `Limits.OwnLimitsAreValid` |
| Service.Server.CheckStageBudgets | api/internal/app/m3_prefix.go:92-168 | accepts exactly what fits the narrowed stage limits of run and job; in numbers, `Limits.StageBudgetsInNumbers` |
| Limits.OwnLimitsAreValid | api/internal/app/m3_prefix.go:97-117 | a contract is refused exactly if its policy is unsupported, its stage counts are not whole numbers up to three, or a stage cost is negative |
| Limits.StageBudgetsInNumbers | api/internal/app/m3_prefix.go:92-168 | a stage budget refuses exactly a call for which the policy's grant or the contract's own lower figure has no room, in the run's stage or in the job |
| Limits.AdmissionKeepsStageBudgets | api/internal/app/m3_prefix.go:118-168 | after an accepted background call, the background and the probes of run and job occupy no more than the policy grants and no more than the contract states |
| Limits.StageBudgetsHold | api/internal/app/m3_prefix.go:92-125 | in every reachable ledger the stage budgets of a run hold, up to overshoot |
| Limits.JobBudgetsHold | api/internal/app/m3_prefix.go:136-168 | and so do those of each job |
| Service.Server.CheckBinding | api/internal/app/m3_prefix.go:125-191 | accepts exactly a call bound to its job's batch, prefix and state |
| Service.Server.AdmitM3Budget | api/internal/app/m3_budget.go:100-206 | accepts exactly what the request's labels, lanes, session, experiment, subexperiment and probe caps allow |
| Limits.PaidAdmissionInNumbers | api/internal/app/m3_budget.go:100-206 | a paid admission is accepted exactly within the lanes, the session, the project's 100 CNY, the experiment's cap and count, and the figures of subexperiment and probes |
| Service.Server.AdmitLegacyBudget | api/internal/app/tools.go:380-417 | accepts exactly one paid call at a time within the earlier experiments' caps |
| Service.Server.Admit | api/internal/app/tools.go:276-417 | the ordered checks accept exactly when the admission guard holds |
| Service.Server.ReserveCall | api/internal/app/tools.go:276-498 | an accepted admission inserts its row, reserve and probe count and nothing else; a refused one changes nothing |
| Admission.AdmissionNeedsAuthority | api/internal/app/tools.go:276-347 | an accepted request is of a current capability, for a new attempt, from the live foreground of a running run or the holder of a running lease |
| Admission.AdmissionIsBound | api/internal/app/m2_accounting.go:20-59 | it is about the caller's own batch: one extraction or mapping before there are candidates, at most two probes under the granted token, and a job's own batch and prefix |
| Admission.AdmittedRow | api/internal/app/tools.go:415-456 | the inserted row, its cold upper bound, and the reserve, attempt and probe that it counts for, in full |
| Admission.FirstExtractionIsAdmitted | api/internal/app/m2_accounting.go:36-53 | while the ledger has room, the holder of a running job without calls gets its extraction admitted |
| Admission.ProbeIsAdmitted | api/internal/app/m2_accounting.go:54-59 | and both calls of a granted probe round |
| Admission.AnswerIsAdmitted | api/internal/app/m2_accounting.go:20-35 | and the foreground of a running run its answers |
| Service.Server.ReconcileAttempt | api/internal/app/m4_reconciliation.go:147-245 | answers and changes the tables exactly as the reconciliation's specification |
| Service.Server.SettleCall | api/internal/app/tools.go:499-602 | answers and changes the tables exactly as the settlement's specification, late evidence included; what that charges is proved in `Billing` |
| Billing.VerifiedIsThePrice | api/internal/app/m3_settlement.go:91-143 | a record proves an amount exactly if its counts add up, no reply contradicts them, one rate held throughout, and the amount is the tariff's price of the counts |
| Billing.NothingSentMeans | api/internal/app/m3_settlement.go:25-41 | a record proves that nothing was sent exactly if dispatch, reason, status, amount, currency and usage all say so, and then it proves no price |
| Billing.ProvedEstimateIsBilled | api/internal/app/tools.go:567-590 | a proved estimate settles at exactly its cost: known rises by it, the reserve falls by the reservation, and the halt for excess is set exactly if the cost exceeds the reservation or it was set |
| Billing.UnprovedIsFreeOrUnknown | api/internal/app/tools.go:543-566 | any other record settles at zero if it proves that nothing was sent, and else leaves the call UNKNOWN with its reserve and the experiment halted |
| Billing.EarlierEstimateIsBilled | api/internal/app/tools.go:567-590 | the earlier experiments charge exactly the record's own amount |
| Billing.EarlierOtherRecords | api/internal/app/tools.go:553-566 | their other records: a malformed or negative amount is rejected without effect, a proof that nothing was sent is free, the rest is UNKNOWN |
| Billing.UnknownCallResolves | api/internal/app/m4_reconciliation.go:74-146 | an UNKNOWN call is resolved exactly by evidence about this very call, from a real reply, that proves a cost; it is charged that cost |
| Billing.LateEvidenceIsBilled | api/internal/app/m4_reconciliation.go:207-245 | an applied reconciliation charges the proved cost, frees the reservation and keeps the evidence |
| Billing.LateSettlementResolves | api/internal/app/m4_reconciliation.go:257-286 | the runtime's own late settlement does the same and may be repeated without effect |
| Billing.EveryChargeIsProved | api/internal/app/tools.go:499-602 | in every reachable ledger a settled paid call of the third experiment costs what its record or its late evidence proves, or nothing on a proof that it was never sent; of the earlier ones, its record's amount or nothing |
| Service.Server.CreateJob | api/internal/app/m3_jobs.go:29-174 | creates job and batch together, or returns the job this key already has |
| Admission.CreatedJobIsFree | api/internal/app/m3_jobs.go:29-174 | a job is created exactly once for its run and key, waiting, with one empty batch of its own; nobody holds it |
| Service.Server.BeginExtraction | api/internal/app/m2_extraction.go:165-217 | begins one open batch outside any job, or returns the batch of the same logical key and changes nothing; refused, it changes nothing |
| Service.Server.RecordedExtraction | api/internal/app/m4_job_recovery.go:121-147 | returns the content of the job's only settled extraction, or nothing |
| Service.Server.ClaimJob | api/internal/app/m3_jobs_rpc.go:101-136 | leases exactly a claimable job, under the next fence; the claimed row is `Leases.ClaimedRow`, and what a claim excludes and hands out is proved in `Leases` |
| Leases.HeldJobIsNotClaimed | api/internal/app/m3_jobs.go:276-278 | nobody can claim an unfinished job whose owner's lease still runs |
| Leases.OnlyWithdrawalEndsHold | api/internal/app/m3_jobs.go:332-343 | owner and token of a held job change only by its holder's own conclusion, a cancellation, a termination, or recovery after its process is gone |
| Leases.HeldRowIsTheHolders | api/internal/app/m3_jobs.go:175-223 | otherwise nothing but its holder's own accepted transactions changes the row of a held job |
| Leases.ClaimsDoNotOverlap | api/internal/app/m3_jobs.go:225-343 | over any run, between two accepted claims of one job the first lease ran out or its hold was withdrawn, under the first holder's token |
| Leases.ClaimHandsOutAuthority | api/internal/app/m3_jobs.go:225-343 | the claimant holds the job at once, in a run with time left, and every capability handed out before is void |
| Leases.ClaimedRow | api/internal/app/m3_jobs.go:300-343 | the claimed row: next token, this owner and process, a lease of the length asked or to the deadline, RUNNING or with candidates RESULT_READY |
| Admission.ClaimIsGuarded | api/internal/app/m3_jobs.go:225-275 | a claim is for at most three minutes, by a current caller of the job's own run, with time left, and after an interruption without recovery only to finish candidates |
| Endings.ClaimRepeatsNothing | api/internal/app/m3_jobs.go:279-300 | a claimed job has no open call on it, and if it called without storing candidates it has an answer to reuse, with recovery on |
| Leases.WritersAreInTime | api/internal/app/m3_jobs.go:175-223 | a worker's writes are accepted only while lease, process, run and job last |
| Leases.ConclusionsAreTheHolders | api/internal/app/m3_jobs_rpc.go:189-232 | a conclusion is the present holder's from a live process; repeated, it changes nothing |
| Leases.HolderCanConclude | api/internal/app/m3_jobs_rpc.go:189-232 | the holder can always conclude an unfinished job that nobody took, even after its lease ran out |
| Leases.HolderCanRenew | api/internal/app/m4_lease.go:13-62 | the holder of a job of an open run can renew at any time before the lease runs out |
| Admission.RenewalIsGuarded | api/internal/app/m4_lease.go:13-34 | a lease is renewed exactly for its holder, by the process it names, for at most twenty seconds |
| Service.Server.RenewJob | api/internal/app/m4_lease.go:13-62 | extends exactly a live lease, within the job's deadline |
| Service.Server.StoreCandidates | api/internal/app/m2_extraction.go:238-292 | stores the first submission for batch and job together and acknowledges the same text again |
| Endings.FirstTextStays | api/internal/app/m3_jobs.go:362-382 | the first text is the batch's and the job's for good; the same again changes nothing |
| Service.Server.ValidateCandidates | api/internal/app/m2_validator.go:573-693 | records a report exactly for a stored, uncommitted batch, whose state is then VALIDATED exactly if some candidate still is, and REJECTED exactly if all are |
| Service.Recheck | api/internal/app/m2_validator.go:619-640 | an observation rejects a candidate exactly if it contradicts the candidate's present source, and never improves an outcome |
| Service.Server.CommitExtraction | api/internal/app/m2_commit.go:17-170 | publishes exactly under the latest report and live fence, and ends the job |
| Endings.CommitLabels | api/internal/app/m3_jobs.go:383-407 | publication ends the job COMMITTED, with its batch, if any fact was published, and else SKIPPED; once |
| Service.Server.BeginProbe | api/internal/app/m2_extraction.go:293-368 | grants one round, to a batch whose report leaves doubts; on recovery resumes exactly a resolved round of a job with nothing open, and then changes nothing |
| Service.Server.OpenDocument | api/internal/app/m2_extraction.go:369-428 | counts exactly the permitted tool calls of the round |
| Endings.FourDocumentsAtMost | api/internal/app/m2_extraction.go:369-428 | along any run the probe of a batch opens at most four documents, each counted |
| Service.Server.FinishJob | api/internal/app/m3_jobs_rpc.go:189-285 | open calls and the deadline outrank the worker's label; the new row is exactly the conclusion's |
| Endings.FinishLabels | api/internal/app/m3_jobs_rpc.go:233-274 | the label a conclusion gives: OUTCOME_UNKNOWN over an open call, SKIPPED past the deadline, else as asked; the job is handed back only as RESULT_READY |
| Service.Server.CancelJobs | api/internal/app/m3_jobs_rpc.go:286-308 | every unfinished job of the run ends SKIPPED or OUTCOME_UNKNOWN, cancelled, under the next token; no worker of the run holds a job any more; every other job, call and budget is unchanged |
| Endings.CancellationLabels | api/internal/app/m3_jobs_rpc.go:286-308 | each unfinished job of the run ends OUTCOME_UNKNOWN over an open call and else SKIPPED, under the next token |
| Service.Server.CancelQuery | api/internal/app/query.go:306-358 | the same for a cancelled run, which is then neither queued nor running |
| Endings.QueryCancellationLabels | api/internal/app/query.go:306-358 | the same by the job's own calls alone, and an open run is CANCELLED |
| Service.Server.MarkUnresolved | api/internal/app/m4_call_recovery.go:12-31 | every lost RESERVED call is UNKNOWN and no other call changes; no money, count or cap moves; an experiment is halted exactly if it was or now has an UNKNOWN paid call in scope |
| Service.Server.RecoverJobLease | api/internal/app/m4_job_recovery.go:63-118 | applies the recovery decision to one abandoned job and its calls |
| Service.Server.RecoverJobsOf | api/internal/app/m4_job_recovery.go:41-118 | recovers each due and unlocked job of a run once; the result is a run of recovery steps |
| Service.Server.RecoverJobLeases | api/internal/app/m4_job_recovery.go:14-120 | recovers exactly the due and unlocked jobs of the selected runs, each once: no job of a live worker under a running lease, every other job with a worker, and no call but those that name a recovered job or its batch |
| Leases.LiveWorkIsNotDue | api/internal/app/m4_job_recovery.go:10-12 | a job whose lease runs and whose process lives is not due for recovery |
| Leases.DesertedWorkIsDue | api/internal/app/m4_job_recovery.go:10-23 | an unfinished job whose lease ran out, or whose process is absent, stopped or expired, is due |
| Service.CallsOfOthersStay | api/internal/app/m4_job_recovery.go:63-118 | the sweep gives up no call of a job that it does not recover |
| Endings.RecoveryLabels | api/internal/app/m4_job_recovery.go:63-118 | what recovery makes of the row and its calls: OUTCOME_UNKNOWN over an open call or without an answer to reuse, RESULT_READY with candidates, else waiting if recovery is on and skipped if not |
| Service.Server.TerminateJobRow | api/internal/app/m3_lifecycle.go:74-106 | gives up open calls, then ends the job accordingly |
| Endings.TerminationIsDue | api/internal/app/m3_lifecycle.go:40-73 | a job is terminated exactly once its time or run is over or its identity changed |
| Endings.TerminationLabels | api/internal/app/m3_lifecycle.go:74-106 | it ends OUTCOME_UNKNOWN over an open call, else SKIPPED, and its run's calls on it are given up |
| Service.Server.FailRecoveryOf | api/internal/app/m4_recovery.go:98-137 | ends exactly a job that no worker holds |
| Endings.GivenUpLabels | api/internal/app/m4_recovery.go:98-137 | recovery gives a job up exactly if no lease on it runs: OUTCOME_UNKNOWN over an open call, else FAILED |
| Service.Server.HeartbeatInstance | api/internal/app/m4_ownership.go:42-51 | extends exactly a live process |
| Endings.HeartbeatExtends | api/internal/app/m4_ownership.go:42-51 | a heartbeat extends a live process from now and revives nothing |
| Service.Server.RecoverOwnedWork | api/internal/app/m4_ownership.go:178-231 | stops expired processes, interrupts their runs and gives up their calls |
| Endings.OwnerSweepIsExact | api/internal/app/m4_ownership.go:178-231 | exactly the expired processes are stopped, the open runs of stopped ones interrupted, and their calls in flight given up |
| Endings.FinishedSweepIsExact | api/internal/app/m4_call_recovery.go:32-60 | the sweep over finished work gives up exactly the calls in flight of foregrounds and jobs that are over |
| Service.Server.FinishForeground | api/internal/app/server.go:659-809 | keeps an answer exactly if it is in time and not cancelled, and gives up the run's foreground calls |
| Endings.RunEndsAs | api/internal/app/server.go:715-809 | a run ends once, for its own live process: CANCELLED if asked for, TIMED_OUT if late, COMPLETED exactly if answered in time, else FAILED; its own calls in flight are given up |
| Service.SweepsCompose | api/internal/app/m4_job_recovery.go:41-118 | sweeping run after run is one run of recovery steps |
| Service.SweepsCover | api/internal/app/m4_job_recovery.go:14-62 | the jobs swept are exactly those due at the start among the runs visited |
| Delivery.ARowIsChosen | api/internal/recovery/service.go:119-131 | whenever rows are eligible, one of them comes first in the relay's order |
| Delivery.ChosenIsFirstDue | api/internal/recovery/service.go:119-131 | what the relay takes is due - never relayed, or of an unfinished job silent for longer than the replay delay - and no due row is passed over |
| Delivery.LaterKeeps | api/internal/recovery/service.go:119-268 | outbox, stream and records stay consistent through relays, crashes, losses, forged messages and redeliveries |
| Delivery.AcknowledgedMeansOver | api/internal/recovery/service.go:205-268 | an acknowledged message of a real row names a job that has ended, now and in every later state |
| Delivery.NoJobIsForgotten | api/internal/recovery/service.go:119-154 | an unfinished job's row is eligible or has unacknowledged messages; they remain in the stream unless it lost data, and the row becomes eligible again after the replay delay |
| Delivery.Courier.RelayOne | api/internal/recovery/service.go:119-154 | relays the first eligible row; fails exactly when there is one and the send fails, which changes nothing, or the relay dies, which leaves the message without the mark |
| Delivery.Courier.RelayOnce | api/internal/recovery/service.go:105-118 | stops at the first failure, a full batch or an empty outbox; tells how many rows were relayed, and exactly those messages and at most one unmarked one were sent |
| Delivery.Courier.ProcessMessage | api/internal/recovery/service.go:205-273 | acknowledges exactly behind a receipt or a dead letter, and writes a receipt only for a finished job |
| Delivery.HandlingIsRecorded | api/internal/recovery/service.go:205-268 | a message that names nothing real, or an ended job that cannot be handled, is a dead letter; a handled one of an ended job leaves a receipt; a recorded one is acknowledged unless the consumer dies; nothing else changes |
| Probe.Material | api/internal/app/m4_validation.go:133-190 | a round can be resumed exactly if every probe row is usable, no phase occurs twice and none is missing |
| Probe.Resume | ai-runtime/src/crackrag_m1/m4_probe.py:16-109 | exactly which phases are asked, which region is opened and when the round counts as observed, from what is already settled |
| ProbeRuns.EachPhaseOnce | ai-runtime/src/crackrag_m1/m4_probe.py:29-97 | from any start, over every interleaving of workers, crashes and other transactions, the probe calls of a job's batch in the call table are one choice, then at most one look after the choice is no longer reserved |
| ProbeRuns.AfterKeeps | api/internal/app/m4_validation.go:191-225 | every worker that still has its fence agrees with the call table on how far the round is, through claims, crashes and resumptions |
| ProbeRuns.ResolvedMeans | api/internal/app/m4_validation.go:133-190 | a round that a recovering worker is told is resolved resumes exactly where the call table stands |
| ProbeRuns.ResumeAsksInPlace | ai-runtime/src/crackrag_m1/m4_probe.py:29-97 | what a resumed round asks first is the phase at which it resumes, and the look only follows the choice |
| HotWindow.RecentSeed | api/internal/app/m3_cache_v2.go:235-259 | the scan finds a seed exactly if the history is bounded, its newest extraction hit the cache and some row supports the prefix; it is the newest such row |
| HotWindow.FitMeans | api/internal/app/m3_cache_v2.go:128-193 | a row supports a prefix exactly if it is a settled answer or extraction, really made, answered once and completely, sent as reserved under the prefix, with counts that add up, received within five seconds |
| HotWindow.SeedIsNewest | api/internal/app/m3_cache_v2.go:208-259 | on the whole call table the seed is the newest supporting call of the window, and the newest extraction hit the cache |
| HotWindow.IssueAgain | api/internal/app/m3_cache_v2.go:319-327 | observing again adds nothing and answers with the first decision |
| HotWindow.ProposalIsOk | api/internal/app/m3_cache_v2.go:308-319 | a decision counts from the seed's receipt and ends at the earliest of five seconds later, the job's deadline and its lease; it names this job, fence, owner and prefix |
| HotWindow.RemainingFits | api/internal/app/m3_cache_v2.go:346-355 | a reported window, cut to milliseconds, ends no later than the decision |
| HotWindow.OpenWindowIsReported | api/internal/app/m3_cache_v2.go:346-355 | a window that ends within five seconds is reported exactly if a millisecond of it is left, and then as its whole milliseconds |
| HotWindow.ReserveIsGrantedInTime | api/internal/app/m3_cache_v2.go:360-442 | the last check grants a HOT_ONLY extraction exactly if the stored decision was issued to this holder, still stands and has a millisecond left, and tells its whole milliseconds |
| HotWindow.SeedStandsMeans | api/internal/app/m3_cache_v2.go:412-432 | a decision's seed stands while its row names prefix, provider and price and supports the prefix since the same receipt |
| HotWindow.ClearedIsOk | api/internal/app/m3_cache_v2.go:360-442 | what the last check of an admission grants ends, on the client's clock, no later than the stored decision |
| HotWindow.DecisionTable.Observe | api/internal/app/m3_cache_v2.go:262-344 | refuses or answers with the stored decision, exactly while a millisecond of its window is left, in whole milliseconds; inserts at most the one proposal |
| HotWindow.Dispatcher.MarkDispatch | ai-runtime/src/crackrag_m1/model.py:131-148 | crosses the boundary exactly if the request may, and a refusal leaves no trace of a dispatch |
| HotWindow.DispatchIsInWindow | ai-runtime/src/crackrag_m1/model.py:116-140 | a HOT request is sent exactly if it was granted the decision it names and its window has not passed since the reservation was requested; any other request always is |
| HotRuns.LaterKeeps | api/internal/app/m3_cache_v2.go:319-344 | decisions are only added, and no later event moves one |
| HotRuns.HotDispatchIsInTime | ai-runtime/src/crackrag_m1/model.py:116-140 | every HOT_ONLY request that was sent was sent before the soft deadline of a stored decision, at most five seconds after the settled receipt of another call of the same provider and native prefix that was really sent and completely answered |
| HotRuns.UnknownNeverSeeds | api/internal/app/tools.go:590 | a call that is ever UNKNOWN supports no decision, before or after its cost is resolved |
| HotRuns.RepeatIsTheFirst | api/internal/app/m3_cache_v2.go:319-327 | after any events, observing for the same job, seed, calibration and fence answers with the first decision |
| Validator.ReadScopes | api/internal/app/m2_validator.go:73-96 | folds the scope declarations into support and conflict |
| Validator.ReadUnits | api/internal/app/m2_validator.go:101-151 | finds a unit and scale exactly if all declarations are supported and agree |
| Validator.FindHeader | api/internal/app/m2_validator.go:152-203 | finds a header exactly if it is the only one and has one column of the period |
| Validator.ReadRow | api/internal/app/m2_validator.go:239-288 | a row claiming the concept either proves the candidate or settles the outcome |
| Validator.ScanRows | api/internal/app/m2_validator.go:204-294 | succeeds exactly if one row claims the concept and it proves the candidate |
| Validator.CheckCell | api/internal/app/m2_validator.go:295-316 | accepts exactly the raw text whose scaled number is the value |
| Validator.SemanticSource | api/internal/app/m2_validator.go:17-327 | a value is VALIDATED exactly when the source proves it: one header, column, row, agreed scale, matching scope and one entity |
| Validator.OneWay | api/internal/app/m2_validator.go:152-203 | a table that proves the value proves it through one header and column only |
| Facts.WalkInputs | api/internal/app/m2_reads.go:46-47 | the walk returns exactly the transitive inputs, cycles included |
| Facts.CheckFact | api/internal/app/m2_reads.go:42-56 | a fact is read exactly if it and every transitive input are in scope and no input has a conflicting peer |
| Facts.OnlySpoiltFactsAreHidden | api/internal/app/m2_reads.go:42-56 | a stored fact is hidden exactly if it or a transitive input cannot be used, or a usable fact contradicts such an input |
| Facts.ReadFacts | api/internal/app/m2_reads.go:58-118 | returns exactly the current facts asked for, by id, up to the row limit |
| Facts.MatchedAndMissingPartition | api/internal/app/m2_reads.go:251-292 | matched and missing split the question |
| Facts.CoverageOf | api/internal/app/m2_reads.go:251-292 | status, matched, missing and conflicting requirements, each with its fact ids, follow from which requirements have exactly one value |
| Facts.StatusMeans | api/internal/app/m2_reads.go:275-291 | FULL, PARTIAL, MISSING and UNKNOWN from which requirements have exactly one value, whether facts were cut off, and whether a whole set was asked for |
| Facts.MatchedMeans | api/internal/app/m2_reads.go:251-272 | a requirement with one value is matched, with the facts that answer it |
| Facts.MissingMeans | api/internal/app/m2_reads.go:251-273 | any other is missing, as an unproved set, without a fact, or with conflicting values |
| Facts.ConflictsMean | api/internal/app/m2_reads.go:266-268 | only one with several values is a conflict |
| Facts.ReadPage | api/internal/app/m2_reads.go:323-374 | returns the longest page within the limits, and none exactly if none fits |
| Facts.FullMeansComplete | api/internal/app/m2_reads.go:347-371 | FULL comes only with a first page that holds every fact asked for; each requirement has one value in the whole store, and each fact and all its stored transitive inputs are in scope and undisputed |
| Facts.OneAnswerAmongAll | api/internal/app/m2_reads.go:206-212 | within the row limit one value among the facts read is one value in the store |
| Facts.ReadReused | api/internal/app/m2_reads.go:173-193 | finds the reused facts exactly if each is current and named once |
| Facts.StillDecided | api/internal/app/m2_reads.go:194-212 | decides exactly whether every reused question still has one answer and at most 200 current facts bear on them |
| Facts.ValidateReuse | api/internal/app/m2_reads.go:164-226 | accepts exactly unchanged current facts that are the only answer to their questions, if at most 200 current facts bear on those questions |
| Facts.ReadCounts | api/internal/app/m2_reads.go:58-118 | a read stays within the row limit exactly if at most 200 current facts are wanted |
| Facts.CrowdedReuseIsRefused | api/internal/app/m2_reads.go:206-212 | a store in which twenty unchanged, current and decided facts cannot be reused, because 201 facts bear on them |
| Publication.Publisher.Publish | api/internal/app/m2_commit.go:62-160 | publishes exactly under an unexpired bound report whose validated candidates all stand again, and then every due fact once with its evidence and inputs; otherwise nothing |
| Publication.PublishableMeans | api/internal/app/m2_commit.go:46-160 | when a report may be published, in its own fields and those of the candidates |
| Publication.ReplayPublishesNothingNew | api/internal/app/m2_commit.go:99-150 | publishing the same report again is accepted, changes no table and returns the same fact ids |
| Publication.OnlyValidatedIsPublished | api/internal/app/m2_commit.go:70-98 | every new fact comes from a candidate that the report validated and that was validated again with the same content |
| Answer.SupportedCounts | api/internal/app/release_answer.go:330-339 | the counter tells all, some and none apart |
| Answer.CheckDraft | api/internal/app/release_answer.go:224-278 | refuses exactly a draft with anything outside the question, illegible or not read |
| Answer.RenderItem | api/internal/app/release_answer.go:255-329 | a requirement is supported with a value exactly when facts and validated claims agree on that one value; its sources and reasons are exactly theirs |
| Answer.Render | api/internal/app/release_answer.go:218-343 | refusal, items, verdict, used facts and regions follow from the evidence |
| Answer.OrderAndRepetitionDoNotMatter | api/internal/app/release_answer.go:218-343 | neither order nor repetition of claims, abstentions or facts changes refusal, verdict, or any requirement's status, value and origin |
| Release.JudgeClaim | api/internal/app/release_answer.go:271-290 | a claim of an observed region supports its requirement exactly if the region proves its value |
| Release.SupportedMeansProved | api/internal/app/release_answer.go:271-329 | a supported value is the one of every proved claim and every matching fact; one that rests on no fact is proved by an observed region |
| Release.UnsupportedMeansUnproved | api/internal/app/release_answer.go:291-329 | a requirement is inconclusive exactly if neither facts nor proved claims give it a value, or they give two |
| UnionArea.Covered | ai-runtime/src/crackrag_m1/parser.py:108-113 | the running end of the sorted spans yields the number of rows in their union |
| UnionArea.SlabIsProduct | ai-runtime/src/crackrag_m1/parser.py:106-114 | between two consecutive edges the union is a full product of columns and rows |
| UnionArea.UnionOf | ai-runtime/src/crackrag_m1/parser.py:105-114 | the sweep computes exactly the number of cells in at least one box |
| UnionArea.ImageCoverage | ai-runtime/src/crackrag_m1/parser.py:98-115 | the ratio lies in [0, 1] and is exactly the covered share of the page |
| UnionArea.MoreImagesCoverMore | ai-runtime/src/crackrag_m1/parser.py:98-115 | another image never lowers the area; order and repetition do not matter |
| Terms.DistinctMeans | ai-runtime/src/crackrag_m1/embedding.py:13-18 | the index list keeps every term once, in order of first appearance |
| Terms.Tokenizer.TextTerms | api/internal/app/terms.go:9-54 | the one-pass tokenizer yields the first 64 terms of the index's run-splitting list, over ASCII and U+4E00 to U+9FFF |

## Left out

- Isolation inside a transaction: each is one atomic step at one instant, so checks that are repeated after a lock wait collapse into one, and lock order, deadlock and liveness under real time are not stated.
- One clock serves the database and the API process; the runtime's clock may differ from it by any constant, at the same rate.
- Float seconds of the runtime's clock are whole nanoseconds here.
- Amounts with more than eight decimals, numeric overflow of stored sums, and malformed decimals inside a run's contract.
- JSON documents are records; two documents are equal when their records are. Digests, tokens and UUIDs are compared for equality only.
- Tenant, document scope and unchanged configuration of a caller are the flags `valid` and `current`; `hot` of a request is the answer of `HotWindow.ForReserve`, set so in `HotRuns`; payload shape and price snapshot are `wellFormed`.
- Registered sessions, caps and opening balance are fixed at the start of a run; the freeze digest of a call is its session.
- LedgerLaws.ResolveAtZeroKeeps: the billing-export match that admits this reconciliation is not modelled, only its effect on the ledger.
- JobLaws.CommitKeeps: report expiry and the second validation are `Publication.Publisher.Publish`; here only the number of published facts arrives.
- Service.Server.CommitExtraction: the same; `published` is the number of facts that `Publication.Publisher.Publish` returns.
- Service.Server.ValidateCandidates: what the source says of each candidate is a parameter; for one candidate it is `Validator.SemanticSource`. The report's expiry is `Publication.Report.expires`.
- Service.Server.BeginProbe: what the ledger tells of a granted round is the parameter `resolved`, which is `Probe.Material` and `Probe.Resolved`.
- Publication.Publisher.Publish: the outcome of the second validation, content addresses and the report's binding to its run are inputs of the transaction, and the rows that tie a fact to its requirement (`fact_coverage`) are not modelled.
- Ledger rows written before process ownership existed.
- `created_at` as the last tie-break of the relay's order (the row id stands for it); message ids are never reused; Redis, SQL, gRPC and HTTP mechanics.
- The observation of a prefix writes an audit row without a fence check (api/internal/app/m3_jobs_rpc.go:163-176); the row takes part in nothing modelled here.
- HotWindow.RecentSeed: the other tenants' calls that share a prefix id are absent, because a prefix manifest belongs to one tenant; labels, stop reason and prefix text comparison are the three functions of `Reader`.
- HotWindow.ClearedIsOk: calibration documents and prefix profiles are the flag `configured`.
- The native prefix comparison itself, and the refresh of a stale planning view (api/internal/app/m3_prefix.go:21-54, 200-230).
- Validator.SemanticSource: lines and declarations arrive already read (header words, fiscal years, units, concepts, decimals), so the regular expressions, the catalog and number syntax are not modelled; the reviewed income-statement association is a predicate per header line.
- Recovery.Worker.Resume: the conclusion is what the worker asks for; what the service makes of it is `Service.Server.FinishJob`. Whether a stored validation report is still valid is the flag `reported`.
- Derived values and the geometric binding of a table to its preamble (`validateDerived`, `sourceIncomeTableContext`, `sourceBoundTablePreamble`, `bound_table_context`).
- Facts.ReadPage: the encoded size of a page is a function of its bounds.
- UnionArea.ImageCoverage: coordinates are integers, so floating-point rounding is not modelled.
- Terms.Tokenizer.TextTerms: characters outside ASCII and the unified ideographs, where both sides use different Unicode tables.
- Embeddings, prompts, PDF parsing, ranking queries, question parsing, the web client and release packaging.
