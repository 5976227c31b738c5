# Verification of WorkPilot's durable agent core

This project models the parts of the repository that carry state and guarantees, and proves what they promise.

- `Workflow` is the plan-then-execute graph: risk check, approval gate, tool executor, per-service records.
  `WorkflowProgress` proves what a run achieves: which calls it makes and how it ends.
- `Durable` holds the tables and one function per transaction; `Database` holds the same transactions as methods that
  assign rows; `Protocol` interleaves workers, stale candidates, heartbeats, crashes, approvals, lost locks and
  recoveries over one database; `QueueInvariant`, `ProtocolInvariant` and `ProtocolTheorems` prove what every
  interleaving keeps; `WorkerLoop` is `run_one` with the rest of the installation acting between its transactions.
- `LeaseTheorems`, `AttemptTheorems`, `PublicationTheorems`, `ApprovalTheorems` and `DecisionTheorems` prove, from the rows
  alone, what happens: when a job is taken, started, published, approved, recovered and carried out.
- `Investigation` is one bounded investigation, one step at a time; `Investigator` is the same as nested loops over
  fields; `InvestigationLedger` and `InvestigationLog` prove what each keeps for every reply of tools and model,
  `InvestigationRule` and `InvestigationOutcome` what it asks, how it goes on and how it ends.
- `Supervisor`, `SupervisorTheorems`, `Merge` and `ProgressDrain` are the concurrent branches with shared budgets, the
  follow-up, the merge, and the recording of progress events.
- `History` rebuilds evidence from the audit rows; `Facts` and `EvidenceVerifier` print facts and certify them;
  `SemanticReview` is the model's review of proposed claims; `ReviewedRun` and `VerifierRefusal` follow the claims of a
  whole run from the investigators' decisions to that review.
- `Bm25` with `Bm25Theorems`, `RunEvents` and `RetrievalCache` are the ranking index, the event broker and the index
  cache.

Tools, models, users, the clock, crashes and scheduling are inputs, restricted only by the checks in the code. Most
theorems quantify over all finite sequences of such inputs. Each imperative method is proved equal to a function of its
old state, and the theorems are about these functions.

Findings. The verifier's model decision is not always available: a model that states findings and itself names the
empty-window gap, a first task cut short by its deadline and the follow-up can use it up
(`ReviewedRun.VerifierGetsItsDecision` gives the exact condition, `VerifierRefusal.VerifierCanBeRefused` a run whose
claims are never reviewed). An edit of a knowledge document can go unseen by the index cache
(`RetrievalCache.MissedExactly` says exactly which one). A rebuilt knowledge search has no service, because its
completion event carries none (`History.RebuiltService`). The rule "no tool twice" rests on the limit of three attempts
(`InvestigationLedger.FourAttemptsRepeatATool`). The module docstring of `durable_attempt.py` says the primitives are not
wired to a worker yet; `durable_worker.py` does use them, and the model follows the code.

## Model

| member | source | states |
|---|---|---|
| Workflow.ApprovalNeededExactlyForHighPlans | backend/agent/risk.py:33-64 | Assessing a plan fails exactly when a step names no registered tool; the level is the highest declared one, raised to MEDIUM for an incident analysis of LOW tools; approval is required if and only if some step is HIGH, whatever the intent. |
| Workflow.DeclaredRiskIsHighest | backend/agent/risk.py:30-44 | The loop over the steps yields a level that no declared tool exceeds and that some tool has, or LOW. |
| Workflow.RecordInvestigationFailure | backend/agent/nodes.py:245-255 | In place: only the first record of the service changes; it keeps its evidence, takes the error, and becomes partial or failed by whether it has evidence. |
| Workflow.RecordInvestigationSuccess | backend/agent/nodes.py:258-278 | In place: only the first record of the service changes; it gains the observation and its citation, and its status follows an earlier error and the steps left for the service. |
| Workflow.SettledStep | backend/agent/nodes.py:245-278 | The incremental updates compute the closed form of a record: all observations of its service so far, the last failure, and a status that is a function of these and of the steps left. |
| Workflow.RunKeepsSound | backend/agent/graph.py:43-94 | For every run: position and call count agree and stay within plan and limit; a HIGH plan has run nothing or is approved; a refused plan has run nothing. |
| Workflow.NoHighPlanRunsUnapproved | backend/agent/graph.py:43-94 | In every run the tool executor is not reached with a HIGH plan unless approval was granted, and tool calls number at most min(plan length, limit). |
| Workflow.RefusedPlansRunNothing | backend/agent/nodes.py:281-287 | The two answers that say nothing was executed are given only when no tool was called. |
| Workflow.RunStops | backend/agent/graph.py:43-94 | From any sound state every further node lowers a measure until the run ends, interrupts or raises. |
| Workflow.EveryRunStops | backend/agent/nodes.py:202-216 | A new run stops within limit + 8 nodes, whatever tools, model and approver reply. |
| Workflow.StepKeepsUnattended | backend/agent/nodes.py:67-100 | A run nobody has answered never executes a HIGH plan: it can only interrupt to ask. |
| Workflow.ResumedRunNeverAsksAgain | backend/agent/nodes.py:103-132 | A run restored from a checkpoint keeps the saved plan, never plans or asks again, and calls tools only when the decision was to approve. |
| Workflow.RunKeepsTracked | backend/agent/nodes.py:135-199 | In every run with distinct services the evidence is exactly the successful outcomes in call order and every service record is the closed form of its outcomes. |
| Workflow.RunKeepsIsolated | backend/agent/nodes.py:158-175 | In a multi-service run no tool failure carries over: all steps within the limit are attempted. |
| Workflow.MultiServiceRunIsExact | backend/agent/nodes.py:135-278 | At the end of a multi-service run every step was attempted, observations are partitioned by service, and completed, partial and failed hold exactly by (evidence present, error present). |
| WorkflowProgress.ReadyRunsItsPlan | backend/agent/nodes.py:135-216 | From the tools on, a run in which nothing raises makes the calls of its plan in order, min(plan length, limit) of them, or up to the first failure when no services are tracked, and ends with the answer that these outcomes call for. |
| WorkflowProgress.ResumedRunDoesWhatWasDecided | backend/agent/nodes.py:103-132 | A run restored with approve goes on to all these calls and never ends with a refusal; one restored with reject or cancel calls nothing and ends with its own answer. |
| WorkflowProgress.GateDoesWhatIsDecided | backend/agent/nodes.py:67-100 | The same for a decision at the gate in memory; without a decision the run interrupts as it stands. |
| WorkflowProgress.NewRunIsExact | backend/agent/graph.py:43-94 | How any calm run ends, told from its intent, plan, registry and decision alone: no plan, unknown tool, interrupt, refusal, or the calls of the plan. |
| QueueInvariant.SubmitKeepsOk | backend/services/durable_queue.py:41-65 | Submitting keeps the queue invariant and rewrites no earlier row. |
| QueueInvariant.ClaimKeepsOk | backend/services/durable_queue.py:90-126 | The compare-and-swap with any candidate read earlier keeps the queue invariant and rewrites no past: claim, reclaim, exhaustion and miss. |
| QueueInvariant.RenewKeepsOk | backend/services/durable_queue.py:129-139 | Renewing, with a live or a dead claim, keeps the queue invariant and rewrites no past. |
| QueueInvariant.StartKeepsOk | backend/services/durable_attempt.py:29-64 | Allocating a private run keeps the queue invariant and links at most one run to an attempt, for good. |
| QueueInvariant.PublishKeepsOk | backend/services/durable_attempt.py:67-122 | Publishing keeps the queue invariant, on every return and on every raise. |
| QueueInvariant.FailUnstartedKeepsOk | backend/services/durable_attempt.py:125-149 | Giving a claim up keeps the queue invariant and the agreement of job, attempt and public run. |
| QueueInvariant.SyncKeepsOk | backend/services/durable_access.py:35-45 | Repairing a published approval keeps the queue invariant. |
| ProtocolInvariant.StepKeepsInv | backend/services/durable_worker.py:21-79 | Each of 27 kinds of step (clock, permissions, submission, stale claims, heartbeat, every worker transaction, crash, decision, resume, lost lock, recovery, sync) keeps the protocol invariant. |
| ProtocolInvariant.ReachableIsInv | backend/services/durable_worker.py:21-79 | Every state reachable by any interleaving satisfies the protocol invariant. |
| ProtocolInvariant.DeadStaysDead | backend/services/durable_queue.py:94-97 | A token that is not the live token of its job never becomes it again. |
| ProtocolInvariant.ReChecksNeverFire | backend/services/durable_attempt.py:102-114 | For a child made by start_attempt the identity and scope re-checks in publish never fail: publishing raises exactly when the child itself is not in a publishable state. |
| ProtocolTheorems.RunEvolves | backend/services/durable_attempt.py:94-122 | Over any run no step rewrites the past: attempt numbers only grow, a closed job never reopens or is queued again, a published link never changes. |
| ProtocolTheorems.HighStepsRunOnceAfterApproval | backend/services/agent_service.py:246-286 | Over every interleaving from an empty installation each HIGH step of a job is executed at most once, by the run the job published, after an approve decision for it; a call that raises counts as executed. |
| ProtocolTheorems.ExecutionFollowsCommittedApproval | backend/services/agent_service.py:249-286 | Only a resumed run executes anything HIGH, one step at a time, and its approve decision is already committed. |
| ProtocolTheorems.DecisionsAreFinal | backend/services/agent_service.py:246-262 | A committed decision is never changed or taken again. |
| ProtocolTheorems.RecoverySparesActiveApprovals | backend/services/approval_recovery_service.py:18-26 | While a resume holds its advisory lock, no recovery has failed its run or removed its checkpoint. |
| ProtocolTheorems.ClaimedApprovalIsNeverReopened | backend/services/approval_recovery_service.py:47-56 | A run whose approval was claimed never waits for approval again, whatever crashes and recoveries follow. |
| ProtocolTheorems.StaleClaimIsAtomic | backend/services/durable_queue.py:83-110 | If the compare-and-swap of a stale candidate hits, the decision to retry and the whole resulting state equal those of a claim that read the current row. |
| ProtocolTheorems.ClaimAbortsOnlyOnTokenCollision | backend/services/durable_queue.py:111-126 | The error about a missing active attempt is unreachable and the next attempt number is always free: a claim aborts only on a repeated random token. |
| ProtocolTheorems.QueueIsExact | backend/services/durable_queue.py:53-126 | In every reachable state a job is running iff it has a token iff it has a lease iff exactly one attempt, with its token and number, is running; attempt numbers are exactly 1 to attempts; attempts are within the limit, and at most one for unsafe work. |
| ProtocolTheorems.FencedForever | backend/services/durable_attempt.py:36-101 | Over whole runs: once a token is not live it never is again, and any later step of its worker leaves jobs, attempts, permissions, the clock, every other run and every other checkpoint as they were: it changes at most its own private run and that run's checkpoint. |
| ProtocolTheorems.PublishedOnceByLastAttempt | backend/services/durable_attempt.py:92-101 | The published link is written at most once and names the execution run of the last attempt. |
| ProtocolTheorems.PublicRunAgreesWithJob | backend/services/durable_attempt.py:92-149 | In every reachable state the public run is running iff its job is queued or running, and otherwise has the job's status. |
| ProtocolTheorems.RepairsCommute | backend/services/durable_access.py:35-45 | In every reachable state approval repairs may come in any order and any number: the result depends only on which jobs were repaired, and each job and public run ends as if its repair were the only one. |
| ProtocolTheorems.ReturnedWorkersHoldNothing | backend/services/durable_worker.py:30-79 | Whenever run_one has returned, its token is live on no job, on every path and after any interference. |
| ProtocolTheorems.RunOneNeverRaises | backend/services/durable_worker.py:35-75 | The errors run_one lets through (attempt missing or already allocated, second publication invalid) never occur. |
| ProtocolTheorems.ProgressLowersTotal | backend/services/durable_queue.py:90-126 | The sum over open jobs of max_attempts - attempts + 1 strictly drops at every claim, reclaim, exhaustion, give-up and publication. |
| ProtocolTheorems.ExecutionsAreBounded | backend/services/durable_queue.py:90-126 | In any run, claims, exhaustions and publications together are bounded by what the submitted jobs allow. |
| ProtocolTheorems.SubmissionIsIdempotent | backend/services/durable_queue.py:41-65 | At any later time the same key finds the first job, and conflicts if and only if the request differs; no second job is made. |
| PublicationTheorems.SubmitIsExact | backend/services/durable_queue.py:41-65 | A taken key changes nothing; a new one makes exactly one queued job with the limits and the retry permission asked for, and a running public run with its question and scope; limits outside 1 to 10 are refused. |
| ProtocolTheorems.StreamShowsOnlyCurrentWork | backend/services/durable_access.py:93-104 | A progress stream shows only the job's last attempt, never an expired one, and a running one only while its lease is live. |
| PublicationTheorems.StreamIsExact | backend/services/durable_access.py:93-104 | A stream shows the run of the attempt that holds the job, and what the job has published when nobody holds it. |
| LeaseTheorems.HeldJobIsNotTaken | backend/services/durable_queue.py:90-110 | While a lease runs, a claim from any candidate leaves its job and its attempt as they are. |
| LeaseTheorems.CandidateIsDue | backend/services/durable_queue.py:83-89 | The candidate is the lowest job that is queued or running with its lease end at or before now; there is none exactly when there is no such job. |
| LeaseTheorems.ClaimIsExact | backend/services/durable_queue.py:90-126 | For every stale candidate: a job no longer due is left alone; a due one is claimed under the fresh token, with the next number and a new lease, when it may be tried; otherwise job, attempt and public run are failed for good. |
| LeaseTheorems.LeaseHolds | backend/services/durable_queue.py:90-139 | Over whole runs: a claim stays live, and its job row untouched, until the clock reaches its lease end or its own holder renews or ends it. |
| LeaseTheorems.RenewalHolds | backend/services/durable_queue.py:129-139 | A renewal succeeds exactly while the lease runs, moves its end to now plus the seconds given, and keeps the claim live until then whatever others do. |
| AttemptTheorems.StartIsExact | backend/services/durable_attempt.py:29-64 | A held, unallocated claim gets its private run if and only if the creator is still a member and every service is still granted; the run copies the submitted one; otherwise giving up fails job, attempt and public run. |
| AttemptTheorems.PublishIsExact | backend/services/durable_attempt.py:67-122 | An attempt publishes if and only if its lease runs and its run ended or waits with a valid undecided checkpoint; then the public run has the intent, status, answer, end and latency of that run. |
| AttemptTheorems.RepairIsExact | backend/services/durable_access.py:35-45 | A repair acts exactly on a waiting job whose published run ended, and then the public run shows that run. |
| PublicationTheorems.ResultIsPublished | backend/services/durable_worker.py:70-79 | A result whose claim is still live after whatever others did is published exactly as it was reached. |
| PublicationTheorems.InvestigationIsPublished | backend/services/durable_worker.py:56-79 | An investigation, from its end over the check to publication with anything in between, puts its status, answer and latency on job and public run. |
| PublicationTheorems.FailureIsPublished | backend/services/durable_worker.py:63-79 | An execution that raised or left its run unfinished is published as failed with its code. |
| ApprovalTheorems.GrantIsExact | backend/services/agent_service.py:226-262 | A decision is granted if and only if the run waits with its own undecided checkpoint that is not over; with the saved state, never after the deadline, and never a second time. |
| ApprovalTheorems.ApprovalWaits | backend/services/approval_recovery_service.py:13-58 | Over whole runs: a published approval waits with its checkpoint unchanged until it is decided or its time is over, whatever workers, crashes and recoveries do. |
| DecisionTheorems.ResumeRunsItsGraph | backend/services/agent_service.py:264-286 | A resume that is not interrupted runs the restored graph on the replies it gets, and every HIGH call it makes is in the history. |
| DecisionTheorems.DecisionIsCarriedOut | backend/services/agent_service.py:246-286 | A granted decision that is not interrupted is carried out amid everything else: approve makes all the calls of the saved plan, logged when HIGH; reject and cancel make none and say so. |
| DecisionTheorems.CarriedOutEnds | backend/services/agent_service.py:318-329 | Then the run ends: failed after a refusal or a call that broke it off, completed otherwise, and its checkpoint is gone. |
| Database.Database.SubmitJob | backend/services/durable_queue.py:41-65 | The row-by-row transaction has exactly the effect and result of the specified transaction (likewise for the rows below). |
| Database.Database.SelectCandidate | backend/services/durable_queue.py:83-89 | The query finds the claimable job with the lowest id, or none, and changes nothing. |
| Database.Database.ClaimCandidate | backend/services/durable_queue.py:90-126 | The claiming update on a possibly stale candidate, with its expiry and exhaustion branches. |
| Database.Database.RenewLease | backend/services/durable_queue.py:129-139 | The fenced renewal. |
| Database.Database.AllocateAttempt | backend/services/durable_attempt.py:29-64 | The allocation of a private run, with the lost lease, the corrupt attempt and the changed scope told apart. |
| Database.Database.PublishClaim | backend/services/durable_attempt.py:67-122 | The publication; when it returns false or raises, nothing is changed. |
| Database.Database.FailUnstartedClaim | backend/services/durable_attempt.py:125-149 | The failure of a claim that never allocated a run. |
| Database.Database.FailPrivateRun | backend/services/durable_worker.py:82-89 | The failure of a private run. |
| Database.Database.MarkRunWaiting | backend/services/agent_service.py:406-438 | The checkpoint and the waiting status, for a new and for an existing checkpoint row. |
| Database.Database.FinishAgentRun | backend/services/agent_service.py:441-467 | The end of a run and the removal of its checkpoint. |
| Database.Database.ClaimWaitingRun | backend/services/agent_service.py:226-262 | The single claim of a waiting run, with every refusal and the two unrecoverable cases. |
| Database.Database.FailUnrecoverable | backend/services/agent_service.py:485-496 | The failure of an approval that cannot be resumed. |
| Database.Database.ReconcileOne | backend/services/approval_recovery_service.py:29-58 | The recovery of one checkpoint: dropped, failed or still waiting. |
| Database.Database.ReconcileAll | backend/services/approval_recovery_service.py:13-26 | The recovery loop with its counters; locked approvals are skipped and counted as active. |
| Database.Database.SyncPublishedApproval | backend/services/durable_access.py:35-45 | The repair of a published approval. |
| Database.RecoveryIsPerRun | backend/services/approval_recovery_service.py:13-58 | Recovering many approvals is recovering each alone: locked or unlisted ones keep their rows, and the counts are those of the single outcomes. |
| Database.NothingAmbiguousSurvives | backend/services/approval_recovery_service.py:35-56 | After a recovery no unlocked listed approval is left claimed or expired: it is waiting and undecided, or gone. |
| ApprovalTheorems.RecoveryIsExact | backend/services/approval_recovery_service.py:13-58 | From the rows alone: an unlocked approval of an unended run stays, waiting and unchanged, exactly while it is undecided and not over; otherwise its run fails with the reason; the checkpoint of an ended run goes; the three counts are those of these cases. |
| ApprovalTheorems.SavedApprovalSurvives | backend/services/agent_service.py:406-438 | An approval expires 24 hours after it was saved, and until then survives every recovery undecided. |
| WorkerLoop.Installation.Execute | backend/services/durable_worker.py:56-69 | Execution, with anything the installation may do in between, ends to be checked or failed, on the same private run and claim. |
| WorkerLoop.Installation.RunOne | backend/services/durable_worker.py:21-79 | run_one with arbitrary foreign steps between each two of its transactions: it works exactly when its compare-and-swap obtains the claim, then goes through all its steps and leaves no live lease. |
| InvestigationLedger.TaskLedger | backend/services/multi_agent_runtime.py:105-256 | For every reply of tools and model, any stop or deadline and any claims of other branches, with limit at most 3: no tool is selected twice; a step has at most two attempts, the second only right after a transient first failure; attempt records number attempts_used unless aborted; completed attempts and observations are the same in the same order, with distinct ids, all in the task's scope. |
| InvestigationLedger.DecisionsAreBounded | backend/agent/diagnostic_agents.py:80-103 | A task asks the model at most once per selected tool and at most limit times, and no more often than it called tools unless it was cut short. |
| InvestigationLedger.FourAttemptsRepeatATool | backend/services/multi_agent_runtime.py:251-256 | The limit matters: with four attempts a concrete run selects the knowledge search twice. |
| InvestigationLedger.AdvanceKeepsLedger | backend/services/multi_agent_runtime.py:105-256 | Every single step of the nested loops keeps the ledger invariant. |
| InvestigationLog.LogExplainsObservations | backend/services/multi_agent_runtime.py:169-215 | At every point the trace has one completion event per observation, in order; each observation is the output of the only completed call of its tool; a call rejected as out of scope is of a tool no observation has. |
| InvestigationRule.TaskStaysInScope | backend/services/multi_agent_runtime.py:269-300 | A task asks only about its service, the last 60 minutes or in a follow-up the last 24 hours; a delivered result is evidence if and only if all its records are of the service. |
| InvestigationRule.RuleIsFollowed | backend/services/multi_agent_runtime.py:251-256 | A task without a model, or whose model never answers, that is not cut short asks logs, then tickets, then the knowledge exactly when the tickets failed or found nothing; with a model it may stop earlier only to keep its last attempt. |
| InvestigationRule.FailedDecisionFollowsRule | backend/services/multi_agent_runtime.py:230-256 | Any decision the model fails to give continues by that rule, unless the last attempt is kept for the wider window. |
| InvestigationRule.UsableReplyIsFollowed | backend/services/multi_agent_runtime.py:216-250 | A reply with claims on known evidence that stops or names a tool not asked yet, while attempts are left for it, is followed: next tool, numbered findings, gaps. |
| InvestigationOutcome.OutcomeIsExact | backend/services/multi_agent_runtime.py:139-266 | A transient first failure is repeated at once while an attempt is left; the errors are one for each step lost and each decision lost; stop reason and status of a finished task follow from errors, evidence and cuts. |
| InvestigationOutcome.FollowupAttemptIsKept | backend/services/multi_agent_runtime.py:219-225 | With a model, a service whose first window was empty keeps an attempt for the wider one whatever tools and model reply, unless a transient failure was repeated. |
| Investigator.ToolBudget.Claim | backend/services/multi_agent_runtime.py:35-40 | A claim is granted exactly while the budget is not used up, and counts one. |
| Investigator.TaskRun.SelectTool | backend/services/multi_agent_runtime.py:106-127 | Loop head, LOW check and selection, as the specified step. |
| Investigator.TaskRun.ClaimAttempt | backend/services/multi_agent_runtime.py:128-138 | Head of the attempt loop: stop, deadline, local limit, shared budget, in this order. |
| Investigator.TaskRun.CountTries | backend/services/multi_agent_runtime.py:140-142 | The attempt number counts the recorded attempts of the step. |
| Investigator.TaskRun.CallTool | backend/services/multi_agent_runtime.py:139-215 | The call and its four outcomes: abort, failure with or without retry, rejection, observation. |
| Investigator.TaskRun.DecideNext | backend/services/multi_agent_runtime.py:216-256 | The model decision with the attempt kept back for the follow-up, and the rule when the model is absent or fails. |
| Investigator.TaskRun.Finish | backend/services/multi_agent_runtime.py:257-266 | Stop reason and status of the finished task. |
| Investigator.TaskRun.Run | backend/services/multi_agent_runtime.py:69-267 | The nested loops over changing fields and shared budgets end for every world, and end in the state of the step function that the ledger theorems are about. |
| SupervisorTheorems.BranchesDoNotInterfere | backend/services/multi_agent_service.py:145-178 | For at most three services and every interleaving, each branch ends exactly where it would alone with budgets of its own: no branch starves another and no result depends on scheduling. |
| SupervisorTheorems.BudgetsAreConserved | backend/services/multi_agent_service.py:98-102 | At every moment the shared budget equals the attempts made and in flight, the model budget the decisions asked; a service stays within three of each; a branch about to claim is never refused. |
| SupervisorTheorems.FollowupIsFirstEligible | backend/services/multi_agent_service.py:337-357 | The follow-up goes to the first task that still has an attempt, recorded an empty window and did not query the wide one; there is none exactly when no task is like that or the budget is spent. |
| SupervisorTheorems.FollowUpStaysInBudget | backend/services/multi_agent_service.py:187-210 | With its follow-up a service has at most three attempts and the run at most nine; the follow-up is never refused and asks the model at most once. |
| InvestigationOutcome.FollowupLooksWider | backend/services/multi_agent_service.py:187-210 | The follow-up has exactly the attempts its service has left and, when not stopped, asks the logs of the last 24 hours and nothing else. |
| VerifierRefusal.WideWindowIsNew | backend/services/multi_agent_service.py:337-357 | For the merged tasks of a run the checks for an earlier wide query never refuse: a task is eligible exactly when it has an attempt left and the empty-window gap. |
| ReviewedRun.AloneKeepsFindings | backend/agent/diagnostic_agents.py:95-102 | Whatever tools and model reply, the findings of a task are numbered in order, at most four, and each cites one to six known observations and nothing else. |
| ReviewedRun.VerifierGetsItsDecision | backend/agent/diagnostic_agents.py:105-112 | For every run: the review has no claims exactly when no task has findings; it is refused its model decision exactly when some task has findings, every service asked three times and a follow-up asked once, which takes a first task cut short by stop or deadline; without a follow-up it never is. |
| VerifierRefusal.VerifierCanBeRefused | backend/agent/diagnostic_agents.py:105-112 | A concrete run of one service with a claim that cites a ticket of the run, in which the follow-up the supervisor chooses spends the fourth of four model decisions: every review of it ends without a budget. |
| Merge.Report.MergeOutcome | backend/services/multi_agent_service.py:313-325 | Appending one outcome numbers its observations after those already there. |
| Merge.Report.MergeResults | backend/services/multi_agent_service.py:175-184 | Results collected in any finish order are merged by service number: the report is the same for every order. |
| Merge.MergedLedger | backend/services/multi_agent_service.py:313-325 | The merged evidence has steps 1 to n in service order, holds every observation once with an identity of its own, each in the scope of its task. |
| Merge.RunIsSeparate | backend/services/multi_agent_service.py:160-212 | Every run, in every interleaving and with or without a follow-up, gives tasks to which the merge theorem applies. |
| Merge.SummariesSplitEvidence | backend/services/multi_agent_service.py:360-379 | The per-service summaries split the merged evidence without loss or repetition; a service failed exactly when it has no evidence, and is partial exactly when it has some and one of its tasks is not complete. |
| ProgressDrain.SortKeepsBranchOrder | backend/services/multi_agent_service.py:328-334 | Sorting a batch by time keeps the order of each branch's events. |
| ProgressDrain.Drain | backend/services/multi_agent_service.py:162-174 | The wait loop stops after the first wait that saw all branches finished, with the batches recorded one after the other. |
| ProgressDrain.EveryEventIsRecordedOnce | backend/services/multi_agent_service.py:162-174 | Everything a branch ever sends is in the trace exactly once and in the order it was sent, because the queue is drained after the last wait. |
| History.RunDetail | backend/services/run_history_service.py:86-127 | The reconstruction loops compute the specified rebuilding: event by id, first matching call, removed once used, record numbers taken from the output. |
| History.HistoryRoundTrip | backend/services/run_history_service.py:86-127 | From the interleaved call log and trace of a run the detail rebuilds the merged evidence: same ids, order, steps, tools, statuses, record numbers, outputs. |
| History.RunIsDistinguished | backend/services/multi_agent_runtime.py:290-296 | The round trip applies to every run over distinct services, in every interleaving and with or without a follow-up: no two completed calls share tool and inputs. |
| History.RejectedCallsAreNotEvidence | backend/services/multi_agent_runtime.py:169-183 | A call rejected as out of scope is logged as completed, but shares its key with no evidence, so none is rebuilt from it. |
| Facts.CollectFacts | backend/services/multi_agent_service.py:461-479 | The proposing loop stops after the record that reaches ten facts and keeps the first ten. |
| Facts.DecimalValue | backend/agent/evidence_verifier.py:57-57 | Reading a printed numeral gives the number back. |
| EvidenceVerifier.ParseIsRecord | backend/agent/evidence_verifier.py:12-13 | Parsing gives a record fact exactly when the whole text fits the pattern with those parts. |
| EvidenceVerifier.ParseIsCount | backend/agent/evidence_verifier.py:11-11 | Parsing gives a count fact exactly when the whole text fits the pattern with those parts. |
| EvidenceVerifier.Verify | backend/agent/evidence_verifier.py:21-88 | The report has one claim per text in order, judged or left unverified; it fails exactly past the deadline or past fifteen claims. |
| EvidenceVerifier.LogFactRoundTrip | backend/services/multi_agent_service.py:467-470 | A fact printed from a log row of the evidence is certified if and only if the id is natural and the error type is a non-empty line. |
| EvidenceVerifier.TicketFactRoundTrip | backend/services/multi_agent_service.py:471-474 | The same for a ticket row and its status. |
| EvidenceVerifier.CountFactRoundTrip | backend/services/multi_agent_service.py:475-476 | A printed count is certified if and only if the total is not negative. |
| EvidenceVerifier.SupportedMeansRecorded | backend/agent/evidence_verifier.py:46-87 | Any certified text names a record of the evidence that says the same: a row of that id, value and service, or the count of that tool. |
| EvidenceVerifier.CandidateFactsAreCertified | backend/services/multi_agent_service.py:461-479 | Every fact proposed from printable evidence in scope is certified, and with at most five hypotheses the claim limit is never reached. |
| SemanticReview.ReviewClaim | backend/agent/diagnostic_agents.py:29-41 | The loop over the numeric patterns decides as specified. |
| SemanticReview.LatestIsLast | backend/agent/diagnostic_agents.py:107-108 | Each service speaks through its last task with findings and no other. |
| SemanticReview.ReviewIsExact | backend/agent/diagnostic_agents.py:105-137 | A review completes exactly when there are claims, the budget grants it, and the verdicts are one for each proposed claim; it then keeps the claims in order. |
| ReviewedRun.RunIsReviewed | backend/services/multi_agent_service.py:223-238 | For every run: a review completes exactly when a task has findings, a decision is left and the verdicts match the claims one to one, which always fit the reply; every reviewed claim cites merged evidence, so only its verdict and its numeric bounds decide its support. |
| Bm25.Index.constructor | backend/retrieval/bm25.py:31-50 | The precomputed tables are the term counts, lengths, average and inverse frequencies of the documents. |
| Bm25.Create | backend/retrieval/bm25.py:25-28 | The two parameter errors, in order, and an index otherwise. |
| Bm25.Index.Scores | backend/retrieval/bm25.py:52-72 | The table-driven loops compute the direct formula for every document, and no division is by zero. |
| Bm25.Index.TopK | backend/retrieval/bm25.py:74-84 | The first `limit` hits of the ranking; an error below one. |
| Bm25.RepeatedTermsAreIgnored | backend/retrieval/bm25.py:59-59 | A score depends only on the set of query terms. |
| Bm25Theorems.TermScoreIsOkapi | backend/retrieval/bm25.py:43-72 | The share of a term is the Okapi formula over plain counts: places in the document, documents that hold it, and all places. |
| Bm25Theorems.ScoreAddsShares | backend/retrieval/bm25.py:59-71 | A score is the sum of the shares of the different query terms: a term adds its share the first time and nothing after. |
| Bm25Theorems.RarerTermsWeighMore | backend/retrieval/bm25.py:43-50 | At equal counts and lengths the term in fewer documents has the strictly greater share, for every increasing logarithm. |
| Bm25Theorems.MoreOccurrencesScoreMore | backend/retrieval/bm25.py:63-71 | At equal lengths more occurrences give a strictly greater share. |
| Bm25Theorems.ShorterDocumentsScoreMore | backend/retrieval/bm25.py:61-71 | At equal counts a shorter document has no smaller share, and a strictly greater one when b is positive. |
| Bm25.PositiveIffSharesATerm | backend/retrieval/bm25.py:60-72 | A score is never negative, and positive if and only if the document shares a term with the query. |
| Bm25.RankingIsComplete | backend/retrieval/bm25.py:78-83 | The ranking holds every positive document once, in strict order of score, then position. |
| Bm25.OrderedIsUnique | backend/retrieval/bm25.py:83-83 | The order is total: one arrangement of a set of hits. |
| Bm25.BestAreFirst | backend/retrieval/bm25.py:74-84 | Nothing positive that is left out ranks before anything listed, and a larger limit only extends the list. |
| Bm25Theorems.ListIsByScore | backend/retrieval/bm25.py:74-84 | From the scores alone: higher scores first, ties by position, each positive document once, and none left out unless the list is full of better or equal earlier ones. |
| RunEvents.RunEventBroker.Publish | backend/services/run_event_service.py:29-46 | One more numbered event; what is held is again exactly the last max events, and other runs are untouched. |
| RunEvents.TrimRetains | backend/services/run_event_service.py:41-43 | Appending and trimming keeps exactly the last min(n, max) events. |
| RunEvents.RunEventBroker.HasEvents | backend/services/run_event_service.py:48-50 | Whether anything is retained for the run. |
| RunEvents.RunEventBroker.Read | backend/services/run_event_service.py:62-76 | A locked read returns the retained events above the cursor and whether the run ended. |
| RunEvents.RunEventBroker.Stream | backend/services/run_event_service.py:52-88 | The stream loop, with publications between its reads, delivers what the specified consumer delivers and ends when it ends. |
| RunEvents.StreamsKeepOrder | backend/services/run_event_service.py:59-88 | For every interleaving the delivered numbers strictly increase above the start, every delivered event is genuine, and retained events up to the cursor were delivered. |
| RunEvents.EndedStreamIsComplete | backend/services/run_event_service.py:76-88 | The read that ends a stream leaves nothing retained above its start undelivered. |
| RunEvents.StreamEndsWithTheRun | backend/services/run_event_service.py:76-88 | A stream ends with the first read after the run was declared finished, and not before. |
| RunEvents.ResumingIsSeamless | backend/services/run_event_service.py:52-88 | Without eviction, breaking off anywhere and resuming from the last number gives the history without gap or repeat, and all of it once the stream ends. |
| RetrievalCache.KnowledgeBase.GetRetriever | backend/services/retrieval_service.py:65-87 | After any history of inserts under any stamps, deletes, and edits and moves whose stamp is later than what is cached for the categories they end in, the returned index is that of a fresh build; only its own entry changes. |
| RetrievalCache.UnchangedVersionIsUnchangedContent | backend/services/retrieval_service.py:90-106 | If every row now in the category was in the cached content or has a later stamp or a higher id than all of it, an unchanged (count, latest update, highest id) means an unchanged corpus. |
| RetrievalCache.MissedExactly | backend/services/retrieval_service.py:90-106 | A single write leaves the version but changes the index if and only if it edits the text or category of a document that stays in the searched category, under a stamp not above the category's greatest, which the new stamp or another document still has; inserts, deletes and moves are never missed alone. |
| RetrievalCache.RepeatedStampHidesAnEdit | backend/services/retrieval_service.py:90-106 | An input: editing a lone document under its old stamp leaves the version and changes the index. |

## Left out

- HTTP routes, login, cookies, error envelopes, server-sent-event text, the frontend and the command line scripts.
- SQL itself: a transaction is one atomic step on all tables, except that the candidate read and the compare-and-swap of
  a claim are two. Database conflicts that make a worker retry are steps that change nothing.
- Reads at different instants inside one transaction: the clock stands still within a transaction. The two reads of the
  retrieval cache (version, then rows) are taken from one database snapshot.
- `finish_claim`: `run_one` never calls it, and it closes a job without its public run.
- Approval of runs that are not behind a durable job, and the foreign keys and deletions of teams, users and runs.
- Random tokens and request ids are inputs. A repeated token aborts a claim; request ids of private runs may repeat.
- Audit texts: the final answers of investigations, risk reasons and notices, decision reasons, prompts, summaries.
- The trace events of model calls (`llm_started`, `llm_call`) and the parent's own trace events.
- Workers per run: branches interleave freely, which covers one or two workers.
- Errors of the database session inside an investigation are the replies that abort it.
- Investigation.CallTool: rows are records with an id or a document number, a service, an error type and a status; other
  fields of a row, and rows that are not objects, are not modelled. Ids that the source formats as strings are structured
  values.
- EvidenceVerifier.Verify: digits and word characters are the ASCII ones; the source's patterns also accept other
  Unicode decimal digits.
- SemanticReview.ReviewClaim: the four numeric patterns and the printing of cited evidence are functions passed in. Of the
  shape of model replies the limits on claims are modelled; types, other texts and the parsing belong to the gateway.
- Bm25.Index.Scores: arithmetic is over the reals and the logarithm is any function that is positive above one (and
  increasing there, where weights are compared); rounding of scores is not modelled. Tokenising is outside.
- Bm25.Index.TopK: the library sort is written as insertion by the same key.
- RunEvents.RunEventBroker.Stream: waiting and heartbeats are reads that find nothing; a client that leaves is a bound on
  the number of reads. The event limit is a natural number.
- RetrievalCache.KnowledgeBase.GetRetriever: agreement is proved for edits that do not hide behind a cached stamp; the
  clock of the source does not guarantee that, and `RetrievalCache.MissedExactly` says which edits hide. Row ids are never
  given twice. Searches for one team, which build their index each time, are not cached and not modelled, and the
  document's title and source are part of its text.
- ProgressDrain.EveryEventIsRecordedOnce: it assumes that a branch's clock does not run backwards and that a branch sends
  nothing after it finished.
- ProtocolTheorems.StreamShowsOnlyCurrentWork: it says which run a progress stream reads; the cursor over trace rows and
  the access checks of the stream are not modelled.
- Database.Database.SubmitJob: key and request digests are numbers, so two requests that hash alike are one.
- Workflow.MultiServiceRunIsExact: services of a plan are distinct, as the planner makes them.
- Text compaction for the model, the incident analyser's own text, alert, review, ingestion and SQL tools.
