# A verified model of the agentic-run control plane

The control plane drives coding runs through leased jobs: a planner, competing
coder candidates, deterministic build, test and static-analysis stages, a
reviewer, repairs and retries. This project models its hard parts in Dafny and
proves what the design promises about them, for every input, every interleaving
and every history.

`dafny verify dfyconfig.toml` checks the whole project.

| part | files |
|---|---|
| Run workflow: run, candidates, jobs and the orchestrator's decisions | `RunStateMachine`, `Run`, `Candidate`, `Job`, `Failures`, `Ordering`, `Selection`, `Workflow`, `Orchestrator` |
| Run workflow: what every history keeps, and the exact conditions | `WorkflowQueue`, `WorkflowSafety`, `WorkflowBounds`, `WorkflowScripts`, `WorkflowExact`, `WorkflowGeneral`, `WorkflowProgress`, `WorkflowTermination`, `WorkflowEarned`, `WorkflowUnearned`, `WorkflowWaiting` |
| Run workflow: what each decision and each execution does, record by record | `WorkflowDecisions`, `WorkflowOutcomes` |
| Run workflow with claims in line, and the queue that carries it out | `WorkflowInLine`, `WorkflowClaims` |
| Leased job queue: in-memory adapter, Lua scripts, fencing, simulation | `Queue`, `QueueInvariant`, `QueueFencing`, `InMemoryJobQueue`, `RedisScripts`, `RedisStore`, `QueueSimulation` |
| Task-graph layering, two algorithms | `Plan`, `PlannerOutput` |
| Per-run lock | `RunLock` |
| JSON span scanner | `JsonSpans` |
| Workers and schedulers | `Worker`, `Scheduling` |
| Model preparation on a shared volume | `ModelState` |

## How the model is built

Code that updates objects is a class here too (`Run`, `Candidate`, `Job`,
`Worker`, `Orchestrator`, `InMemoryJobQueue`, `RedisJobStore`,
`InProcessRunCoordinator`, `RoundRobinScheduler`, `ModelVolume`), with its
loops. Each method is proved equal to a function on the object's value, and the
theorems are proved of those functions over whole histories: `Replay` for the
entities, `Exec` for the workflow, the queue and the lock.

The workflow keeps a job's stored row apart from the copy that the queue offers.
A claim takes the copy, whatever the row says; `QueueFencing.ReleaseIgnoresTheBudget`
shows the same of the queue itself. A decision (`Advance`) may come at any time:
one follows every execution, and every restart of the orchestrator asks for one
more (src/bootstrap/app.py:79).

An execution is one step, placed where it reports, and may take any offer. The
queue hands jobs out by priority and then age, so a younger job reports before
an older offer of its priority only when the older one is in flight in another
slot (src/application/orchestration/executor.py:36 sets eight) or in another
orchestrator, or was lost at a restart, where its copy dies with the lease.
Histories without that, one claim at a time and each in line as `run_once`
makes them (lines 86-108 of the same file), are `InLineRun`;
`WorkflowClaims.RunIsRelayed` shows that the queue carries them out command by
command.

What the functions compute is also said without them, of the fields of the
records: which candidate a decision takes, what each exception leads to, which
stage is due, when a report is viable, which job is ahead in line
(`WorkflowDecisions`, `WorkflowOutcomes`, and the lemmas named `...Means` and
`CallTable`). There a candidate is "presentable" when its patch changes
something and no result shows it broken, static analysis counting only when it
is blocking, and "in the running" while it is under way or presentable.

Models, tools, the hub, the clock, token generation, the order in which Redis
lists a set and what other processes do are arguments, so that every theorem
holds for whatever they answer. Times are whole milliseconds that never go
back; lease tokens are numbered in the order they are issued; ids are numbers
in the order of their text.

## What the code does that its documentation does not say

Each of these has a lemma with the exact condition.

Here "within" means that no retry budget of the policy exceeds a job's own
`max_attempts`. The shipped wiring takes `max_attempts` from the settings and
leaves the policy at 3, so a smaller setting is not within.

- Job attempts are said to have a budget (README.md:20-22). No job is executed
  more often than its `max_attempts` if and only if the policy is within
  (`WorkflowExact.ExecutionsPerJobExactly`). The failure path gives the job back
  to the queue whenever the policy retries
  (src/application/orchestration/orchestrator.py:711), before the row refuses to
  requeue (line 718). The row is DEAD and the job is still handed out, until the
  policy gives up.
- "Every loop is bounded" (README.md:20-22) holds for the jobs a run opens if
  and only if every configured stage always reports: no command is configured, or every
  configured tool is available and the policy is within
  (`WorkflowExact.WorkIsBoundedExactly`). A stage whose tool is missing adds no
  result, and the next decision opens it again; the shipped factory makes a tool
  for every declared command (src/infrastructure/tools/commands.py:190-222), so
  this takes another `ToolExecutorFactory`. A spent stage job looks finished,
  so a decision that comes before it is handed out again opens another; such
  decisions come from restarts or from other executions of the same run. That
  half takes jobs that overtake each other: with every job claimed in line the
  jobs are bounded, whatever the policy, if and only if every configured tool is
  available (`WorkflowInLine.InLineWorkIsBoundedExactly`).
- Every run ends, with a bound known in advance on the events that can change it
  and always something left to do until then, if and only if there are no
  commands and no repairs, or there are commands, their tools are all available
  and the policy is within (`WorkflowTermination.EveryRunEndsExactly`).
- A run is never stuck, that is, its next decision is legal and something is on
  offer, opened or ended, if and only if: without commands, no repair is allowed;
  with commands, the policy is within, or at most one repair is allowed, or the
  first command's tool is missing (`WorkflowProgress.ProgressExactly`). Without
  commands an empty patch asks for CODING to REPAIRING, which the transition
  table does not allow. With commands, a spent stage job can fail repaired code
  before the run has left CODING, which asks for the same.
- A completed run has earned it (one winner with a PASS, a patch and passed
  tools, all newer than its latest repair) if and only if the policy is within,
  or some configured tool is missing, or no repair is allowed, or there is one
  candidate with one repair or without commands
  (`WorkflowUnearned.EarnedExactly`). Otherwise a review job that is spent and
  still on offer can record its PASS after the candidate has been repaired, and
  the decision then takes the only passed candidate although the selection
  refuses it. A missing tool is harmless here only because such a run never
  reaches a review, let alone completes.
- Everything on offer is wanted, and no candidate is named twice, if and only if
  the policy is within, or there is one candidate, no command and no repair
  (`WorkflowWaiting.WaitingIsUnambiguousExactly`).
- `Job.lease_to` counts the attempt and sets LEASED before the lease is built.
  A non-positive duration leaves a LEASED job without a lease
  (`Jobs.LeaseNeedsPositiveDuration`), and in the in-memory queue a QUEUED job
  outside its ready map (`QueueInvariant.ClaimNeedsPositiveDuration`).
- The adapters break ties between job types differently: the script keeps the
  type listed first, the in-memory queue takes the lower id
  (`QueueSimulation.PicksAgreeExactly`, `QueueSimulation.TiedJobsDiverge`).
- Reclaiming clears `completed_at` in the in-memory queue and not in the script
  (`QueueSimulation.ReclaimsAgreeExactly`).
- A prepared model pinned to a moving ref, such as a branch name, is fetched
  again by every later call, because the marker records the snapshot's name
  (`ModelPreparation.NextCallFetchesExactly`). The fallback to the sizes in an
  earlier marker does not compare model ids; the model keeps that.
- The scanner yields spans in the order of the text, where its comment says
  longest first.

## Model

| member | source | states |
|---|---|---|
| `WorkflowExact.WorkIsBoundedExactly` | src/application/orchestration/orchestrator.py:390-682 | For every configuration: no history of answers, failures, redeliveries, decisions and cancellations, jobs overtaking each other included, opens more than 4n + 5R + 1 jobs (one more with a plan), if and only if every configured stage always reports; otherwise every number is exceeded by some history |
| `WorkflowBounds.WorkIsBounded` | src/application/orchestration/orchestrator.py:520-682 | Under that condition every history opens at most 4n + 5R + 1 jobs (one more with a plan); without commands the same for any retry budget |
| `WorkflowBounds.BoundedWithin` | src/application/orchestration/orchestrator.py:520-682 | With all tools available and the policy within, in every reachable live state the jobs opened plus a potential over repairs left, run stage and missing stages stay within that budget |
| `WorkflowBounds.ExecutionsAreBounded` | src/application/orchestration/orchestrator.py:687-724 | Retries and redeliveries included, the executions of a run never exceed the job budget times the larger of the policy's two budgets |
| `WorkflowExact.UnboundedOtherwise` | src/application/orchestration/orchestrator.py:402-407 | For any bound, a concrete history that exceeds it: when a configured tool is missing, with every job claimed in line; when the policy is not within, with younger jobs that overtake the spent ones |
| `WorkflowInLine.InLineWorkIsBoundedExactly` | src/application/orchestration/orchestrator.py:560-724 | Over histories that claim one job at a time and in line: at most 7n + 8R + 1 jobs (one more with a plan), whatever the retry policy, if and only if every configured tool is available; otherwise every number is exceeded |
| `WorkflowInLine.LineAlways` | src/application/orchestration/orchestrator.py:560-724 | In such a history only the oldest offer of a priority was ever executed, and the jobs opened, plus what the run may still open, counting for each stage a candidate has yet to run two jobs less its offers, stay within that budget |
| `WorkflowInLine.InLineChangesAreBounded` | src/application/orchestration/orchestrator.py:520-724 | In such a history the events that change anything are bounded by the job budget times the policy's attempts and one more, plus one |
| `WorkflowClaims.ClaimIsInLine` | src/application/orchestration/executor.py:78-84 | When the queue's ready jobs are the offers of the run, a claim for every job type returns a job if and only if it is the first offer in line |
| `WorkflowClaims.StepIsRelayed` | src/application/orchestration/orchestrator.py:687-724 | One event of the workflow, as commands to the queue (publish; claim and then acknowledge, release or release and publish; cancel), keeps the ready jobs equal to the offers |
| `WorkflowClaims.RunIsRelayed` | src/application/orchestration/executor.py:86-108 | The commands of a whole run claimed in line, from an empty queue, are admissible and leave the queue with exactly the run's offers ready, same work and same attempts |
| `WorkflowExact.ExecutionsPerJobExactly` | src/application/orchestration/orchestrator.py:687-724 | In every history no job is executed more often than its `max_attempts`, if and only if no retry budget of the policy exceeds it |
| `WorkflowExact.OverrunOtherwise` | src/application/orchestration/orchestrator.py:711-718 | Otherwise a concrete history that executes the first job more often: its row is DEAD and the queue still hands it out |
| `WorkflowTermination.EveryRunEndsExactly` | src/application/orchestration/orchestrator.py:520-724 | The events that change a run are bounded in number and, until it has ended, some worker or decision can change it, if and only if no commands and no repairs, or commands with all tools available and the policy within |
| `WorkflowTermination.ChangesAreBounded` | src/application/orchestration/orchestrator.py:520-724 | When every configured stage always reports, a history with more than B changing events has ended its run, and none has more than B + 1, for B the job budget times the policy's attempts and one more |
| `WorkflowTermination.DeadEnd` | src/application/orchestration/orchestrator.py:649-682 | No command configured and a repair left: a concrete history after which the run is live and neither a worker nor a decision can change anything |
| `WorkflowBounds.AttemptsAreExecutions` | src/application/orchestration/orchestrator.py:173-185 | In every history the attempt counter of a row is the number of times its job was executed, redeliveries of a dead row included |
| `WorkflowQueue.TrackedAlways` | src/application/orchestration/orchestrator.py:687-724 | For every configuration and history: a queued row is on offer as it stands, a copy on offer asks for what its row asked for with the attempts spent so far, and no attempt count passes the larger of the policy's budgets |
| `WorkflowQueue.ExecuteOutcome` | src/application/orchestration/orchestrator.py:173-261 | Claiming a job of a live run has three outcomes: handled and off offer, failed and on offer again, or failed with the run ended; only its own row and candidate move |
| `WorkflowGeneral.GeneralAlways` | src/application/orchestration/orchestrator.py:520-724 | For every configuration and history: candidates are sound, only available configured tools report, a coding candidate has a coder on offer, and nobody is judged before the first review |
| `WorkflowProgress.ProgressExactly` | src/application/orchestration/orchestrator.py:520-724 | In every history the next decision is legal and a job is on offer, or opened, or the run ends, if and only if: no command and no repair; or commands and (the policy is within, or at most one repair, or the first tool is missing) |
| `WorkflowProgress.StuckOnIllegalRepair` | src/domain/services/run_state_machine.py:21-45 | No command configured and a repair left: a concrete history after which the next decision raises |
| `WorkflowProgress.StuckOnSpentStage` | src/application/orchestration/orchestrator.py:649-724 | Commands, two repairs and a policy that is not within: a concrete history in which a spent stage job fails repaired code and the next decision raises |
| `WorkflowWaiting.WaitingIsUnambiguousExactly` | src/application/orchestration/orchestrator.py:560-724 | In every history of a live run everything on offer asks for what its candidate's state calls for and no two offers name the same candidate, if and only if the policy is within, or there is one candidate, no command and no repair |
| `WorkflowWaiting.TwiceOffered` | src/application/orchestration/orchestrator.py:560-612 | Otherwise, with a command: a concrete history after which two jobs for the same stage of the same candidate are on offer |
| `WorkflowUnearned.EarnedExactly` | src/application/orchestration/orchestrator.py:612-647 | In every history a completed run has earned it, if and only if the policy is within, or a configured tool is missing, or no repair is allowed, or there is one candidate with one repair or without commands |
| `WorkflowEarned.EarnedHolds` | src/application/orchestration/orchestrator.py:612-647 | The positive half, redeliveries of dead rows included: one SELECTED candidate, the others REJECTED, with a PASS, a patch and passed tools, all newer than its latest repair |
| `WorkflowUnearned.UnearnedAmongMany` | src/application/orchestration/orchestrator.py:612-647 | Two candidates or more and a repair, policy not within: a concrete history whose winner has an empty patch |
| `WorkflowUnearned.UnearnedAlone` | src/application/orchestration/orchestrator.py:612-647 | One candidate, a command and two repairs, policy not within: a concrete history whose winner has a verdict older than its latest repair |
| `WorkflowSafety.CompletionIsEarned` | src/application/orchestration/orchestrator.py:612-647 | With the policy within, in every reachable COMPLETED run exactly one candidate is SELECTED and the others are REJECTED; the winner has a PASS, a non-empty patch, a passed result for every configured build and test, and every result and the verdict are newer than its latest repair |
| `WorkflowSafety.InvAlways` | src/application/orchestration/orchestrator.py:520-724 | With the policy within, the invariant tying run status, candidate statuses, queued jobs, offers and verdicts holds after every history, and nothing is on offer whose row is finished |
| `WorkflowOutcomes.ExceptionDecides` | src/application/orchestration/orchestrator.py:687-724 | For each of the seven exceptions, on a live run: the job is on offer again with one more attempt and the run unchanged, if and only if that attempt is below the exception's budget (the structured-output repairs for an invalid structured output, the policy's attempts for the others); the row is queued while the job's own budget lasts and DEAD after; otherwise the run is FAILED with the exception's kind |
| `WorkflowOutcomes.StrayWorkIsAFailure` | src/application/orchestration/orchestrator.py:241-515 | An answer for a candidate or a run in another state than its job needs counts as an infrastructure failure of the attempt |
| `WorkflowOutcomes.LateClaimIsDropped` | src/application/orchestration/orchestrator.py:241-249 | On a run that has ended a claimed job is CANCELLED and off offer, and nothing else moves |
| `WorkflowOutcomes.CancelStopsEverything` | src/application/use_cases/runs.py:129-157 | Cancelling a live run: run CANCELLED, every candidate and job that is not over CANCELLED, the others unchanged, nothing on offer |
| `WorkflowOutcomes.CancelOnce` | src/domain/entities/run.py:358-363 | A run that has ended or is being cancelled is left alone |
| `Failures.PolicyTable` | src/domain/services/retry_policy.py:67-111 | The action after a failed attempt, for each of the eight kinds |
| `WorkflowSafety.AnswerShape` | src/application/orchestration/orchestrator.py:263-515 | An answered execution finishes its job and changes only its own candidate, or the run status for a plan |
| `WorkflowDecisions.BestIsReviewed` | src/application/orchestration/orchestrator.py:576-610 | When no stage is due and somebody settled is presentable, the one job opened is a NORMAL review of the candidate that beats every other presentable one by PASS, tests, build, patch, then churn, then index; validation is closed under the run's own rule |
| `WorkflowDecisions.BestPassedWins` | src/application/orchestration/orchestrator.py:612-647 | After a review that somebody passed, the best of those who passed is SELECTED and recorded on the COMPLETED run, if it is presentable; if it is not, the first who passed is; everybody else is REJECTED |
| `WorkflowDecisions.AdvisoryAnalysisIsNoObstacle` | src/domain/value_objects/validation.py:60-68 | A settled candidate with a patch, an unbroken build and unbroken tests goes to review in spite of a failed analysis that is only advisory: it, or one preferred to it |
| `WorkflowDecisions.FirstSettledIsRepaired` | src/application/orchestration/orchestrator.py:600-610 | When nobody settled is presentable, the settled candidate with the lowest index is sent back with a HIGH code job, or the run fails by review without a repair left; from CODING the decision raises |
| `WorkflowDecisions.FirstFailedIsRepaired` | src/application/orchestration/orchestrator.py:633-647 | After a review that nobody passed, the first candidate with a verdict is sent back, or candidate 0 without any; or the run fails by review |
| `WorkflowDecisions.RepairMeans` | src/application/orchestration/orchestrator.py:649-682 | The candidate sent back keeps patch and verdict, loses its evidence and counts a repair; the run counts one too |
| `WorkflowDecisions.DueStagesAreOpened` | src/application/orchestration/orchestrator.py:560-590 | As long as some stage is due, the jobs opened are exactly one HIGH job for each candidate with a due stage, for that stage, in the order of the candidates |
| `WorkflowDecisions.CodersAreOpened` | src/application/orchestration/orchestrator.py:742-771 | The first round: candidates 0 to n - 1 coding with nothing to show, each with its NORMAL code job |
| `WorkflowDecisions.PlanIsOpened` | src/application/orchestration/orchestrator.py:729-740 | A run that needs a plan opens one NORMAL plan job and counts a revision |
| `WorkflowDecisions.OthersWait` | src/application/orchestration/orchestrator.py:520-540 | A run that has ended, is planning or has a job under way is left as it is |
| `WorkflowDecisions.CodersAreAwaited` | src/application/orchestration/orchestrator.py:590-599 | With everybody still coding nothing is decided |
| `WorkflowSafety.StageJobsShape` | src/application/orchestration/orchestrator.py:560-612 | The stages opened are, in candidate order, exactly one next stage for each candidate that awaits one |
| `Orchestration.Orchestrator.Advance` | src/application/orchestration/orchestrator.py:520-558 | The decision, with its loops, makes exactly the step of the state machine, and a decision that raises changes nothing |
| `Orchestration.Orchestrator.DecideCandidates` | src/application/orchestration/orchestrator.py:560-610 | Looping over the candidates gives the same settled candidates and follow-up jobs as the state machine, error cases included |
| `Orchestration.Orchestrator.DecideReview` | src/application/orchestration/orchestrator.py:612-647 | Same, for completing, repairing or failing after a review |
| `Orchestration.Orchestrator.DecideRepair` | src/application/orchestration/orchestrator.py:649-682 | Same, for one repair or the end of the run |
| `Orchestration.Orchestrator.Execute` | src/application/orchestration/orchestrator.py:173-261 | Claiming and executing what the queue offers, a job whose row is dead included, with any answer or exception, makes exactly the step of the state machine |
| `Orchestration.Orchestrator.Fail` | src/application/orchestration/orchestrator.py:687-724 | A failed execution makes exactly the failure step of the state machine: the offer renewed whenever the policy retries, before the row is asked to requeue |
| `Orchestration.Orchestrator.DecideFirstStage` | src/application/orchestration/orchestrator.py:729-740 | Opens the plan job or the first round as the state machine does |
| `Orchestration.Orchestrator.OpenAll` | src/application/orchestration/orchestrator.py:742-771 | Looping over the indices opens every candidate with its code job, in order |
| `Orchestration.Orchestrator.AnyUnfinished` | src/application/orchestration/orchestrator.py:901-902 | True exactly when some job of the run is not terminal |
| `Orchestration.Orchestrator.Published` | src/application/orchestration/orchestrator.py:845-860 | Storing the new jobs and offering them one by one adds exactly those rows and offers |
| `Orchestration.Orchestrator.Cancel` | src/application/use_cases/runs.py:129-157 | Cancels run, candidates, jobs and offers as one step of the state machine |
| `Runs.RunLoopsAreBounded` | src/domain/entities/run.py:261-396 | Over every sequence of calls from creation: CODING is entered at most repairs + 1 times, reviews equal entries to REVIEWING and are at most repairs + 1, repairs at most their budget |
| `Runs.PaidAlways` | src/domain/entities/run.py:280-320 | The accounting behind it: each visit to CODING but the first is paid for by a repair, each review by a visit to CODING |
| `Runs.TerminalRunsAreFinal` | src/domain/entities/run.py:339-396 | No sequence of calls changes a terminal run, except the noted selection |
| `Runs.CallTable` | src/domain/entities/run.py:261-396 | Every call on the run, field by field, refused exactly where the transition table does not let the target be entered |
| `Runs.TableByTarget` | src/domain/services/run_state_machine.py:21-45 | The transition table read by target: which statuses may enter each |
| `Runs.RevisionsAreVisits` | src/domain/entities/run.py:261-328 | Over every sequence of calls the revisions counted are the visits to PLANNING |
| `Runs.Run.RequestRepair` | src/domain/entities/run.py:300-319 | An exhausted budget is an answer and changes nothing; an illegal state raises; otherwise REPAIRING and one repair spent |
| `Runs.Run.RequestCancellation` | src/domain/entities/run.py:358-363 | Stops a live run once; terminal and already stopping runs are left alone |
| `Runs.Run.constructor` | src/domain/entities/run.py:126-158 | A new run is CREATED with its budgets, nothing spent and nothing selected |
| `Runs.Run.Transition` | src/domain/entities/run.py:383-396 | The status changes exactly when the table allows it, and nothing else does |
| `Runs.Run.StartPlanning` | src/domain/entities/run.py:261-265 | PLANNING and one revision counted where the table allows it, otherwise refused and unchanged |
| `Runs.Run.PlanReady` | src/domain/entities/run.py:267-278 | PLAN_READY where the table allows it, otherwise refused and unchanged |
| `Runs.Run.StartCoding` | src/domain/entities/run.py:280-283 | CODING where the table allows it, otherwise refused and unchanged |
| `Runs.Run.StartValidating` | src/domain/entities/run.py:285-286 | VALIDATING where the table allows it, otherwise refused and unchanged |
| `Runs.Run.StartReviewing` | src/domain/entities/run.py:288-298 | REVIEWING and one review counted where the table allows it, otherwise refused and unchanged |
| `Runs.Run.RequestPlanRevision` | src/domain/entities/run.py:321-328 | Granted only within the budget and the table; an exhausted budget changes nothing |
| `Runs.Run.Select` | src/domain/entities/run.py:330-337 | Notes the selection and changes nothing else |
| `Runs.Run.Complete` | src/domain/entities/run.py:339-346 | COMPLETED with the given winner where the table allows it, otherwise refused and unchanged |
| `Runs.Run.Fail` | src/domain/entities/run.py:348-356 | FAILED with its cause; a terminal run is left alone |
| `Runs.Run.ConfirmCancelled` | src/domain/entities/run.py:365-372 | CANCELLED where the table allows it; a cancelled run is left alone |
| `Candidates.EvidenceStaysCurrent` | src/domain/entities/candidate.py:225-300 | Over every sequence of calls every tool result in the report was appended after the latest repair, when no report handed in to `record_validation` holds an older one |
| `Candidates.EvidenceCurrentExactly` | src/domain/entities/candidate.py:241-300 | All along a sequence of calls the evidence is current if and only if every report handed in was |
| `Candidates.EvidenceStep` | src/domain/entities/candidate.py:241-300 | One call on current evidence keeps it current if and only if a report it hands in is current |
| `Candidates.TerminalCandidatesAreFinal` | src/domain/entities/candidate.py:276-327 | Over every sequence of calls a terminal candidate keeps everything but a late verdict |
| `Candidates.ViableMeans` | src/domain/value_objects/validation.py:31-68 | A report is viable if and only if no build or test result has a non-zero exit code and, when static analysis is blocking, none of its results has |
| `Candidates.NextStageMeans` | src/application/orchestration/orchestrator.py:905-932 | The next stage is the one that is configured, has not run, has every configured stage before it run and nothing before it broken; there is none exactly when no stage is so |
| `Candidates.CallTable` | src/domain/entities/candidate.py:204-327 | Every call on the candidate, field by field, and when it is refused |
| `Candidates.RoundsAreCounted` | src/domain/entities/candidate.py:204-300 | Over every sequence of calls repairs are the repairs not refused, and coder rounds those and the starts |
| `Candidates.Candidate.StartRepair` | src/domain/entities/candidate.py:279-300 | Back to coding with the evidence dropped, unless terminal |
| `Candidates.Candidate.RecordValidation` | src/domain/entities/candidate.py:253-274 | VALIDATED only from VALIDATING, on the report handed in or else the accumulated one, with the blocking rule of the run |
| `Candidates.Candidate.constructor` | src/domain/entities/candidate.py:103-108 | A new candidate has no patch, no evidence and no verdict |
| `Candidates.Candidate.StartCoding` | src/domain/entities/candidate.py:204-219 | CODING and one coder iteration counted, unless terminal |
| `Candidates.Candidate.SubmitPatch` | src/domain/entities/candidate.py:225-233 | The patch is taken only while coding |
| `Candidates.Candidate.StartValidation` | src/domain/entities/candidate.py:235-239 | VALIDATING only from CODING or VALIDATING |
| `Candidates.Candidate.AppendValidation` | src/domain/entities/candidate.py:241-251 | Any list of results is added, in order, only while validating, each stamped with the repair it follows |
| `Candidates.Candidate.RecordReview` | src/domain/entities/candidate.py:276-277 | The verdict is noted in any status, with the repair it follows |
| `Candidates.Candidate.Select` | src/domain/entities/candidate.py:302-307 | SELECTED unless terminal otherwise; selecting twice changes nothing |
| `Candidates.Candidate.Reject` | src/domain/entities/candidate.py:309-314 | REJECTED unless terminal |
| `Candidates.Candidate.Fail` | src/domain/entities/candidate.py:316-321 | FAILED unless terminal |
| `Candidates.Candidate.Cancel` | src/domain/entities/candidate.py:323-327 | CANCELLED unless terminal |
| `Selection.SelectionFindsTheBest` | src/domain/services/candidate_selection.py:32-97 | For every non-empty list of presentable candidates with distinct indices there is a winner, it is in the list, and it beats every other by PASS verdict, then tests, then build, then patch, then smaller churn, then lower index, all read off the records |
| `Selection.SelectionDecidesExactly` | src/domain/services/candidate_selection.py:61-93 | For any list: a candidate wins if and only if it beats everybody else in the running and is presentable |
| `Selection.SelectionRanksEveryone` | src/domain/services/candidate_selection.py:61-93 | Winner and rejected together are everybody in the running, as often as listed, each preferred to all that follow |
| `Selection.SelectionIgnoresInputOrder` | src/domain/services/candidate_selection.py:61-93 | Winner and rejected list do not depend on the input order |
| `Ordering.SortSorts` | src/domain/services/candidate_selection.py:61-74 | The sort behind every ranking leaves no later element before an earlier one |
| `Ordering.SortIsStable` | src/domain/services/candidate_selection.py:66-74 | Elements that tie keep the order they came in |
| `Ordering.SortIgnoresInputOrder` | src/domain/services/scheduling.py:45-54 | Without ties the sorted list depends only on the multiset of the input |
| `Jobs.BudgetAlwaysHolds` | src/domain/entities/job.py:256-444 | Over every sequence of calls `attempt` never exceeds `max_attempts`, and PENDING, QUEUED and FAILED always leave an attempt |
| `Jobs.AttemptsAreLeases` | src/domain/entities/job.py:275-302 | With positive durations, leases granted equal `attempt`, and a lease exists exactly in LEASED or RUNNING |
| `Jobs.LeaseNeedsPositiveDuration` | src/domain/entities/job.py:275-302 | Granting a lease keeps lease and status in step if and only if the duration is positive; otherwise the job is stuck |
| `Jobs.TerminalJobsAbsorb` | src/domain/entities/job.py:316-436 | Terminal jobs absorb every call except a completion without a token |
| `Jobs.TerminalJobsAreFinal` | src/domain/entities/job.py:256-444 | Over every sequence of calls a terminal job keeps everything, unless it had not succeeded and some completion came without a token: then it ends SUCCEEDED |
| `Jobs.CallTable` | src/domain/entities/job.py:256-444 | Every call on the job, field by field, and what its caller sees |
| `Jobs.Job.Fail` | src/domain/entities/job.py:342-381 | New state and answer for every token, kind and retry wish, budget included |
| `Jobs.Job.ExpireLease` | src/domain/entities/job.py:383-405 | New state and answer for every clock: nothing before the expiry, retryable or dead after |
| `Jobs.Job.Enqueue` | src/domain/entities/job.py:256-273 | QUEUED without lease from PENDING or FAILED; queued already is no error; otherwise an error |
| `Jobs.Job.LeaseTo` | src/domain/entities/job.py:275-302 | Attempt counted and status set, then the lease; a non-positive duration leaves the first two |
| `Jobs.Job.AssertLease` | src/domain/entities/job.py:438-444 | True exactly for the holder's token before the expiry |
| `Jobs.Job.MarkRunning` | src/domain/entities/job.py:304-309 | RUNNING for the lease holder only, with the first start time kept |
| `Jobs.Job.RenewLease` | src/domain/entities/job.py:311-314 | The expiry moves for the lease holder only |
| `Jobs.Job.Complete` | src/domain/entities/job.py:316-340 | SUCCEEDED for the lease holder or a caller without a token; succeeding twice changes nothing |
| `Jobs.Job.Requeue` | src/domain/entities/job.py:407-425 | QUEUED from FAILED with an attempt left, otherwise an error |
| `Jobs.Job.Cancel` | src/domain/entities/job.py:427-436 | CANCELLED without lease, unless terminal |
| `QueueInvariant.IndicesAgree` | src/infrastructure/queue/in_memory.py:106-253 | In every reachable state: ready exactly when QUEUED and of that type, leased exactly when the record holds a lease with that expiry, never both, and a ready job stands at the place its priority and age give it |
| `QueueInvariant.InvAlways` | src/infrastructure/queue/in_memory.py:106-253 | The invariant over jobs, ready maps, scores, leases, run sets, acknowledgements and tokens holds after every history |
| `QueueInvariant.AcknowledgedNeverReturns` | src/infrastructure/queue/in_memory.py:106-200 | Once acknowledged, no redelivery and no history makes a job claimable |
| `QueueInvariant.ClaimTakesTheFirstInLine` | src/infrastructure/queue/in_memory.py:121-174 | A claim returns the eligible job of the highest priority, CRITICAL before HIGH before NORMAL before LOW, then the oldest, then the lowest id, leased to the caller; it returns none only if none is eligible |
| `QueueInvariant.ScoreEncodesTheOrder` | src/infrastructure/redis/codecs.py:214-226 | For timestamps in [0, 10^13) ms the score orders by CRITICAL, HIGH, NORMAL, LOW and then age, is equal only for equal pairs, and stays below 2^53 in magnitude |
| `QueueInvariant.PrioritiesInLine` | src/domain/enums.py:195-200 | Whatever their age, CRITICAL is ahead of HIGH, HIGH of NORMAL and NORMAL of LOW |
| `QueueInvariant.EarliestAreDue` | src/infrastructure/queue/in_memory.py:215-220 | A reclaim deals with due leases, the earliest first, and leaves one out only when it has dealt with as many as it may |
| `QueueInvariant.PublishingMeans` | src/infrastructure/queue/in_memory.py:106-118 | In any queue a leased, running or acknowledged job refuses to be published, and any other is ready under its type at its score |
| `QueueInvariant.ClaimNeedsPositiveDuration` | src/infrastructure/queue/in_memory.py:121-158 | When there is a job to claim, the ready index goes on agreeing if and only if the duration is positive |
| `QueueFencing.Fencing` | src/infrastructure/queue/in_memory.py:121-270 | After a claim and any history, the job is handed out again only if its holder reported, its run was cancelled or a due reclaim reached it; after that nothing done with the old token has any effect |
| `QueueFencing.HeldUntilEnded` | src/infrastructure/queue/in_memory.py:176-253 | From a hold every history either contains an ending and the token is spent, or contains none and the job is still held |
| `QueueFencing.ReclaimWaitsForTheExpiry` | src/infrastructure/queue/in_memory.py:215-233 | A reclaim ends a hold only at or after the expiry on record |
| `QueueFencing.ExpiryIsTheLatest` | src/infrastructure/queue/in_memory.py:176-189 | Over every history without an ending, the expiry on record is that of the latest renewal the holder obtained, or of the claim when there was none |
| `QueueFencing.ReclaimWaitsForTheLatest` | src/infrastructure/queue/in_memory.py:176-233 | Over every history after a claim, the reclaim that ends the hold comes at or after that latest expiry |
| `QueueFencing.ReleaseIgnoresTheBudget` | src/infrastructure/queue/in_memory.py:202-212 | A job given back for requeue is ready again whatever its budget says, and the claim that takes it next counts one more attempt |
| `QueueFencing.OneHolderAtATime` | src/infrastructure/queue/in_memory.py:121-270 | In every reachable state a token holds at most one job |
| `InMemoryQueue.InMemoryJobQueue.Enqueue` | src/infrastructure/queue/in_memory.py:106-118 | All six tables after publishing, with in-flight and acknowledged jobs refused |
| `InMemoryQueue.InMemoryJobQueue.Scan` | src/infrastructure/queue/in_memory.py:160-174 | The nested scan finds the least (score, id) over the requested types |
| `InMemoryQueue.InMemoryJobQueue.Claim` | src/infrastructure/queue/in_memory.py:121-158 | The loop over stale entries ends, and gives the claim of the specification |
| `InMemoryQueue.InMemoryJobQueue.ReclaimExpired` | src/infrastructure/queue/in_memory.py:215-233 | The earliest lapsed leases up to the limit, each back in line or dead |
| `InMemoryQueue.InMemoryJobQueue.CancelRunJobs` | src/infrastructure/queue/in_memory.py:235-253 | Every unfinished job of the run stopped, in both indices |
| `InMemoryQueue.InMemoryJobQueue.Renew` | src/infrastructure/queue/in_memory.py:176-189 | Record and lease index move together, or the call is refused |
| `InMemoryQueue.InMemoryJobQueue.Release` | src/infrastructure/queue/in_memory.py:202-212 | Only the holder gives a job back, to its original place |
| `InMemoryQueue.InMemoryJobQueue.Acknowledge` | src/infrastructure/queue/in_memory.py:191-200 | Only the holder acknowledges; the job leaves lease and run tables |
| `InMemoryQueue.InMemoryJobQueue.ReclaimJob` | src/infrastructure/queue/in_memory.py:221-232 | One lapsed lease: back in line at its place or dead, and whether a record existed |
| `InMemoryQueue.InMemoryJobQueue.CancelJob` | src/infrastructure/queue/in_memory.py:237-252 | One job out of both indices and CANCELLED, unless unknown or finished |
| `InMemoryQueue.InMemoryJobQueue.PutBack` | src/infrastructure/queue/in_memory.py:209-212 | The job is ready again at the stored score |
| `InMemoryQueue.FindLeast` | src/infrastructure/queue/in_memory.py:160-174 | The least key of a scored map by (score, id) |
| `InMemoryQueue.SortKeys` | src/infrastructure/queue/in_memory.py:215-220 | All keys in (score, id) order |
| `QueueSimulation.AdaptersAgree` | src/infrastructure/redis/scripts.py:40-238 | Started empty and fed the same commands, whatever order Redis lists a set in, the scripts and the in-memory queue correspond after every history and answer the next command alike, when no two ready jobs of different requested types share a score |
| `QueueSimulation.PicksAgreeExactly` | src/infrastructure/redis/scripts.py:59-85 | On corresponding states both adapters pick the same job if and only if no type listed earlier holds a ready job with the very score of the choice |
| `QueueSimulation.TiedJobsDiverge` | src/infrastructure/redis/scripts.py:66-80 | A concrete history of two enqueues after which the two adapters claim different jobs |
| `QueueSimulation.ReclaimsAgreeExactly` | src/infrastructure/redis/scripts.py:178-209 | The reclaimed records agree if and only if the job carried no completion time or has no attempt left |
| `RedisScripts.EncodeThenDecode` | src/infrastructure/redis/codecs.py:253-349 | A job survives the round trip through its hash |
| `RedisScripts.ClaimGivesUpAfter64` | src/infrastructure/redis/scripts.py:66-107 | A claim gets past 63 stale entries to a queued job, and 64 make it answer nothing |
| `RedisStore.RedisJobStore.Claim` | src/infrastructure/redis/scripts.py:59-108 | The loop of at most 64 tries over the heads of the requested sets gives the claim of the specification |
| `RedisStore.RedisJobStore.ScanHeads` | src/infrastructure/redis/scripts.py:66-80 | Only a strictly lower score replaces the best head |
| `RedisStore.RedisJobStore.TakeLease` | src/infrastructure/redis/scripts.py:86-103 | The hash and the lease set after the grant, and the entity's own answer to the replay |
| `RedisStore.RedisJobStore.ReclaimJob` | src/infrastructure/redis/scripts.py:186-205 | One lapsed lease in the store: requeued at its score or dead |
| `RedisStore.RedisJobStore.CancelJob` | src/infrastructure/redis/scripts.py:219-235 | One job of the run: dropped from the index when unknown, left when finished, stopped otherwise |
| `RedisStore.RedisJobStore.Enqueue` | src/infrastructure/redis/scripts.py:40-57 | The store after the script: leased, running and acknowledged jobs refused |
| `RedisStore.RedisJobStore.Renew` | src/infrastructure/redis/scripts.py:110-129 | The store and the answer after the script, for every token, clock and extension |
| `RedisStore.RedisJobStore.Acknowledge` | src/infrastructure/redis/scripts.py:131-153 | The store after the script; a wrong token changes nothing |
| `RedisStore.RedisJobStore.Release` | src/infrastructure/redis/scripts.py:155-176 | The store after the script; a requeued job goes back to its stored score |
| `RedisStore.RedisJobStore.ReclaimExpired` | src/infrastructure/redis/scripts.py:178-209 | The store and the ids after the script's loop |
| `RedisStore.RedisJobStore.CancelRunJobs` | src/infrastructure/redis/scripts.py:211-238 | The store and the ids after the script's loop, for any listing of the run set |
| `Plans.ExecutionLayers` | src/domain/entities/plan.py:88-113 | For unique keys: succeeds if and only if nothing dangles and the graph is acyclic, with the exact layering; a refusal names the largest set of tasks each waiting for another of them |
| `Plans.ValidateGraph` | src/domain/entities/plan.py:58-80 | A plan is accepted if and only if it is non-empty, its keys are unique, nothing dangles and it is acyclic; each refusal names its fault exactly |
| `Plans.ExactIsUnique` | src/domain/entities/plan.py:88-113 | A graph has at most one layering that puts each task one past its deepest dependency, in the original order |
| `Plans.LayerCountIsLongestChain` | src/domain/entities/plan.py:88-113 | No dependency chain is longer than the layer count, and one is as long |
| `Plans.LayersAreFewest` | src/domain/entities/plan.py:88-113 | No placement after dependencies uses fewer layers |
| `Plans.LayersPartition` | src/domain/entities/plan.py:88-113 | Every task is in exactly one layer, once |
| `Plans.NextLayer` | src/domain/entities/plan.py:97-112 | Taking out the ready tasks keeps the placed part exact and every other task held back by an unplaced one or the latest layer |
| `Plans.TakeOut` | src/domain/entities/plan.py:109-112 | Deleting the ready tasks one by one leaves exactly the tasks not satisfied, in order |
| `Plans.DeadlockHoldsACycle` | src/domain/entities/plan.py:104-108 | A non-empty set of tasks each depending on another of them holds a cycle |
| `PlannerOutputs.GraphIsUsable` | src/infrastructure/llm/structured.py:91-120 | Accepts exactly the graphs a plan accepts, the empty one apart; each refusal names its fault, the first one in task order |
| `PlannerOutputs.ExecutionLayers` | src/infrastructure/llm/structured.py:122-133 | Without a check of its own it ends on every accepted graph, with the keys of the exact layering |
| `PlannerOutputs.LayeringsAgree` | src/infrastructure/llm/structured.py:122-133 | The key layers are the exact layering's keys in the same order, and nothing else is |
| `PlannerOutputs.ReadyAgrees` | src/infrastructure/llm/structured.py:110-119 | Empty dependency sets name the tasks whose dependencies are satisfied, in the same order |
| `PlannerOutputs.Shrink` | src/infrastructure/llm/structured.py:127-132 | Deleting ready keys and striking them from the other sets leaves what remains for the larger satisfied set |
| `PlannerOutputs.Strike` | src/infrastructure/llm/structured.py:131-132 | Every remaining set loses the ready keys, in place |
| `PlannerOutputs.ConsumeGraph` | src/infrastructure/llm/structured.py:110-120 | Ends without error if and only if the graph is acyclic; an error names the largest deadlocked set |
| `RunLocks.MutualExclusion` | src/application/services/locking.py:30-47 | Under every interleaving at most one caller is inside a run |
| `RunLocks.OneLockPerRun` | src/application/services/locking.py:32-34 | Under every interleaving two callers share a lock object if and only if they are on the same run |
| `RunLocks.NothingIsLeaked` | src/application/services/locking.py:38-47 | Under every interleaving the holder count is the number of registered callers; outside guarded sections both tables hold exactly the runs in use; an unused run has no entry |
| `RunLocks.WaitersAreNotForgotten` | src/application/services/locking.py:35-37 | A waiting caller can enter if and only if nobody is inside its run |
| `RunLocks.NeverDeadlocked` | src/application/services/locking.py:30-47 | No caller meets a missing counter, and while any is under way some caller can move without giving up |
| `RunLocks.InProcessRunCoordinator.Enter` | src/application/services/locking.py:32-34 | The guarded section on entry makes both table writes and hands out the run's lock object |
| `RunLocks.InProcessRunCoordinator.Exit` | src/application/services/locking.py:38-47 | The guarded section on exit decrements or drops both entries |
| `JsonSpans.FirstSpanIsTheObject` | src/infrastructure/llm/structured.py:414-438 | For every JSON object of RFC 8259, sections 2 to 7, any prefix without quotes or opening braces and any suffix, the first span is exactly the printed object |
| `JsonSpans.AnswerIsItsObjects` | src/infrastructure/llm/structured.py:414-438 | For prose and objects alternating any number of times the spans are exactly the objects, in order |
| `JsonSpans.SpansAreBalanced` | src/infrastructure/llm/structured.py:414-438 | On any text the spans are disjoint, in order, run from `{` to `}`, and each scans alone as exactly itself |
| `JsonSpans.BalancedSpans` | src/infrastructure/llm/structured.py:414-438 | The character loop yields the spans of the specification |
| `JsonSpans.StringIsNeutral` | src/infrastructure/llm/structured.py:421-428 | Any printed string, whatever it escapes or holds, leaves the scanner as it was |
| `JsonSpans.ValueIsNeutral` | src/infrastructure/llm/structured.py:421-438 | Any value inside an object, objects and arrays included, leaves the scanner as it was and yields nothing |
| `Scheduling.LeastLoadedIsBest` | src/domain/services/scheduling.py:39-54 | Nobody is chosen only if nobody is eligible; the chosen worker is eligible and beats every other by exact load ratio, free slots, context length and id |
| `Scheduling.LeastLoadedIgnoresOrder` | src/domain/services/scheduling.py:45-54 | The ranking does not depend on the registration order |
| `Scheduling.UtilizationIsTheRatio` | src/domain/entities/worker.py:151-154 | Comparing utilizations is comparing whole-number cross products |
| `Scheduling.RoundRobinIsFair` | src/domain/services/scheduling.py:57-82 | Over any k rounds of calls that find workers with the same m ids eligible, in any registration order, under any load and from any cursor, each id is picked exactly k times |
| `Scheduling.TurnGoesByPosition` | src/domain/services/scheduling.py:71-82 | The one chosen has as many eligible workers with lower ids as the cursor says, counted round, and the next turn goes one further |
| `Scheduling.SameRanking` | src/domain/services/scheduling.py:71-79 | Whatever the registration order and the load, the ranking is the eligible ids in order |
| `Scheduling.ReservationKeepsPool` | src/application/orchestration/worker_pool.py:59-67 | A slot reserved on a chosen worker that has another one free leaves the eligible ids as they were |
| `Scheduling.RoundRobinScheduler.Select` | src/domain/services/scheduling.py:71-79 | Pick and next cursor, and no change when nobody is eligible |
| `Workers.StatusTellsCapacity` | src/domain/entities/worker.py:205-300 | Over every sequence of calls READY has a free slot and BUSY has none, so only READY workers accept jobs |
| `Workers.AcceptsWhenReady` | src/domain/entities/worker.py:161-183 | Over every sequence of calls a worker accepts exactly the jobs whose role, model, tools, schema and prompt length suit it, exactly while it is READY |
| `Workers.CallTable` | src/domain/entities/worker.py:205-300 | Every call on the worker, field by field |
| `Workers.ReserveThenRelease` | src/domain/entities/worker.py:275-300 | A slot is granted exactly when the job is acceptable, and giving it back restores the worker |
| `Workers.Worker.Beat` | src/domain/entities/worker.py:205-238 | Status, load and capabilities after a heartbeat, readmission included |
| `Workers.Worker.Reserve` | src/domain/entities/worker.py:275-287 | Refused exactly when the job is not acceptable, and then nothing changes |
| `Workers.Worker.Release` | src/domain/entities/worker.py:289-294 | One job fewer, never below none, and the status in step |
| `Workers.Worker.Sync` | src/domain/entities/worker.py:296-300 | READY and BUSY follow the free slots; other statuses stay |
| `ModelPreparation.VerifiedMeansChecked` | gpu-worker/src/worker/model_state.py:393-524 | A downloading call writes what it reports; the marker says verified exactly when the hub reported sizes or, failing that, an earlier verified marker recorded some, and then every file of those has its size |
| `ModelPreparation.ReadyMeans` | gpu-worker/src/worker/model_state.py:526-550 | The model is found ready if and only if the marker is verified, names the model and the revision asked for, and its snapshot holds every recorded file at its size |
| `ModelPreparation.DownloadStops` | gpu-worker/src/worker/model_state.py:569-627 | The loop ends with the first fetch that does not fail in passing, with its snapshot or at once when the disk is full, and after the configured attempts otherwise |
| `ModelPreparation.RepairMeans` | gpu-worker/src/worker/model_state.py:473-524 | A right snapshot is verified as it is; from a wrong one exactly the wrong files that can be unlinked are removed, and one more download is right or given up |
| `ModelPreparation.EarlyFailures` | gpu-worker/src/worker/model_state.py:412-450 | A call that gets no lock, or no free space, fails with that and fetches nothing |
| `ModelPreparation.NextCallFetchesExactly` | gpu-worker/src/worker/model_state.py:393-550 | On the volume as left, the next call fetches nothing if and only if external sizes were at hand and its revision is unset or names the snapshot |
| `ModelPreparation.WarmCallFetchesNothing` | gpu-worker/src/worker/model_state.py:412-434 | A caller that finds the model ready, at once or after waiting for the lock, fetches and changes nothing |
| `ModelPreparation.OneDownloadServesAll` | gpu-worker/src/worker/model_state.py:393-434 | After one verified download, any number of later calls for that model, with the revision unset or naming the snapshot and whatever their hub and disk, leave the volume untouched |
| `ModelPreparation.ReadyForAll` | gpu-worker/src/worker/model_state.py:412-434 | Any number of calls that each find the model ready leave the volume as it is |
| `ModelPreparation.ReuseIsStillCorrect` | gpu-worker/src/worker/model_state.py:526-551 | However the files change later, while the marker stands the model is reused only if every file it was checked against still has its size |
| `ModelPreparation.CallIsBounded` | gpu-worker/src/worker/model_state.py:473-627 | One call makes at most twice `download_max_attempts` fetches, reports how many, and writes no marker when it fails |
| `ModelPreparation.ModelVolume.PrepareModel` | gpu-worker/src/worker/model_state.py:393-470 | The procedure, with both checks around the lock, gives the specified outcome and volume |
| `ModelPreparation.ModelVolume.DownloadWithRetries` | gpu-worker/src/worker/model_state.py:569-627 | The retry loop stops at the first success, at a full disk or at the last attempt |
| `ModelPreparation.ModelVolume.Repaired` | gpu-worker/src/worker/model_state.py:473-524 | One repair at most; a snapshot still wrong afterwards is an error |
| `ModelPreparation.ModelVolume.AlreadyThere` | gpu-worker/src/worker/model_state.py:526-550 | The marker, exactly when it matches, was verified and its snapshot still verifies |
| `ModelPreparation.ReusedExactly` | gpu-worker/src/worker/model_state.py:526-550 | On the volume as a preparation left it, the marker is found again if and only if it was verified and the revision is unset or names the snapshot |
| `ModelPreparation.ColdCallFetches` | gpu-worker/src/worker/model_state.py:436-470 | A caller that does not find the model, with room and an attempt, fetches at least once |
| `ModelPreparation.ModelVolume.Mismatches` | gpu-worker/src/worker/model_state.py:335-347 | Exactly the expected files that are absent or of the wrong size |
| `ModelPreparation.ModelVolume.VerifySnapshot` | gpu-worker/src/worker/model_state.py:246-265 | True exactly when the directory exists and every recorded file has its size |

## Left out

- Workspaces, git integration, prompts, model calls, events, token accounting and the unit of work: answers of tools and models are arguments, and a decision that raises is not committed.
- Crashes in the middle of a job's execution, redelivery by lease expiry while it runs, the executor's lease renewal, reconciliation of the queue with the database row and `handle_dead_job`: an execution is one atomic step of the workflow model.
- `WorkflowClaims.RunIsRelayed`: the queue holds the jobs of one run, and its commands are those of one executor slot; jobs of other runs, renewals and reclaims in between are left to the queue's own theorems.
- Cancelling is one step; the window between requesting and confirming it is not split.
- `max_coder_iterations` and plan-revision bounds: the workflow code does not enforce the first, and `start_planning` has no budget.
- `RetryPolicy.backoff`, `Plan.max_parallelism`, queue depth and the lookups: easy members.
- Redis key expiry: acknowledged and cancelled records do not expire in the model.
- `WorkflowSafety.CompletionIsEarned`: asks that the policy is within, because it fails otherwise; `WorkflowUnearned.EarnedExactly` has the exact condition.
- `WorkflowSafety.InvAlways`: asks the same, because a DEAD row that is still handed out breaks it; `WorkflowGeneral.GeneralAlways` is what holds in every configuration.
- `RedisScripts.EncodeThenDecode`: fields stay typed values, and payload, result and requirements, which no decision here looks at, are left out; the text forms are those of library functions.
- `AdaptersAgree`: asks that no two ready jobs of different requested types share a score at a claim, because the adapters do differ then (`TiedJobsDiverge`); published jobs carry no lease and no completion time, and durations are positive.
- `RunLocks.NothingIsLeaked`: a second cancellation delivered while a leaving caller waits for the guard is not modelled; guarded sections never suspend, so the guard is free whenever another caller acts.
- Fairness of the lock's waiting order: any waiting caller may be let in next.
- JSON text outside objects that holds quotes or braces: only the first-span theorem's suffix may, and the number syntax is a superset of the standard's.
- `_iter_candidates` and the fenced-block regular expression: text matching by a library.
- Floating-point rounding in `utilization`: the ratio is exact.
- `WorkerPool` slot accounting: it writes back detached copies.
- The lock-polling loop and its clock in model preparation: what other processes leave behind, or a timeout, is an argument.
- Blobs shared by symbolic links between snapshots: a snapshot is a map from file name to size.
- `ModelPreparation.ModelVolume.VerifySnapshot`: says whether there are problems, not their wording.
- HTTP routes, persistence models, the worker registry, event streams, configuration parsing and secret redaction.
