# Verified model of the task-lease control plane

The control plane is a durable task queue kept in PostgreSQL. A tenant submits tasks; workers claim
them under a lease, renew the lease while they run, and report how the attempt came out; a reaper
takes back work whose lease expired or whose execution overran; an operator may cancel one task or all
the work of an agent. Every one of these is a compare-and-set on one row, and three tables have to
agree afterwards: `tasks`, `task_attempts` and `task_events`.

This project models that protocol in Dafny and proves what it keeps. `dafny verify dfyconfig.toml`
checks all of it.

## How it is laid out

| file | what it holds |
|---|---|
| `Wrappers`, `Orders`, `Text` | options; sets listed in a strict order (`ORDER BY ... LIMIT`); trimming, lower case, split and join |
| `States`, `Tables` | the transition graph, the event vocabulary, the tables, the connection a transaction works on |
| `Transitions`, `Completion`, `Reap`, `Tasks` | the compare-and-set; endings and renewal; recovery; admission, submission, cancellation |
| `Agents`, `Claim`, `Rounds`, `Grants` | capability keys; candidate selection; the rounds loop that spends tenant slack; the grant |
| `Retry`, `Finalize` | backoff arithmetic; which ending a worker reports |
| `Ledger`, `Protocol`, `Moves` | the invariant over the three tables; the state machine and its runs; the moves a row can make |
| `Fencing`, `Budget`, `Bounds`, `Timing` | what holds over whole runs |
| `Locking`, `Serial` | transactions statement by statement, under row locks; the serial run they amount to |
| `Scripts`, `Refinement` | the statements of each transaction; interleavings and runs of the protocol are the same runs |
| `ReaperLoop`, `WorkerLoop` | one sweep of the reaper; capacity, ownership and drain of one worker |
| `WorkerRuns`, `CancelFlags`, `Orphans` | runs of one worker against the database: its list for hand-back, its cancel events, what a drain leaves |
| `Pagination`, `Cursors`, `Calendar`, `Listing` | keyset pagination; cursor text; instants and timestamps; the pages a client gets by sending cursors back |
| `Effects`, `Reports` | every call by its effect: the answer, and what it leaves in every column of the three tables |
| `Urgency` | who comes first in a claim, in a sweep and on a page, on the stored columns |
| `Requests`, `Edges`, `Spelling` | what becomes of a delayed submission and of a cancel request; which edges runs take; texts letter by letter |
| `Incidents`, `WorkerIncidents`, `SlowSweeps` | short runs from the empty database in which a documented property fails |

Each database operation appears twice: as a method that changes a `Connection` step by step as the
program does, and as a function on a `Db` value that says what the new tables are. The method's
postcondition equates the two, and the theorems are about the functions. A run is a sequence of
`Protocol.Step`s, each one transaction; a step may present any (task, attempt, worker) token at any
time, which covers paused, partitioned and restarted workers without modelling them.

## What is proved

- **One story in three tables.** In every reachable state the attempt rows of a task are exactly
  1..attempt, a row is open exactly when it is the last one of a RUNNING task, the lease holder is that
  row's worker, and replaying the event log gives the stored state and attempt.
- **Fencing.** A token is accepted exactly when its attempt row is open and its own. Once a tenure is
  over, no renewal and no completion that presents its token changes anything, after any further steps;
  one attempt number never has two holders; at most one attempt succeeds, and the stored result is the
  one its holder committed.
- **The claim refines a simple algorithm.** The keyed merge is the containment filter; the rounds loop
  is a prefix of one greedy pass under tenant slack, which is the first `limit` rows within their
  tenants' quotas; when the loop gives that answer, and when it gives nothing, is said exactly.
- **Row locks make the run serial.** With any interleaving of statements, the granting UPDATE, which
  tests only ids, meets only QUEUED rows, and the committed task and attempt rows are those of the run
  in which every transaction does its work alone, at its commit. Which of the ready rows a claim picks,
  and which of them it grants, is a free choice of that run.
- **The statements refine the protocol.** Each transaction's statements, alone, do to task and attempt
  rows what the protocol's step does. An interleaving whose commits stand for steps, in order, has the
  task and attempt rows of that run of the protocol, and every run of the protocol is the run of an
  interleaving; so what is proved of these rows in all runs holds of them.
- **Bounds.** Tenant concurrency and backlog, the attempt budget and exactly when it is exceeded, at
  most one task per idempotency key, recovery latency, lease survival of a live worker, total backoff,
  and no claim before a backoff is over.
- **Effects.** The functions are pinned from outside: for each call, its answer and what it leaves in every
  column of the three tables is said from the request and the stored columns alone, with the numbers and names
  written out. So is the order of claims, sweeps and pages, which delays a retry can get, who gets an
  operator's cancellation and when its worker hears of it.
- **Loops.** A sweep takes back exactly the head of the backlog with exact counters; a client that sends
  page cursors back gets every row once; a worker's drain leaves a task RUNNING exactly when an older
  attempt of it ended after the claim; a worker ends a task CANCELLED without a request exactly after a
  lapsed renewal.

## Where the code and its comments differ

The model follows the code.

- `complete_abandoned` requeues whatever the attempt number, so `attempt <= max_attempts` is false: over
  whole runs a task is beyond it exactly when its attempt number max_attempts was handed back and the
  task was granted again (`Budget.OverBudgetIff`, `Incidents.OverBudgetExample`).
- A refused renewal sets the same event as a cancel request. So a worker whose lease ran out, but was not
  yet reclaimed, ends its task CANCELLED although nobody asked for that, whatever its adapter returned
  (`CancelFlags.CancelledUnaskedIff`, `WorkerIncidents.UnaskedExample`); a worker that renews in time never
  does (`CancelFlags.PunctualNeverUnasked`).
- `cancel_task` says the reaper honours the cancel flag of a dead worker's task; the reaper never reads
  it and requeues the task (`Reap.RecoveryIgnoresCancelFlag`, `Fencing.CancelledIff`,
  `Incidents.IgnoredRequestExample`).
- The hung-task clock is documented as time since the attempt started; it runs from the task's first
  start, so a claim can hand out a task that the next hung-task recovery takes away at once
  (`Timing.GrantedAlreadyHungIff`, `Incidents.HungAtOnceExample`).
- Recovery latency is documented as lease_ttl_s + reaper_period_s. The loop waits the period after a sweep
  has ended, so the bound is missed by the length of a sweep, and holds of every run exactly when sweeps
  take no time (`Timing.RecoveryBound`, `SlowSweeps.DocumentedBoundIff`).
- Admission is asked before the idempotency key is looked up, so a resubmission of accepted work can be
  refused for backlog (`Tasks.ResubmissionIff`, `Bounds.ResubmissionFindsOriginal`,
  `Incidents.RefusedResubmissionExample`).
- Stored requirements are raw strings. The fallback path, for workers with more than five capabilities,
  compares them raw: it takes exactly the tasks the worker satisfies whose stored names are normalised
  (`Claim.FallbackTakesIff`, `Claim.FallbackExactIff`, `Bounds.FallbackClaimsMatch`). A name that holds a
  comma defeats the key list (`Agents.KeyExactIff`, `Agents.CommaCounterexample`).
- `MAX_ROUNDS` can make a call return nothing although a claimable row exists: exactly when every one of
  the first limit * rounds rows it is offered belongs to a tenant without slack and a later one does not
  (`Rounds.EmptyClaimIff`, `Rounds.StarvedIff`, `Incidents.StarvedExample`).
- `self._owned.pop(task_id)` removes the entry by task id alone. If a worker loses a lease, claims the
  same task again and its older attempt then reports, the newer attempt is no longer listed and a
  graceful shutdown leaves the task RUNNING until its lease expires; nothing else ever does
  (`Orphans.LeftRunningIff`, `WorkerRuns.SelfReclaimOrphans`, `WorkerIncidents.OverlapExample`).

## Model

| member | source | states |
|---|---|---|
| Agents.KeyOfForms | src/acp/domain/agents.py:77-95 | A key depends only on the set of normal forms: order, case, padding, blanks and duplicates do not matter |
| Spelling.PaddingDropped | src/acp/domain/agents.py:77-95 | White space around a name does not change its normal form |
| Spelling.CaseDropped | src/acp/domain/agents.py:77-95 | Nor does the case of its letters |
| Spelling.LowerSpelled | src/acp/domain/agents.py:77-95 | A capital becomes its small letter, every other character stays |
| Agents.DecodeEncode | src/acp/domain/agents.py:77-95 | Splitting a key on commas recovers the capability set, for comma-free names |
| Agents.EncodeInjective | src/acp/domain/agents.py:77-95 | Different comma-free capability sets have different keys |
| Agents.KeyListedIffSatisfied | src/acp/domain/agents.py:98-150 | A task's key is among a worker's satisfiable keys iff the worker satisfies the task, for comma-free names |
| Agents.KeyExactIff | src/acp/domain/agents.py:77-150 | For requirements with any names: the key list is right for every comma-free worker iff the names are comma-free or the key does not read as a list |
| Agents.CommaCounterexample | src/acp/domain/agents.py:77-150 | The single requirement "a,b" is listed for a worker that has "a" and "b" and does not satisfy it |
| Agents.KeyCount | src/acp/domain/agents.py:110-150 | At most 2^n keys, exactly 2^n for comma-free names, at most 32 on the keyed path |
| Agents.SatisfiableCapabilityKeys | src/acp/domain/agents.py:124-150 | The combinations loop lists exactly the keys of all subsets, sorted, without duplicates |
| Agents.CombinationsAreSubsets | src/acp/domain/agents.py:146-150 | `combinations(caps, r)` are exactly the increasing sublists of length r |
| Transitions.Transition | src/acp/db/queries/transitions.py:74-170 | The CAS: raises on an empty or illegal anchor; applies iff the row matches every fence, writing row and event together; otherwise changes nothing and says why |
| Transitions.CheckLegal | src/acp/db/queries/transitions.py:120-126 | Every expected state must allow the target, and there must be one |
| Transitions.Explain | src/acp/db/queries/transitions.py:173-232 | The rejection is classified from the row re-read in the same transaction |
| Transitions.RejectionIsTruthful | src/acp/db/queries/transitions.py:131-232 | Applied iff legal, present and matching; each rejection reason is a fence the row really fails, after those it meets |
| Transitions.RecordEvent | src/acp/db/queries/transitions.py:235-257 | Appends one event and nothing else |
| Completion.FinishAttempt | src/acp/db/queries/completion.py:28-46 | Sets outcome, error class and end of one attempt row, by primary key |
| Completion.CompleteSuccess | src/acp/db/queries/completion.py:49-74 | Fenced move to SUCCEEDED with the result; the attempt row changes only when it applied |
| Completion.CompleteRetry | src/acp/db/queries/completion.py:77-113 | Fenced move to QUEUED, available after the backoff |
| Completion.CompleteFailed | src/acp/db/queries/completion.py:116-150 | Fenced move to FAILED |
| Completion.CompleteCancelled | src/acp/db/queries/completion.py:153-176 | Fenced move to CANCELLED |
| Completion.CompleteAbandoned | src/acp/db/queries/completion.py:179-220 | Fenced move to QUEUED, available at once, whatever the attempt number |
| Completion.RenewLease | src/acp/db/queries/lease.py:25-73 | Extends the lease iff the tenure is live and its lease has not expired; returns the cancel flag |
| Effects.RenewalEffect | src/acp/db/queries/lease.py:40-73 | On columns: one column of one row becomes now + ttl seconds and the answer is the request flag, iff the worker holds that attempt under a lease that has not run out |
| Reap.ReapTask | src/acp/db/queries/reap.py:72-156 | Requeue below the budget, FAILED at it, with WORKER_LOST and LOST on the attempt, only if the fence still holds |
| Effects.RecoveryEffect | src/acp/db/queries/reap.py:72-156 | On columns, for both recoveries: row, attempt LOST, announcement without a worker, WORKER_LOST with the one that had the lease; nothing for a task that is not overdue |
| Reap.ReapBatch | src/acp/db/queries/reap.py:182-200 | A batch recovers exactly its candidates; requeued, failed and overdue figures are exact |
| Urgency.OverdueReported | src/acp/db/queries/reap.py:56-63 | The overdue time reported of a row is now minus its deadline, and positive |
| Reap.ReapRow | src/acp/db/queries/reap.py:186-199 | One candidate: recovered and counted as requeued or failed, only if its CAS applied |
| Reap.ReapAllEffect | src/acp/db/queries/reap.py:182-200 | Recovering distinct overdue rows takes exactly those out of RUNNING |
| Reap.DueAfterBatch | src/acp/db/queries/reap.py:44-69 | After a batch the overdue rows are the old ones minus the batch |
| Reap.RecoveryIgnoresCancelFlag | src/acp/db/queries/reap.py:87-124 | A flagged task is requeued or failed by its budget, never cancelled, and keeps its flag |
| Claim.KeyedMergeIsFilter | src/acp/db/queries/claim.py:95-162 | For every table, skip set and keyed capability list, the K-way merge, sorted and cut, is the filtered table sorted and cut |
| Orders.MergeOfGroups | src/acp/db/queries/claim.py:140-146 | Best n of every group put together, sorted and cut, are the best n of all |
| Claim.KeyedEligibleIffSatisfied | src/acp/db/queries/claim.py:132-146 | On the keyed path a stored task is eligible iff the worker satisfies it, for comma-free names |
| Claim.FallbackTakesIff | src/acp/db/queries/claim.py:148-162 | For a normalised worker list, raw containment holds iff the worker satisfies the task and the stored names are normalised and non-blank: it never takes too much |
| Claim.FallbackExactIff | src/acp/db/queries/claim.py:148-162 | Eligibility agrees with `worker_satisfies` for every worker list of more than five names iff the stored names are normalised and non-blank |
| Rounds.FetchCandidates | src/acp/db/queries/claim.py:117-162 | Both strategies return the first `need` rows of the filtered, ordered table |
| Urgency.BestOnColumns | src/acp/db/queries/claim.py:103-162 | What one query returns, on task columns: min(need, eligible) rows in the order of (priority, available_at, id), none after a row left out |
| Rounds.RunRounds | src/acp/db/queries/claim.py:181-236 | The rounds loop returns the greedy answer over the rows its rounds have seen |
| Rounds.RunRound | src/acp/db/queries/claim.py:200-236 | One round marks rows seen, learns slack of new tenants and spends it row by row |
| Rounds.SpendSlack | src/acp/db/queries/claim.py:229-236 | The dispatch loop takes a row iff the limit is not reached and its tenant has slack left |
| Rounds.LookUpSlack | src/acp/db/queries/claim.py:208-227 | Known tenants keep what they have left; each new one has max_concurrent minus RUNNING left, nothing if it does not exist |
| Rounds.ClaimGuarantee | src/acp/db/queries/claim.py:181-236 | A claim is at most `limit`, duplicate-free, ready, eligible, unlocked, within every tenant's slack; each seen row left out had its tenant's slack used up by earlier rows |
| Rounds.EarlyStopIsComplete | src/acp/db/queries/claim.py:186-199 | A round that sees nothing new means the full greedy answer |
| Rounds.GreedyIsQuota | src/acp/db/queries/claim.py:229-236 | The greedy pass takes the first `limit` rows that are within their tenant's quota, counted in order |
| Rounds.SeenIsReached | src/acp/db/queries/claim.py:186-236 | How many rows the rounds look at, counted on the offered rows alone: each round makes up for the rows over quota before it |
| Rounds.ClaimIsFullGreedyIff | src/acp/db/queries/claim.py:111-114 | Equal to the full greedy answer iff the rows so reached hold `limit` rows within quota or no later row is within quota |
| Rounds.EmptyClaimIff | src/acp/db/queries/claim.py:111-114 | For limit > 0 a call returns nothing iff each of the first limit * rounds offered rows belongs to a tenant without slack |
| Rounds.StarvedIff | src/acp/db/queries/claim.py:111-114 | Nothing is returned although the greedy pass takes something iff those rows are blocked and a later one is not |
| Incidents.StarvedExample | src/acp/db/queries/claim.py:111-114 | Nine steps from the empty database to a table on which four rounds return nothing and the fifth row is claimable |
| Rounds.GreedyWithinSlack | src/acp/db/queries/claim.py:229-236 | No tenant is given more than its slack |
| Grants.ClaimTasks | src/acp/db/queries/claim.py:165-286 | The whole call: rounds, then rows, events and attempts of exactly the claimed ids, in claim order; a duplicate attempt rolls all of it back |
| Urgency.SameTenantFirst | src/acp/db/queries/claim.py:105-236 | Over every table: a ready, eligible, unlocked task with a smaller (priority, available_at, id) than a claimed one of its tenant is claimed too, and stands earlier |
| Urgency.ClaimedInOrder | src/acp/db/queries/claim.py:105-236 | The claimed ids increase in (priority, available_at, id) |
| Urgency.SoonerOrFull | src/acp/db/queries/claim.py:202-236 | Between tenants: a row that sorts before a claimed one is claimed, unless what is RUNNING and what is claimed of its tenant comes to max_concurrent_tasks |
| Urgency.HeadOfLineIsClaimed | src/acp/db/queries/claim.py:181-236 | A row with fewer than `limit` eligible rows before it is claimed unless its tenant is full |
| Urgency.NoTenantOverfilled | src/acp/db/queries/claim.py:202-236 | RUNNING plus claimed of a tenant never passes max_concurrent_tasks |
| Effects.ClaimedRows | src/acp/db/queries/claim.py:241-260 | A claimed row is RUNNING under the worker, one attempt further, leased for ttl seconds, its first start kept; every other row is unchanged |
| Effects.ClaimedAttempts | src/acp/db/queries/claim.py:275-285 | The attempt rows are the old ones and one open row, by the worker, for each claimed task |
| Effects.ClaimedEvents | src/acp/db/queries/claim.py:262-273 | One TASK_CLAIMED event per claimed row, in their order, and nothing else changes |
| Grants.GrantAllEffect | src/acp/db/queries/claim.py:241-285 | Granting distinct ids changes exactly their rows and adds exactly their next attempt |
| Retry.CeilingDoubles | src/acp/domain/retry.py:54-106 | With first interval and cap as numbers per class: the interval starts at the first one and doubles with each attempt until the cap |
| Retry.DelayPossibleIff | src/acp/domain/retry.py:85-111 | Without a hint the possible delays are exactly [0, min(cap, first * 2^(n-1))] |
| Retry.HintedDelayPossibleIff | src/acp/domain/retry.py:109-111 | With a hint they are exactly [hint, hint + max(1, first)] |
| Retry.CeilingMonotone | src/acp/domain/retry.py:106 | Later attempts never have a lower ceiling |
| Retry.TotalDelayBound | src/acp/domain/retry.py:85-111 | n same-class retries wait at most min(n * cap, base * (2^n - 1)) in total, whatever the draws |
| Retry.DecideMeaning | src/acp/domain/retry.py:114-139 | Retry iff the class is retryable and both budgets allow it; the delay is then in range |
| Tasks.SubmitTask | src/acp/db/queries/tasks.py:42-142 | Inserts row and event, or finds the row with the key and answers existing or mismatch, changing nothing |
| Effects.InsertAnswerIff | src/acp/db/queries/tasks.py:72-142 | The insert creates iff the constraints hold and no task of the tenant has the key, and is refused iff a constraint fails |
| Tasks.Submit | src/acp/api/routes/tasks.py:64-150 | Tenant lookup, exact backlog count, verdict, then the insert, in one transaction |
| Effects.CreatedRow | src/acp/db/queries/tasks.py:72-110 | Each column of a created task is the one requested, available_at the requested time or now, the payload that of the request up to its trace; only one row and one event are added |
| Effects.AnswerIff | src/acp/api/routes/tasks.py:73-150 | Every answer iff its condition: tenant unknown, backlog full, overloaded, constraint, key used with equal or different payload, created; only the last changes anything |
| Requests.DelayedSubmission | src/acp/api/routes/tasks.py:136-150 | Over runs: a task submitted for later has no attempt before that time, and waits for it unless cancelled |
| Tasks.AcceptedWithinBacklog | src/acp/api/routes/tasks.py:79-99 | An accepted submission adds one to its tenant's backlog, which stays within max_queued, and leaves every other tenant's alone |
| Tasks.ResubmissionIff | src/acp/api/routes/tasks.py:73-140 | A resubmission equal up to its trace changes nothing and is answered with the original iff it is admitted |
| Tasks.CancelTask | src/acp/db/queries/tasks.py:239-306 | QUEUED ends at once, RUNNING is flagged once, terminal states are answered and left alone |
| Effects.CancellationEffect | src/acp/db/queries/tasks.py:239-306 | Every answer iff the state it found, with row, flag and event |
| Requests.RequestedIff | src/acp/db/queries/tasks.py:239-306 | Over every run the flag is set iff some step asked to cancel the task, or its agent's work, while it was QUEUED or RUNNING |
| Requests.RenewalDelivers | src/acp/db/queries/lease.py:25-73 | Over every run an accepted renewal answers that the task is to stop iff some step had asked, and extends the lease to now + ttl |
| Tasks.CancelAgentTasks | src/acp/db/queries/tasks.py:339-403 | Ends every QUEUED task of the versions, flags every RUNNING one not flagged, returns the exact count |
| Effects.AgentSweepRows | src/acp/db/queries/tasks.py:339-403 | A task of another agent version, or of none, is unchanged; one of these versions is CANCELLED if QUEUED, flagged if RUNNING, else unchanged |
| Effects.AgentSweepCount | src/acp/db/queries/tasks.py:352-403 | The count is the number of rows that changed and of events written, each about another of those rows |
| Ledger.EndAttempt | src/acp/db/queries/completion.py:28-220 | Whoever ends an attempt, closing row, attempt and log together keeps the three tables coherent |
| Ledger.GrantCoherent | src/acp/db/queries/claim.py:241-285 | Granting a QUEUED row keeps them coherent, and the attempt's primary key is free |
| Protocol.ClaimCoherent | src/acp/db/queries/claim.py:241-285 | A claim grants only QUEUED rows and never meets the duplicate-execution guard |
| Protocol.StepCoherent | src/acp/db/models.py:128-139 | Every step keeps the tables coherent and only adds history: terminal rows, closed attempts and past events are frozen |
| Protocol.RunCoherent | src/acp/db/models.py:128-139 | So does every run |
| Moves.StepMoves | src/acp/domain/states.py:60-66 | Every step leaves a row alone or makes the one move it stands for |
| Moves.StepsAreLegal | src/acp/domain/states.py:60-93 | No step, including the claim and the agent sweep, which bypass `transition`, makes an illegal move |
| Edges.EdgeIffTaken | src/acp/domain/states.py:60-93 | The table allows an edge iff some step of some run from the empty database takes it |
| Fencing.AttemptLedger | src/acp/db/models.py:136-198 | In every reachable state: attempt rows are 1..attempt; open iff last and RUNNING; holder is that row's worker; a success row exists iff the task SUCCEEDED, and is last |
| Fencing.EventReplay | src/acp/domain/states.py:100-133 | In every reachable state, folding the event log gives the stored state and attempt, noise included |
| Fencing.FenceOverRuns | src/acp/db/queries/transitions.py:131-148 | In every reachable state a token is accepted by a completion iff its attempt row is open and its own, by a renewal iff the lease also has not run out; a refusal changes nothing |
| Fencing.EndedTenureIsFenced | src/acp/db/queries/lease.py:40-56 | After a tenure ended, under any further steps, its token is refused everywhere and its outcome never changes |
| Fencing.OneHolderPerAttempt | src/acp/db/queries/claim.py:246-252 | One (task, attempt) is never held by two workers, at any two moments of a run |
| Fencing.OneSuccess | src/acp/db/queries/completion.py:49-74 | At most one attempt of a task is ever recorded as a success |
| Fencing.ResultHasOrigin | src/acp/db/queries/completion.py:57-74 | The result of a SUCCEEDED task was committed by a step whose presenter held it under its final attempt |
| Fencing.TerminalIsFinal | src/acp/domain/states.py:60-66 | A terminal row never changes again |
| Fencing.CancelledIff | src/acp/db/queries/reap.py:87-124 | Over every run a task is CANCELLED iff some step was a request that found it QUEUED or a report of its own holder with the cancel event set; recovery never cancels |
| Incidents.IgnoredRequestExample | src/acp/db/queries/tasks.py:239-306 | A run from the empty database: a RUNNING task is asked to stop, its lease runs out, recovery leaves it QUEUED with the request still set |
| Budget.LateAttemptsWereHandedBack | src/acp/db/queries/completion.py:203-219 | In every reachable state each finished attempt from max_attempts on, and that of a QUEUED task, is ABANDONED by an accepted hand-back of the run |
| Budget.OverBudgetIff | src/acp/db/queries/completion.py:203-219 | Over whole runs: attempt > max_attempts iff attempt number max_attempts was handed back and the task was granted at a later step |
| Incidents.OverBudgetExample | src/acp/db/queries/completion.py:203-219 | Five steps from the empty database: max_attempts 1, granted as attempt 2 |
| Budget.AttemptBudget | src/acp/domain/retry.py:125-139 | attempt <= max_attempts + the accepted hand-backs of attempts at or past it, strictly below while QUEUED |
| Budget.ClaimsAreFinite | src/acp/db/queries/claim.py:247 | The attempt number counts the claims of a run: at most max_attempts, and one more for each accepted hand-back at or past it |
| Bounds.TenantBounds | src/acp/db/queries/claim.py:202-236 | RUNNING <= max_concurrent and QUEUED + RUNNING <= max_queued + max_concurrent in every reachable state |
| Bounds.OneTaskPerKey | migrations/versions/0001_core_task_state.py:92-104 | At most one task per tenant and key over whole runs; submitted columns never change |
| Bounds.ResubmissionFindsOriginal | src/acp/api/routes/tasks.py:73-140 | A later resubmission changes nothing and finds its task iff it is admitted |
| Incidents.RefusedResubmissionExample | src/acp/api/routes/tasks.py:73-99 | A tenant with room for one task holds one keyed task; the identical submission again is refused for backlog |
| Bounds.DifferentPayloadRefused | src/acp/db/queries/tasks.py:131-140 | After any further steps a different payload under a used key changes nothing, and is answered with the task that has the key iff it is admitted |
| Bounds.ClaimsMatchCapabilities | src/acp/db/queries/claim.py:130-146 | In every reachable state a keyed claim takes only work the worker satisfies, and every ready unlocked task it satisfies is a candidate |
| Bounds.FallbackClaimsMatch | src/acp/db/queries/claim.py:148-162 | In every reachable state a fallback claim takes only work the worker satisfies, and of that exactly the tasks stored in normal form are candidates |
| Timing.ConfiguredCapabilities | src/acp/config.py:80-90 | Names from the settings are normalised and comma-free, so keyed matching is exact for them |
| Timing.RecoveryBound | src/acp/reaper/loop.py:38-43 | With draining sweeps, each starting at most a period after the last one's end, no RUNNING task is more than a period and a sweep past its lease |
| SlowSweeps.DocumentedBoundIff | src/acp/config.py:31 | No punctual run has a task RUNNING more than the period past its lease iff sweeps take no time |
| Timing.SilentWorkerIsGone | src/acp/config.py:28-36 | A silent worker's tenure is over by last claim or renewal + lease_ttl + reaper_period + the length of a sweep |
| Timing.LiveWorkerKeepsLease | src/acp/config.py:92-99 | Under `validate_timing`, renewals at most three intervals apart never fail; only its own ending or the execution cap takes the task away |
| Timing.LateRenewalIff | src/acp/config.py:92-106 | Settings pass iff a renewal three intervals after the last one is accepted and dead_after exceeds two heartbeats |
| Timing.BackoffIsHonoured | src/acp/db/queries/completion.py:77-113 | After an accepted retry nobody is granted the task before its delay has passed, in any run |
| Timing.WaitsItsTime | src/acp/db/queries/claim.py:101-103 | A queued task stays as it is, or is cancelled, until available_at |
| Timing.GrantedAlreadyHungIff | src/acp/db/queries/reap.py:203-237 | In every reachable state, the hung-task recovery takes a task just granted away again iff its cap has passed since its first start |
| Incidents.HungAtOnceExample | src/acp/db/queries/reap.py:203-237 | A run from the empty database in which the second attempt, just granted under a full lease, is taken away by a hung-task recovery at once |
| ReaperLoop.Reaper.Drain | src/acp/reaper/loop.py:55-67 | One phase takes back exactly the head of the backlog; counters and number of batches are exact |
| ReaperLoop.Reaper.Sweep | src/acp/reaper/loop.py:44-91 | Lease phase, then hung phase, sharing one stop flag |
| ReaperLoop.SweepCompleteness | src/acp/reaper/loop.py:55-67 | min(due, size * batches) rows, the longest overdue first; nothing takeable is left iff that covers the backlog |
| ReaperLoop.SweepTouchesOnlyTaken | src/acp/reaper/loop.py:55-67 | Rows taken are requeued or failed; every other row is untouched |
| Urgency.LongestOverdueFirst | src/acp/db/queries/reap.py:65-67 | On columns: each row taken has an earlier deadline than each overdue row left, or the same and a smaller id |
| Urgency.OverdueTaken | src/acp/reaper/loop.py:55-67 | A phase takes min(overdue rows, size * batches) |
| Urgency.FailuresCounted | src/acp/reaper/loop.py:55-67 | The failure counter is the number of tasks the phase left FAILED |
| Urgency.FullSweepLeavesNone | src/acp/reaper/loop.py:44-91 | An undisturbed sweep with batches enough for both backlogs leaves no unlocked row overdue in either sense |
| ReaperLoop.ReapAllIsRun | src/acp/db/queries/reap.py:182-200 | A batch is a run of single recoveries of the protocol |
| Locking.GrantHitsOnlyQueued | src/acp/db/queries/claim.py:95-109 | Under any interleaving locks stay disjoint and the grant meets only committed QUEUED rows nobody else holds, with free attempt numbers |
| Locking.NeverGrantedTwice | src/acp/db/queries/claim.py:275-285 | An attempt committed to a worker keeps it for ever; pending inserts never collide with committed or other pending ones |
| Locking.CommitIsAtomicGrant | src/acp/db/queries/claim.py:165-286 | A claim's commit writes the task rows and attempt rows that the atomic grant of its ids writes into the tables of that moment |
| Serial.OwnReplayed | src/acp/db/queries/transitions.py:20-28 | An open transaction is at every moment what its own statements alone make of it on the tables as they now are |
| Serial.CommitOrderIsSerial | src/acp/db/queries/transitions.py:20-28 | Serializability: for every interleaving the committed task and attempt rows are those of the run in which each committed transaction does its effective work alone at its commit |
| Scripts.ScriptActs | src/acp/db/queries/completion.py:49-220 | The statements of a completion, hand-back, renewal, recovery, cancellation or agent sweep, alone and committed, do to task and attempt rows what the step does |
| Refinement.CommitIsStep | src/acp/db/session.py:50-59 | A transaction among any others that did what a step does, claims included, makes that step of the tables at its commit |
| Refinement.InterleavingIsRun | src/acp/db/queries/transitions.py:20-28 | An interleaving whose submissions and commits, in order, stand for steps has the task and attempt rows of that run of the protocol |
| Refinement.RunIsInterleaving | src/acp/db/queries/transitions.py:20-28 | Every run of the protocol is the run of such an interleaving |
| Locking.StatementSafe | src/acp/db/queries/tasks.py:255-265 | Every statement of every transaction keeps lock sets disjoint and pending grants valid |
| WorkerLoop.Worker.ClaimAndDispatch | src/acp/worker/loop.py:265-310 | Claims into the free capacity and starts one attempt per row |
| WorkerLoop.Worker.Turn | src/acp/worker/loop.py:120-136 | One turn of the loop; in-flight attempts never exceed capacity; a worker told to stop claims nothing |
| Requests.TurnIsClaim | src/acp/worker/loop.py:129-131 | A turn with room is one claim for the smaller of room and batch; without room it claims nothing |
| Requests.ClaimIsRun | src/acp/worker/loop.py:293-310 | The worker then runs what it ran and each claimed task under its new attempt |
| Requests.ClaimIsListed | src/acp/worker/loop.py:334-338 | Each claimed task is listed for hand-back under its new attempt, every other entry as before |
| WorkerLoop.Worker.RenewAttempt | src/acp/worker/loop.py:503-526 | One renewal: a refusal sets the cancel event and ends the loop, a cancel request sets it |
| Requests.RefusalIsLast | src/acp/worker/loop.py:503-526 | Over a worker's run a refused renewal is the last of its attempt |
| WorkerLoop.Worker.EndAttempt | src/acp/worker/loop.py:366-381 | Finalise, then forget the task whether or not the transition applied |
| WorkerLoop.Worker.FinalizeAttempt | src/acp/worker/loop.py:528-651 | Cancel event first, then success, retry, failure; a rejection is recorded as an event |
| Reports.ReportedState | src/acp/worker/loop.py:567-603 | The state a report of a held attempt leaves: CANCELLED iff the event was set, SUCCEEDED iff it brought a result, QUEUED iff the class can pass, attempt < max_attempts and UNKNOWN is below 2, else FAILED |
| Reports.RetryReported | src/acp/worker/loop.py:585-595 | A retryable failure: every column of the three tables, available_at now plus the delay in whole microseconds, the delay in numbers |
| Reports.FailureReported | src/acp/worker/loop.py:595-603 | Any other failure: FAILED with its class, attempt FAILED, TASK_FAILED |
| Reports.SuccessReported | src/acp/worker/loop.py:577-584 | A result: SUCCEEDED with it, attempt SUCCEEDED, TASK_SUCCEEDED |
| Reports.CancelReported | src/acp/worker/loop.py:568-577 | With the event set: CANCELLED whatever was returned |
| Reports.RefusedReport | src/acp/worker/loop.py:617-651 | A report of an attempt not held changes no row and leaves one STALE_WRITE_REJECTED |
| WorkerLoop.Worker.Drain | src/acp/worker/loop.py:144-188 | A fenced worker writes nothing; any other hands back everything it lists |
| WorkerLoop.Worker.Harvest | src/acp/worker/loop.py:228-240 | Drops exactly the attempts that have ended |
| WorkerRuns.TrackingLostIff | src/acp/worker/loop.py:376-381 | Hand-back tracking is lost exactly when an attempt ends while the worker holds the task under another attempt |
| WorkerRuns.DrainFacts | src/acp/worker/loop.py:174-188 | A drain ends exactly the tenures listed under their attempt and touches no other row |
| Reports.DrainGivesUp | src/acp/worker/loop.py:174-188 | On columns: a held attempt is requeued for now, ABANDONED with "worker_shutdown", iff it is listed under its number, else untouched |
| WorkerRuns.DrainEmptiesIff | src/acp/worker/loop.py:174-188 | Nothing is RUNNING under the worker after a drain iff every task it held was tracked |
| WorkerRuns.GracefulShutdown | src/acp/worker/loop.py:117-194 | A run whose attempts never overlap drains to nothing RUNNING, and changes no other worker's task |
| Orphans.LeftRunningIff | src/acp/worker/loop.py:144-194 | After any run of a fresh worker, a drain leaves attempt n of a task RUNNING iff the worker held it and an older attempt of the same task ended after n was claimed |
| WorkerRuns.SelfReclaimOrphans | src/acp/worker/loop.py:337-381 | Re-claiming a task whose older attempt still runs here leaves it RUNNING after the drain once that attempt reports |
| WorkerIncidents.OverlapExample | src/acp/worker/loop.py:376-381 | The same as a run from the empty database, coherent and with a right list up to the report |
| CancelFlags.CancelledUnaskedIff | src/acp/worker/loop.py:503-526 | Over every run of a worker: an ending makes CANCELLED of a task nobody asked to cancel iff it still holds it and an earlier renewal of that attempt was refused while the lease had run out unreclaimed |
| CancelFlags.PunctualNeverUnasked | src/acp/config.py:92-99 | Under `validate_timing`, an attempt renewed at most three intervals apart is never ended so |
| WorkerIncidents.UnaskedExample | src/acp/worker/loop.py:520-524 | A run from the empty database in which a renewal at the moment of expiry makes CANCELLED of a task nobody cancelled |
| Pagination.ListTasks | src/acp/db/queries/tasks.py:160-201 | One page: the first rows below the cursor, and a cursor iff there are more |
| Urgency.PageOnColumns | src/acp/db/queries/tasks.py:173-195 | On columns: rows of the tenant and state asked for, after the cursor, created_at and id descending |
| Urgency.CursorOnColumns | src/acp/db/queries/tasks.py:190-201 | A next cursor iff some row asked for stands below the page; then the page is full and the cursor is its last row |
| Pagination.PaginationIsComplete | src/acp/db/queries/tasks.py:168-201 | Following cursors over a fixed table lists every matching row once, newest first; full pages but the last; no trailing empty page |
| Pagination.InsertsDisturbIff | src/acp/db/queries/tasks.py:180-185 | Rows added between pages leave the rest alone iff none sorts after the cursor |
| Cursors.CursorRoundTrip | src/acp/db/queries/tasks.py:150-157 | Decoding a cursor gives back the timestamp and id it was made from |
| Spelling.CursorSpelled | src/acp/db/queries/tasks.py:150-151 | The cursor is the base64 of timestamp, bar and id |
| Cursors.IsoRoundTrip | src/acp/db/queries/tasks.py:151-157 | Reading an ISO timestamp back gives the same timestamp, with and without a fraction |
| Spelling.IsoSpelled | src/acp/db/queries/tasks.py:151 | The timestamp text letter by letter |
| Cursors.Base64RoundTrip | src/acp/db/queries/tasks.py:151-155 | URL-safe base64 decodes to the bytes it encoded, for every length |
| Spelling.GroupSpelled | src/acp/db/queries/tasks.py:151 | Three bytes are four letters of the URL-safe alphabet, high bits first; shorter ends are padded |
| Cursors.UuidRoundTrip | src/acp/db/queries/tasks.py:151-157 | Reading a UUID back gives the same 128-bit number |
| Spelling.UuidSpelled | src/acp/db/queries/tasks.py:151 | 32 hexadecimal places, most significant first, dashes after 8, 12, 16 and 20 |
| Calendar.InstantOfStamp | src/acp/db/queries/tasks.py:150-157 | Every instant of years 1 to 9999 has a valid timestamp that names it |
| Calendar.InstantOrder | src/acp/db/queries/tasks.py:181-185 | Timestamps compare field by field exactly as the instants they name |
| Listing.ListTasks | src/acp/db/queries/tasks.py:160-201 | The page after an encoded cursor, with the next cursor encoded; an unreadable cursor is refused, an empty one starts at the newest row |
| Listing.UnreadableCursor | src/acp/db/queries/tasks.py:154-185 | An empty cursor is none; any other is refused iff it cannot be read |
| Listing.StringsListEverything | src/acp/db/queries/tasks.py:150-201 | A client that sends back each cursor string as it got it gets one list of pages, together every matching row once, newest first |

## Left out

- Claim policies other than the default order: the keyed path hard-codes priority, available_at, id, so the model has that order only.
- Concurrent snapshots: `Protocol` makes a transaction one atomic step with the locked rows as an argument; only `Locking` interleaves statements, and it tracks task rows, not the tenant row locks, so the soft-limit overshoot under stale snapshots is not modelled.
- Locking.CommitIsAtomicGrant: event rows are not part of the interleaved model; which rows a claim picks among those it may is left to the run.
- Serial.CommitOrderIsSerial: the picks of a claim are free choices, so the serial run need not choose as a claim alone would; statements that had no effect, such as an UPDATE whose WHERE clause met no row, are not repeated in the serial run, where they might have one; event rows are left out.
- Refinement.InterleavingIsRun: the clocks of the transactions, read at their start, must not fall from commit to commit, and a claim must have granted what the step's claim grants on the tables at its commit, for some batch, capabilities, locks and rounds.
- Rounds.ClaimGuarantee: the table and the set of rows locked elsewhere are fixed during one call.
- Reap.ReapBatch: rows with equal deadlines are taken in id order; the query leaves that order open.
- ReaperLoop.Reaper.Sweep: the clock and other transactions' locks are fixed during a sweep; `mark_dead_workers`, metrics and logging are left out.
- Timing.RecoveryBound: assumes, as the documented bound does, sweeps that nothing interferes with and that drain what they find; a sweep's writes take effect at its start, its length only delays the next one.
- Bounds.TenantBounds: each transaction is one atomic step; the soft-limit overshoot under stale snapshots is not modelled.
- Tasks.Submit: agent route resolution is an argument.
- Tasks.CancelAgentTasks: rows and events are written row by row in id order, one of the orders the database may choose.
- Tasks.SubmitTask: the `LookupError` for a conflicting insert that rolled back cannot arise in an atomic step; agent route resolution is an argument (`agentVersion`, `requiredCapabilities`).
- WorkerLoop.Worker.Drain: attempts that finish inside the grace period are `EndAttempt` calls before it; every database call succeeds, and pending attempts are cancelled before they finalise.
- WorkerLoop.Worker.FinalizeAttempt: the note of a rejection is written with the refused completion, in one step.
- CancelFlags.CancelledUnaskedIff: a renewal's answer reaches the cancel event in the same step.
- WorkerLoop.Worker.MaybeHeartbeat: the throttle and the worker table are left out; the answer is an argument.
- Cursors.CursorRoundTrip: the parsers accept the texts the encoder writes and reject other spellings Python would also read.
- Text: strip and lower case are those of ASCII.
- Retry: delays are reals, a draw is any number in its interval; a delay is cut to whole microseconds when it becomes a time.
- Columns that no guard reads: error_message, updated_at, event data.
- Agent registry, tool grants, authorisation, audit, heartbeats, HTTP schemas, migrations, metrics, tracing and adapters.
