# Bass, verified

A Dafny model of the Bass workflow platform's core: the durable workflow engine
with its store, the reliability primitives around it, and the triggers, policies
and migrations it is used with. `dafny verify dfyconfig.toml` checks everything.

The engine is modelled twice. `Machine.dfy` is a transition system: what survives
a crash (tables, entries of the external system, a history of decisions, grants
and posted operations) is apart from the drivers, each of which is one call of
`resume` with its copy of the run, its event buffer and its program point. A
driver step touches shared state at most once, so a crash, another driver, a
cancel or a late-landing operation can come between any two steps. `Engine.dfy`
is the engine as the object it is, with the loops, retries, handlers and in-place
updates of the program; every one of its runs is proved to be a path of the
transition system, and every `resume` is proved to end. `Api.dfy` puts the service
on top: any sequence of its calls is a run of the system from its initial state.

| file | what it holds |
|---|---|
| Core, StoreSpec, Store | values; tables and operations as functions; the store object |
| Machine | the transition system and its runs |
| ExactlyOnce, Provenance, Authorization, Privilege, StepLimit, Racing | what holds under every interleaving |
| Books, SingleDriver, Walk, Approvals, Standing | what holds with one driver per run at a time |
| Edges, Laws, Faults | which edge a step takes; what each kind of step does when it goes well; retries, compensation and failure |
| CrashEquivalence, CrashSchedules | the run with crashes against the run without |
| Escapes, Convergence | when an exception leaves the engine; how many resumes a run needs |
| Examples | concrete runs: assumptions that are needed, bounds that are reached, comments that do not hold |
| Engine, Api, Tools | the engine, the service and the external system as objects |
| Connector, RateLimit | circuit breaker, retries, backoff; fixed-window limiters |
| Policy | the policy gate |
| Text, Cron, Schedule, Migrate | cron fields, scheduling and deduplication, migrations |

## What is assumed where

- *One driver per run at a time* (`SingleDriver.SerialRun`): a resume or a cancel
  finds the run without a driver. `Conservation`, `TerminalStates`, `BudgetGate`,
  `WalkFollowsEdges`, `OneRequest` and `BlockedForever` need it; `CancelOverwritten` and, from the
  initial state, `CancelRace` show a cancel being overwritten without it, because
  a checkpoint does not look at the status. A terminal run without a driver is
  final under any schedule (`Racing.TerminalUndriven`).
  `Agreement`, `LedgerSeals`, `EntryOrigin`, `ContextOrigin`, `Authorized`,
  `OnlyListedTools`, `LargeEntriesApproved` and `StepCeiling` hold for any number of
  drivers per run.
- *Names without a colon*: a ledger key is run, step and tool with colons between,
  so it tells them apart when run ids, which are generated, and tool names hold no
  colon; step names may (`Standing.KeysApart`).
- *Crash equivalence* is about synchronous approvals and a deterministic
  environment: the model's answers, read-only results, connector faults and the
  approver's answers are functions of what is asked and where in the run (step
  entry, attempt, turn, call, context). The cost of the run with crashes can
  really be lower: an effect replayed from the ledger books nothing
  (`reference/bass/workflow.py:202-206`).
- A ledger row whose result is JSON null reads as no row
  (`reference/bass/store.py:245-249`), so `LedgerSeals` is about non-null rows.

## Where the code and its comments differ

- `reference/bass/api.py:72` says a raising `resume` has marked the run FAILED.
  It has exactly when it ended by a checkpointed failure (`Escapes.RaisingResume`).
  Unknown steps, tools and agents, arguments and tests that raise, agents out of
  turns, raising approvers and isolation errors escape instead, and leave the row
  as it was committed last; `Escapes.EscapesExactly` gives the guards and
  `Examples.EscapedRun` a run.
- The step budget is checked with `>` before the entry is counted, so the bound is
  `max_steps + 1`, not `max_steps` (`StepLimit.StepCeiling`, reached in
  `Examples.OneStepTooMany`). With several drivers of a run it bounds the committed
  count only: `Examples.TwoEntries` commits two entries under a bound of one, and
  the bound on entries needs one driver at a time (`SingleDriver.BudgetGate`).
- The breaker's half-open state does not admit one trial only: asking it changes
  nothing, so every call after the cooldown is admitted until an outcome is
  recorded, and it is asked once per call, not per retry. `Connectors.OneTrialIff`
  says when there is one invocation, `Examples.TwoTrials` shows two calls let
  through and one that invokes twice.
- Agents' calls of mutating tools pass the gate but not the ledger
  (`reference/bass/agent.py:76`); `Agreement` is about workflow tool nodes. Such a
  call goes out with whatever key the model wrote, and if that is the key of a
  node, the node's entry can be the agent's: `Examples.ForgedEntry` is a run in
  which it is, and `Provenance.OwnEntryIff` says when it cannot be.

## Model

| member | source | states |
|---|---|---|
| `CrashSchedules.CrashesDoNotMatter` | reference/bass/workflow.py:82-234 | if the run without crashes succeeds in n steps, every schedule of crashes at any program point, with posted operations lost in flight or delivered at any later time, succeeds once it is left alone for n steps, with the same context, result, status, cursor, step count and external entries, and a cost no higher |
| `CrashEquivalence.Lockstep` | reference/bass/workflow.py:107-151 | the crashing and the crash-free run, in the same place, take the same step and stay related, unless only the crashing one finds its effect recorded |
| `CrashSchedules.GetsThrough` | reference/bass/workflow.py:191-234 | a crash-free run inside a mutating call, if it will succeed, comes out of it with the entry of its key kept, recorded in the ledger and nothing else added |
| `CrashSchedules.Jump` | reference/bass/workflow.py:195-206 | replaying a recorded effect takes the crashing run in one step to where the crash-free run gets by executing it |
| `CrashSchedules.FiredStarts` | reference/bass/orchestrator.py:62-75 | the hypothesis on the starting state is met: a run just fired, in any reachable state with nothing in flight, is at such a start |
| `CrashSchedules.PlayIsRun` | reference/bass/orchestrator.py:77-84 | every crash schedule is a serial run of the whole system, each crash, reload, step and delivery one of its actions |
| `ExactlyOnce.Agreement` | reference/bass/workflow.py:195-233 | in every reachable state of any number of drivers, every ledger row and every committed context value of a mutating tool node is the external entry of its key, and no entry is ever changed or removed |
| `Provenance.EntryOrigin` | reference/bass/workflow.py:191-233 | in every reachable state the entry under the key of a run, step and tool was posted by that very step of that run, and is what the tool makes of the arguments the step resolves to with its key put in, unless an agent's call named that key |
| `Provenance.OwnEntryIff` | reference/bass/agent.py:57-76 | while a key has no entry: whatever lands next, an entry under it is the step's own, if and only if no agent's call has named the key |
| `Examples.ForgedEntry` | reference/bass/agent.py:57-81 | a concrete run from the initial state in which an agent's call of another step gets the entry under a node's key |
| `Provenance.TwoStepsTwoEntries` | reference/bass/workflow.py:195-233 | two different steps of a run whose effects are recorded have two keys and two entries, each recorded in its own row and posted by its own step |
| `Provenance.ContextOrigin` | reference/bass/workflow.py:182-234 | every committed context value is of an agent or tool step of the workflow: an agent's is the output of a final answer given for that step, a read-only tool's what it returned when called with the arguments that step resolves to |
| `Provenance.KeyedKeeps` | reference/bass/workflow.py:226-227 | the keyed arguments are the step's own and the key run:step:tool, nothing else changed |
| `Walk.WalkFollowsEdges` | reference/bass/workflow.py:107-151 | in every state of every serial run the committed step entries are a walk from the start of the graph, each the same step again or at an edge of the one before (`next`, a taken arm, none after terminate); the cursor is where the walk goes on; SUCCEEDED only after a step whose edge is none; a result exactly then, the context's `result` or else the context |
| `Walk.CursorMoves` | reference/bass/workflow.py:143-149 | whenever an action changes the committed cursor of a run, it moves along the edge of the step it was at, as taken in the context committed with it |
| `ExactlyOnce.LedgerSeals` | reference/bass/workflow.py:198-206 | in any reachable state with a non-null ledger row for a key, only drivers that are past their look at the ledger at that point can still post for the key, in any future of the system |
| `Authorization.Authorized` | reference/bass/workflow.py:208-231 | every operation ever posted, by nodes, compensations, replays or agents, was preceded by an ALLOW on exactly its arguments, or, for nodes only, by a REQUIRE_APPROVAL on them and by the driver seeing an approval row of that run and step granted, the last decision on that row before being that it is approved |
| `Authorization.LargeEntriesApproved` | reference/bass/policy.py:66-87 | under the default rules no accounts-payable entry over 5000 exists unless a human granted an approval for the run and step that posted it, before it was posted |
| `Privilege.OnlyListedTools` | reference/bass/agent.py:57-76 | in every reachable state a driver about to invoke an agent's call is at a tool on that agent's list, read-only ones included, and the governing rule is a match with ALLOW, or there is none and the tool is read-only |
| `Privilege.NodesAreListed` | reference/bass/workflow.py:208-210 | a node's call is never denied for the allow list |
| `SingleDriver.Conservation` | reference/bass/workflow.py:70-78 | in every state of every serial run the committed cost is the left-to-right sum over the run's committed events and the committed step count is the number of its step entries |
| `SingleDriver.TerminalStates` | reference/bass/workflow.py:114-148 | the cursor is null exactly when the run has succeeded, and the log of a terminal run ends with the one event announcing its status, while no other log holds such an event |
| `SingleDriver.TerminalForever` | reference/bass/workflow.py:87-88 | a terminal run's row never changes again and its log only loses payloads |
| `Racing.TerminalUndriven` | reference/bass/store.py:215-236 | under every interleaving, racing drivers included, a run that is terminal and has no driver at the moment never changes again |
| `SingleDriver.CancelOverwritten` | reference/bass/store.py:187-194 | from any state in which a driver is about to commit its last step, a cancel followed by that commit leaves the run SUCCEEDED |
| `Examples.CancelRace` | reference/bass/store.py:183-194 | a concrete run from the initial state: a committed cancel is overwritten by the driver's last commit |
| `Examples.OneStepTooMany` | reference/bass/workflow.py:114-122 | a concrete run that takes max_steps + 1 steps, so the bound is reached |
| `Examples.TwoEntries` | reference/bass/workflow.py:114-124 | a concrete run from the initial state in which two drivers of a run both enter and commit its only step: the committed count is max_steps + 1 = 1, the log holds two entries and two announcements of success |
| `SingleDriver.BudgetGate` | reference/bass/workflow.py:114-122 | every step entry of a run found cost and steps within budget, so its log holds at most max_steps + 1 entries and the cost exceeds the budget by at most what was booked since the last one |
| `StepLimit.StepCeiling` | reference/bass/budgets.py:20-26 | under every interleaving the committed step count of a run is at most max_steps + 1, over its whole life |
| `Convergence.Converges` | reference/bass/workflow.py:107-165 | in a closed step graph whose steps fail only by connector errors, refusals and pauses, of max_steps + 2 uncrashed resumes the last leaves the run in a terminal status |
| `Convergence.OneVisit` | reference/bass/workflow.py:82-151 | an uncrashed resume of such a run ends with a terminal row or with more steps committed, and never by an escaping exception |
| `Convergence.NoEscape` | reference/bass/workflow.py:107-151 | in a closed graph a resume ends by an escaping exception if and only if one of its steps meets a guard on which it breaks |
| `Escapes.EscapesExactly` | reference/bass/workflow.py:107-289 | in every state and for every answer an exception leaves the engine uncaught if and only if the driver is at one of the guards written out per program point, and then no table has changed |
| `Escapes.RaisingResume` | reference/bass/api.py:68-74 | in every state of every serial run, a resume that ends leaves the row FAILED if and only if it ended by a checkpointed failure; at an escape every table is as it was and the row is the non-terminal one committed last |
| `Escapes.PathEscapes` | reference/bass/workflow.py:82-151 | a whole resume escapes if and only if its path meets one of those guards |
| `Examples.EscapedRun` | reference/bass/workflow.py:110-111 | a concrete run from the initial state whose edge leads to no step: the exception escapes, the driver is gone and the row is RUNNING |
| `Approvals.OneRequest` | reference/bass/workflow.py:270-289 | whatever is crashed, resumed and resolved, no run and step ever get a second approval row, and a run committed as waiting has a row for its cursor step or for the step compensating it |
| `Standing.BlockedForever` | reference/bass/workflow.py:270-289 | while nobody approves, a run blocked by an approval posts nothing and keeps cursor, context and cost, whatever is resumed, crashed or done by other runs |
| `Standing.ResumeHeld` | reference/bass/workflow.py:279-289 | resuming a blocked run pauses it again if the decision is pending and fails it if it is a rejection or the budget is spent, and posts nothing either way |
| `Standing.KeysApart` | reference/bass/workflow.py:195-195 | equal ledger keys mean the same run, whatever the step and tool names, and, for tool names without a colon, the same step and tool |
| `Engine.WorkflowEngine.Resume` | reference/bass/workflow.py:82-105 | always ends; a terminal run is left alone, and otherwise what happened to store, external system and history is a complete path of the transition system from a driver of this run; after success or a pause the stored row is the engine's copy |
| `Engine.WorkflowEngine.Drive` | reference/bass/workflow.py:107-151 | the walk over a graph with cycles ends, having followed the transition system to an end state |
| `Engine.WorkflowEngine.Enter` | reference/bass/workflow.py:110-124 | unknown step, spent budget or a counted and announced entry, as the transition system has it; an entry only within the step budget |
| `Engine.WorkflowEngine.Advance` | reference/bass/workflow.py:143-149 | cursor, result and terminal event committed in one transaction with the step's events |
| `Engine.WorkflowEngine.Fail` | reference/bass/workflow.py:114-119 | FAILED and its error event committed together, or an escape with the store unchanged |
| `Engine.WorkflowEngine.Abandon` | reference/bass/workflow.py:127-141 | what each exception out of a step leads to: refusal to FAILED, connector error to compensation and FAILED, pause and anything else out of the engine |
| `Engine.WorkflowEngine.RunStepWithRetry` | reference/bass/workflow.py:153-165 | attempts up to the maximum, each connector error on record, other exceptions passed on at once |
| `Engine.WorkflowEngine.RunStep` | reference/bass/workflow.py:167-178 | any step leads the transition system to its commit point with the edge of its kind, or to an exception in flight |
| `Engine.WorkflowEngine.RunAgent` | reference/bass/workflow.py:182-189 | task resolved and handed to the agent loop; output kept under the step, and `next` taken |
| `Engine.WorkflowEngine.Converse` | reference/bass/agent.py:36-55 | the bounded loop over the model's answers ends in an output, an exception or out of turns |
| `Engine.WorkflowEngine.ExecCall` | reference/bass/agent.py:57-81 | a call is gated and executed, or refused and handed back to the model, with cost and events booked |
| `Engine.WorkflowEngine.RunTool` | reference/bass/workflow.py:191-206 | a recorded effect is replayed without gate or execution, and one of another tenant raises |
| `Engine.WorkflowEngine.Gated` | reference/bass/workflow.py:208-233 | decision on record before anything is executed; denied, approved or allowed as the gate said |
| `Engine.WorkflowEngine.Book` | reference/bass/workflow.py:228-234 | effect recorded before cost, event and context |
| `Engine.WorkflowEngine.RunBranch` | reference/bass/workflow.py:236-241 | if arm k has no test or a true one and all earlier tests are false, its target is taken with one event; if all are false, `next` without one; a test that raises comes out as an exception |
| `Engine.WorkflowEngine.AwaitApproval` | reference/bass/workflow.py:250-289 | synchronous and asynchronous approval: granted, refused, paused with request and status committed, or an exception |
| `Engine.WorkflowEngine.Compensates` | reference/bass/workflow.py:291-303 | the compensating step, if one exists, is announced and run once, and whatever it raises is swallowed; control comes to FAILED |
| `Engine.WorkflowEngine.Announce` | reference/bass/workflow.py:291-298 | an existing compensating step is announced and is what runs next, as its first attempt |
| `Faults.FailedCall` | reference/bass/workflow.py:153-165 | a failed call of a step: run again with the next attempt while attempts are left, then the compensating step is announced and about to be run, or, without one, the run about to fail |
| `Faults.StepLaw` | reference/bass/workflow.py:124-165 | a step goes to its compensation exactly when its attempts are exhausted and a compensating step exists, and to FAILED exactly on a refusal or when exhausted without one; a compensation goes nowhere but on in itself and to FAILED |
| `Faults.CompensationRuns` | reference/bass/workflow.py:291-303 | over every resume that ends: the compensations run are exactly those that became due, each once and as a first attempt, and at most one |
| `Faults.CompensationPosts` | reference/bass/workflow.py:291-303 | if the due compensation calls a mutating tool that the gate allows and whose connector does not fail, its effect is in the ledger and the entry of its key exists when the resume ends |
| `Faults.FailedCompensation` | reference/bass/workflow.py:299-303 | a compensating step in any state comes to FAILED with a failure announced exactly when an exception leaves it there: a failed call, a refusal, a pause, or a guard on which a main step would escape |
| `Edges.SelectIs` | reference/bass/workflow.py:236-241 | the three ways through a branch, by the first arm that holds or raises |
| `Laws.BranchRuns` | reference/bass/workflow.py:236-241 | a branch node takes the first arm without a test or with a true one, with its event, and `next` without one when all are false |
| `Laws.FireLaunches` | reference/bass/orchestrator.py:62-75 | a known workflow under a new id and key: the row is stored pending at the start step and driven with the trigger's event; anything else changes nothing |
| `Laws.StartLaunches` | reference/bass/orchestrator.py:77-84 | a resume of the tenant's own run that is not over drives it, as RUNNING, from its cursor; any other changes nothing |
| `Laws.EntersWithinBudget` | reference/bass/workflow.py:110-124 | a known step within both budgets is counted, announced and about to be attempted for the first time |
| `Laws.StepCommits` | reference/bass/workflow.py:143-150 | a finished step is committed with the cursor on its edge and all its events, and the walk goes on there |
| `Laws.RunSucceeds` | reference/bass/workflow.py:143-149 | without an edge the run is committed SUCCEEDED, with its result and its last event |
| `Laws.RunFails` | reference/bass/workflow.py:113-141 | over budget or after a failed step the run is committed FAILED with everything emitted before, its fields otherwise unchanged |
| `Laws.GateFirst` | reference/bass/workflow.py:208-224 | a tool node whose effect is not on record asks the gate first, and is then about to execute, to ask a human, or to fail |
| `Laws.Replays` | reference/bass/workflow.py:198-206 | a recorded effect becomes the step's value at no cost, without gate or execution |
| `Laws.MutatingToolRuns` | reference/bass/workflow.py:191-234 | an allowed mutating call from start to commit: the entry of its key is the earlier one or made of the step's keyed arguments, is recorded, booked at the tool's price on run and event, and kept |
| `Laws.ReadOnlyToolRuns` | reference/bass/workflow.py:191-234 | an allowed read-only call from start to commit: what it returned is booked and kept, and nothing is recorded |
| `Laws.Books` | reference/bass/workflow.py:228-234 | record, price, event, value and edge of a returned call |
| `Laws.DecisionCounts` | reference/bass/workflow.py:286-289 | a decision on record lets the call or node go on or fails the run |
| `Laws.ApproverDecides` | reference/bass/workflow.py:250-267 | a synchronous approval inserts a row, settles it as answered, and goes on or fails |
| `Laws.FirstRequestPauses` | reference/bass/workflow.py:270-280 | the first asynchronous request leaves one pending row and the run committed as waiting, and pauses |
| `Laws.AgentBegins` | reference/bass/workflow.py:182-187 | an agent gets the step's arguments, or the trigger if there are none |
| `Laws.AgentConcludes` | reference/bass/agent.py:36-53 | a final answer is booked, its output kept under the step, and `next` taken |
| `Laws.AgentCallsRun` | reference/bass/agent.py:46-49 | the read-only calls of an answer, all allowed, are made in its order and their results collected in that order |
| `Laws.AgentGated` | reference/bass/agent.py:57-74 | a call is gated for the agent; what is not allowed is refused and handed back without being invoked |
| `Laws.AgentCallReturns` | reference/bass/agent.py:76-81 | an allowed read-only call is booked at the tool's price on run and event and its result collected |
| `Laws.AgentPosts` | reference/bass/agent.py:57-76 | a mutating call goes out as the model wrote it, under the key its own arguments name |
| `Api.ApiService.Fire` | reference/bass/api.py:76-91 | unknown workflow and exceeded rate change nothing; otherwise one fire is added to the system's history; a new key gets the run created for it, driven to its end and as stored then; a duplicate changes nothing and gets the stored run of its tenant and key |
| `Api.ApiService.ResolveApproval` | reference/bass/api.py:106-113 | another tenant's run and an unknown approval change nothing; otherwise the decision, the start of one driver and only that driver's steps are added to the history, and the run comes back as stored |
| `Api.ApiService.Cancel` | reference/bass/api.py:99-104 | exactly one cancel is added to the history, and a live run of the tenant comes back with its status CANCELED and otherwise as it was |
| `Api.ApiService.SafeResume` | reference/bass/api.py:59-74 | only the steps of the one fresh driver are added to the history, the driver is gone at the end, and the caller gets the stored row, after an exception and otherwise |
| `Api.ServiceInvariants` | reference/bass/api.py:76-113 | after any calls: balanced books, closed terminal logs, single approval requests, and agreement of ledger, contexts and external entries |
| `Api.Lift` | reference/bass/runner.py:32-41 | one driver's path is a serial run of the whole system |
| `Tools.ExternalSystem.CreateApEntry` | reference/bass/tools.py:67-81 | a duplicate key gets the original entry, a new one is stored, and no entry is replaced |
| `Tools.KeyOfArgs` | reference/bass/tools.py:67-81 | the key is the idempotency key if given and not empty, else the invoice number, else the empty text |
| `Laws.Applied` | reference/bass/tools.py:67-81 | an operation that takes effect is stored unless its key has an entry; a key that is an array or an object stores nothing |
| `StoreSpec.TenantFrame` | reference/bass/store.py:133-316 | any sequence of operations of other tenants leaves every run, event, approval and effect of a tenant as it was and adds none |
| `StoreSpec.IdentityFixed` | reference/bass/store.py:183-194 | no operation changes a run's identity columns, removes its row or redirects a key |
| `StoreSpec.Latest` | reference/bass/store.py:301-308 | the row found concerns the run and step, and no later one does |
| `StoreSpec.TraceExactly` | reference/bass/store.py:205-213 | the trace is every event of the tenant's run and nothing else, in the order of the log |
| `StoreSpec.EventsExactly` | reference/bass/store.py:205-213 | likewise for the events of a run that all claims about logs speak of |
| `Store.SqlStore.CreateOrGetRun` | reference/bass/store.py:133-155 | inserted exactly when neither id nor key is taken; a duplicate finds the run of its key |
| `Store.SqlStore.LoadRun` | reference/bass/store.py:157-161 | a row is returned only to its tenant |
| `Store.SqlStore.Checkpoint` | reference/bass/store.py:183-203 | row and all events together, or, if one event is of another tenant, nothing at all |
| `Store.SqlStore.ListEvents` | reference/bass/store.py:205-213 | exactly the tenant's events of the run, in order, or a refusal |
| `Store.SqlStore.CancelRun` | reference/bass/store.py:215-236 | status and event of a live run of the tenant change together; otherwise nothing |
| `Store.SqlStore.GetEffect` | reference/bass/store.py:240-249 | missing, another tenant's, or the recorded result |
| `Store.SqlStore.RecordEffect` | reference/bass/store.py:251-258 | the first row of a key stays |
| `Store.SqlStore.CreateApproval` | reference/bass/store.py:262-274 | a pending row is appended, or refused for another tenant's run |
| `Store.SqlStore.ResolveApproval` | reference/bass/store.py:276-289 | the row's status is set for its tenant only |
| `Store.SqlStore.LatestApproval` | reference/bass/store.py:301-308 | the search from the newest row finds the latest approval |
| `Store.SqlStore.PurgeEventPayloads` | reference/bass/store.py:291-299 | exactly the payloads of the tenant's stale events are emptied, and everything else stays |
| `Connectors.LoadShedding` | reference/bass/connectors.py:53-118 | sequential failing calls that start within t of the breaker's first trip invoke the operation at most threshold + max_retries + (max_retries + 1) * floor(t / reset) times; fewer than threshold times if it never trips |
| `Connectors.TrippedIff` | reference/bass/connectors.py:60-67 | for a threshold of at least one the breaker is open exactly when the failures since the last success reach it, stamped with one of those failures |
| `Connectors.TrippedNeedsThreshold` | reference/bass/connectors.py:64-67 | that equivalence holds of all histories if and only if the threshold is at least one |
| `Connectors.CircuitBreaker.Allow` | reference/bass/connectors.py:53-58 | refuses exactly while open for less than the cooldown, and changes nothing |
| `Connectors.OneTrialIff` | reference/bass/connectors.py:53-109 | a call let through by a tripped breaker invokes exactly once if and only if there are no retries or its first answer is not transient, and until an outcome is recorded every later call is let through too |
| `Connectors.TrialReopens` | reference/bass/connectors.py:53-67 | after a failing trial a call is let through exactly when the cooldown has passed since that trial's last failure |
| `Examples.TwoTrials` | reference/bass/connectors.py:53-58 | a tripped breaker after its cooldown lets a second call through before the first has an outcome, and one such call invokes twice |
| `Examples.TwoTrialsRun` | reference/bass/connectors.py:86-118 | the same done by the breaker and connector objects |
| `Connectors.Connector.Run` | reference/bass/connectors.py:86-118 | invocations exactly to the first answer that is not transient and at most max_retries + 1, every outcome recorded in the breaker, pauses as the backoff prescribes, and the verdict of the last answer |
| `Connectors.AttemptsExact` | reference/bass/connectors.py:92-109 | all answers but the last are transient, and the last is too only when the retries are used up |
| `Connectors.BackoffBound` | reference/bass/connectors.py:111-115 | pauses never shrink and add up to at most min(base * (2^max_retries - 1), max_retries * cap) |
| `Connectors.BackoffDoubles` | reference/bass/connectors.py:111-115 | the first pause is the base, each next one the double, up to the cap |
| `Connectors.HitsRecord` | reference/bass/connectors.py:86-118 | the breaker of the load model is the one `Connector.Run` leaves |
| `RateLimit.InMemoryRateLimiter.Allow` | reference/bass/ratelimit.py:32-41 | the count after the call decides; past 4096 entries exactly those of older windows are dropped, and otherwise nothing is |
| `RateLimit.Refines` | reference/bass/ratelimit.py:32-41 | while windows never go back, the evicting limiter answers as a counter that forgets nothing |
| `RateLimit.AdmitsExactly` | reference/bass/ratelimit.py:34-41 | exactly min(calls, limit) calls of every key and window are admitted |
| `RateLimit.TwiceTheLimit` | reference/bass/ratelimit.py:21-41 | no interval of the window's length sees more than twice the limit admitted for a key |
| `RateLimit.RedisRateLimiter.Allow` | reference/bass/ratelimit.py:54-60 | one increment, an expiry only after the first of a window and perhaps never, and the count decides |
| `RateLimit.SharedWindow` | reference/bass/ratelimit.py:44-60 | all instances together admit exactly min(calls, limit) per key and window, expiries delayed or lost included |
| `RateLimit.NeverExpiresInside` | reference/bass/ratelimit.py:56-59 | inside its own window a counter has every hit and has not expired |
| `RateLimit.ExpiresAfterWindow` | reference/bass/ratelimit.py:56-59 | an expiry that gets through keeps the counter for exactly one window from then, its count unchanged |
| `RateLimit.RedisKeyInjective` | reference/bass/ratelimit.py:56-56 | different keys and windows never share a counter, whatever characters the key holds |
| `Policies.FirstMatch` | reference/bass/policy.py:49-63 | sorting the rules and scanning them takes the first decisive rule in (priority, list position) order, found without sorting, or the default if there is none |
| `Policies.CheckDecides` | reference/bass/policy.py:43-63 | for every request and rule list, read-only tools included: off the agent's list the decision is DENY; else it is the verdict of the governing rule, or, if no rule is decisive, DENY for mutating and ALLOW for read-only tools |
| `Policies.FailClosed` | reference/bass/policy.py:49-63 | a mutating tool is allowed only by a matching ALLOW rule that precedes every other rule that matches or raises |
| `Policies.OrderIndependent` | reference/bass/policy.py:39-58 | with pairwise distinct priorities every permutation of the rules decides alike |
| `Policies.DefaultGate` | reference/bass/policy.py:66-87 | what the default rules decide for entries: referral over 5000, denial when the amount is no number, else ALLOW |
| `Policies.DefaultDecisions` | reference/bass/policy.py:66-87 | what the default rules decide for every tool, on the list and off it |
| `Cron.ParsePrinted` | reference/bass/schedule.py:24-42 | for every syntax tree of stars, literals, ranges, lists and non-zero steps, negative bounds and steps included where the parser takes them, parsing its text gives exactly its meaning within the bounds |
| `Cron.ParseField` | reference/bass/schedule.py:24-42 | the nested loops compute the union of the parts' ranges, negative steps and steps past the end included, and raise exactly when some part is malformed |
| `Cron.BadPartsRaise` | reference/bass/schedule.py:24-42 | a field with an empty part, a zero step, or a character that belongs to no number, star or step raises |
| `Cron.IntExamples` | reference/bass/schedule.py:28-38 | signs are read, and text without digits or with a stray underscore is no number |
| `Cron.AddRange` | reference/bass/schedule.py:39-41 | the inner loop adds exactly the members of `range(start, stop, step)` within the bounds |
| `Cron.MatchesRule` | reference/bass/schedule.py:45-71 | the matcher on the text of any expression is the declarative crontab rule, both restricted day fields matching by either (INPUT FILES section of crontab, POSIX.1-2017) |
| `Cron.FiveFields` | reference/bass/schedule.py:47-49 | an expression of any number of words but five raises |
| `Cron.CronMatches` | reference/bass/schedule.py:45-71 | the program's early returns and errors, field by field |
| `Schedules.OncePerSlot` | reference/bass/schedule.py:93-102 | two scheduled firings of a tenant, by any replicas and in any years, lead to the same run exactly when they are for the same schedule and minute |
| `Schedules.OneRunPerKey` | reference/bass/orchestrator.py:62-75 | over any interleaving exactly the first fire of a tenant and key creates a run, two fires return the same run exactly when tenant and key agree, and the run's identity never changes |
| `Schedules.ScheduleKeyInjective` | reference/bass/schedule.py:94-101 | firing keys coincide exactly for the same schedule and minute |
| `Schedules.TriggerKey` | reference/bass/orchestrator.py:30-37 | a scheduled trigger's idempotency key is its message id |
| `Schedules.DeriveIdempotencyKey` | reference/bass/orchestrator.py:30-37 | idempotency_key, message_id, delivery_id and id, in this order: the first that is given and not empty, else the hash |
| `Schedules.Scheduler.DueNow` | reference/bass/schedule.py:90-91 | the enabled schedules that match, in order; a malformed one raises before anything is fired |
| `Schedules.DueExactly` | reference/bass/schedule.py:90-91 | the due schedules are exactly the enabled ones that match, in order, and looking for them raises exactly when an enabled one is malformed |
| `Schedules.Scheduler.Tick` | reference/bass/schedule.py:93-102 | one firing per due schedule, in order, each with its trigger: source, schedule, minute and message id |
| `Migrate.LedgerIsPrefix` | reference/bass/migrate.py:92-123 | after any history of successful, failed and interrupted runs of a growing list the ledger is a prefix of the list and the schema the fold of exactly that prefix |
| `Migrate.RunKeepsPrefix` | reference/bass/migrate.py:98-123 | a run reports exactly what it applied, and stops short only at a statement that raises or when killed |
| `Migrate.RerunAppliesNothing` | reference/bass/migrate.py:104-106 | a run after full success applies and changes nothing |
| `Migrate.Migrator.Run` | reference/bass/migrate.py:98-123 | the loop with its rollbacks does what the model of a run does |

## Left out

- `store_postgres.py`: the same operations once more; SQL text, JSON encoding, locks and row-level security are library behaviour.
- `redaction.py`, `auth.py`, `webhook.py`, `providers.py`, `http_call`, `temporal_adapter.py`, FastAPI routes, dashboard, tracing, logging, metrics, configuration and secrets: regular expressions, cryptography, networks and plumbing. Event payloads carry only what identifies the event, and the actor column is left out.
- The SQLite path of the migrator: its script execution commits by itself, so a migration is not atomic there.
- Floating point: money and time are reals, so rounding, NaN and infinities are not modelled; sums follow the booking order.
- JSON details: numbers and booleans that Python would take for the same dictionary key, and values that JSON cannot encode, are kept apart; `int()` on non-ASCII digits in a cron field is not modelled.
- Mutating tools are modelled as posting one value, a function of their arguments, to a system that is idempotent on a key; tools with other side effects are not covered by `ExactlyOnce.Agreement`.
- A step's id is its key in the workflow's step table, and a run keeps the workflow it was created with.
- Engines are used for one resume, as the service and the runner do; an engine reused after an escaped exception, which would keep a stale event buffer, is not modelled.
- Engine.WorkflowEngine.Execute: an operation is applied during its invocation or not at all; late application and other drivers at work in between are covered by the transition system only.
- CrashSchedules.CrashesDoNotMatter: synchronous approvals; with asynchronous ones the outcome depends on when a human answers.
- Schedules.OncePerSlot: the year is printed without padding, as on Linux; run ids are taken to be distinct.
- Standing.BlockedForever: run ids without a colon, as they are generated; with colons, ledger keys of two runs could coincide.
- Provenance.EntryOrigin: run ids and tool names without a colon, as for `KeysApart`, and except for keys that an agent's call has named (`Provenance.OwnEntryIff`, `Examples.ForgedEntry`).
- Faults.CompensationPosts: for a ledger row of the compensating call that is absent or the run's own tenant's; another tenant's row raises and the compensation fails (`Faults.FailedCompensation`).
- Api.ApiService.SafeResume: an exception that is not one of the platform's own would pass through to the caller; the stored state is the same.
- `list_runs`, `ensure_tenant`, `is_open` and workflow registration: a filtered and sorted listing, an upsert of a tenant's name, a reading of the breaker and insertions into dictionaries.
