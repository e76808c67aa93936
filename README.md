# aumai-transactions in Dafny

This project models the transaction engine of aumai-transactions, a saga library for multi-agent work.

- A `TransactionManager` creates transactions in the `pending` state and appends steps to them.
  Each step is a forward action with an optional compensating (undo) action.
- A commit moves the transaction to `active`.
  If the deadline lies outside the representable instants, the commit raises and the transaction stays `active`.
  If it is past its deadline, the transaction becomes `failed` and no handler runs.
  Otherwise the forward actions run in insertion order.
  On the first one that raises, every step that had completed is compensated, last first.
  Compensation is best effort and swallows errors.
  The transaction then ends `rolled_back`, naming the failing step and its message.
  Otherwise the transaction ends `committed`.
- A rollback compensates every step and ends `rolled_back`.
- A `SagaOrchestrator` collects participant steps and runs them as one transaction: begin, add each step, commit.

The project has three modules:

- `Seqs` holds sequence helpers: reversal, distinctness and the element set.
- `Models` holds the records and their defaults:
  - the five lifecycle states and their string values;
  - `TransactionStep`, `TransactionResult` and the `Transaction` class.
- `Core` holds the manager and the orchestrator as classes that change state in place.
  Their methods are proved against specification functions:
  - `RunForward`, `CommitResult` and `CommitCalls` say what a commit returns and which handlers it calls;
  - `CompensatedIds` and `CompensationCalls` say what the compensation pass reports and calls.
  Lemmas then say what those functions mean.

Handlers are a table from action name to a function of the payload. The function returns `Ok` or `Err(message)`. An action with no entry is a no-op, which makes a dry run.

The manager keeps a ghost `trace` of every handler it invokes. Contracts can therefore state which handlers run, and in what order.

## Model

| member | source | states |
|---|---|---|
| Models.ParseState | src/aumai_transactions/models.py:18-25 | A string names a state exactly when it is one of the five values; the state found carries that value. |
| Models.StatesAreExactlyFive | src/aumai_transactions/models.py:18-25 | There are exactly five states. Their string values are pairwise different. Each value parses back to its own state. |
| Models.NewStep | src/aumai_transactions/models.py:28-40 | A step built from its required fields has an empty payload and no compensating action. |
| Models.Transaction.constructor | src/aumai_transactions/models.py:43-56 | A transaction holds exactly the id, steps, state, creation instant and timeout it is given. |
| Models.Transaction.WithDefaults | src/aumai_transactions/models.py:43-56 | A transaction built from its required fields has no steps, is pending and has a 60-second timeout. |
| Models.NewResult | src/aumai_transactions/models.py:59-72 | A result built from its required fields has no completed steps, no failed step and no error. |
| Core.StepIds | src/aumai_transactions/core.py:173 | The ids of the steps, one per step, in order. |
| Core.RunForward | src/aumai_transactions/core.py:139-153 | The forward pass completes exactly when no forward handler raises. Otherwise it stops at a step whose handler raised, after steps whose handlers all returned. |
| Core.RunForwardStopsAt | src/aumai_transactions/core.py:139-145 | The first step whose handler raises is where the forward pass stops, with that step's message. |
| Core.CompensatedIds | src/aumai_transactions/core.py:221-240 | The ids a compensation pass reports: at most one per step. |
| Core.CompensatedIdsAreDone | src/aumai_transactions/core.py:229-238 | A compensation pass reports only ids from the completed set. |
| Core.CompensationCalls | src/aumai_transactions/core.py:228-238 | The undo calls a compensation pass makes: at most one per step. |
| Core.CompensationCallsRegistered | src/aumai_transactions/core.py:231-235 | Every undo call a compensation pass makes goes to a registered handler. |
| Core.ForwardCallsRegistered | src/aumai_transactions/core.py:215-219 | Every forward call goes to a registered handler. |
| Core.CommitResult | src/aumai_transactions/core.py:126-160 | A commit's result carries the transaction's id and ends `committed`, `rolled_back` or `failed`, never `pending` or `active`. It is `failed` exactly when the deadline has passed. It names a failed step exactly when it is `rolled_back`. It has no error exactly when it is `committed`. It reports at most one id per step. |
| Core.CommitCalls | src/aumai_transactions/core.py:126-160 | A timed-out commit calls nothing; any other commit makes at most two calls per step, one forward and one undo. |
| Core.CommitCallsRegistered | src/aumai_transactions/core.py:139-153 | A commit only ever calls registered handlers. |
| Core.CompensationSplits | src/aumai_transactions/core.py:228-238 | Compensating `a + b` compensates `b` and then `a`, both for the ids reported and for the undo calls made. |
| Core.CompensationSkipsOthers | src/aumai_transactions/core.py:229-230 | Steps whose ids are not in the completed set are neither reported nor undone. |
| Core.CompensateAllIds | src/aumai_transactions/core.py:173-174 | When every id is in the completed set, the reported ids are all ids reversed. |
| Core.CompensateAllCalls | src/aumai_transactions/core.py:228-238 | When every id is in the completed set, the undo calls are those of every step that declares an undo with a registered handler, in reverse order. |
| Core.CompensateAll | src/aumai_transactions/core.py:173-174 | When every id is in the completed set, the reported ids are all ids reversed, and the undo calls are the declared undos that have a registered handler, reversed. |
| Core.LaterIdsAreFresh | src/aumai_transactions/core.py:225-230 | With distinct step ids, no step from position `k` on has its id among the first `k` ids, so the rollback after a failure at `k` skips it. |
| Core.CompensatePrefix | src/aumai_transactions/core.py:137-145 | With distinct step ids, compensating the ids of the first `k` steps reports those ids reversed and makes exactly their undo calls reversed. Later steps are untouched. |
| Core.ForwardCallsInOrder | src/aumai_transactions/core.py:139-141 | When every action has a handler, the forward calls are one per step, with that step's action and payload, in insertion order. |
| Core.DryRunInvokesNothing | src/aumai_transactions/core.py:29-38 | Without handlers, neither forward actions nor undos invoke anything. |
| Core.CommitTimesOut | src/aumai_transactions/core.py:129-135 | A timed-out commit returns `failed` with the timeout message and no completed steps, and calls no handler. |
| Core.Deadline | src/aumai_transactions/core.py:260 | The deadline exists exactly when `created_at + timeout_seconds` is a representable instant, and then lies `timeout_seconds` after `created_at`. |
| Core.TimedOut | src/aumai_transactions/core.py:258-261 | No answer when the deadline cannot be computed. Otherwise timed out exactly when `now` lies strictly more than `timeout_seconds` after `created_at`. |
| Core.TimeoutBoundary | src/aumai_transactions/core.py:258-261 | The deadline is strict: at exactly `created_at + timeout_seconds` the transaction is not timed out, and one microsecond later it is. |
| Core.HugeTimeoutOverflows | src/aumai_transactions/core.py:260 | A timeout of 10^12 seconds, or of -4*10^11 seconds, gives no computable deadline, whatever the creation instant. |
| Core.DefaultTimeoutFits | src/aumai_transactions/core.py:45 | The default 60-second timeout always gives a computable deadline, unless the transaction was created in the last minute of the representable range. |
| Core.CommitSucceeds | src/aumai_transactions/core.py:155-160 | When no forward handler raises, the commit returns `committed` with every step id in order and makes exactly the forward calls. |
| Core.CommitStopsAt | src/aumai_transactions/core.py:139-153 | When step `k` is the first to raise, the result is `rolled_back`. It names step `k` and its message and carries the ids the compensation of steps before `k` reports. The calls are the forward calls up to `k` and then that compensation. |
| Core.CommitFailsAt | src/aumai_transactions/core.py:139-153 | With distinct step ids, a commit failing first at step `k` reports the ids of steps `0..k-1` last first. Its calls are the forward calls of steps `0..k` followed by the undos of steps `0..k-1` in reverse order. |
| Core.ScenarioFailsAtThird | tests/test_core.py:255-276 | For three steps whose third action raises, the forward pass stops at the third step. |
| Core.ScenarioForwardCalls | tests/test_core.py:255-276 | The three forward actions of the scenario run in insertion order. |
| Core.ScenarioUndoCalls | tests/test_core.py:255-276 | The undo actions declared by the scenario's first two steps, in insertion order. |
| Core.ThirdStepFailsResult | tests/test_core.py:255-276 | When the third of three steps raises, the result is `rolled_back`. It reports the second and then the first step as compensated and names the third as failed. |
| Core.ThirdStepFailsCalls | tests/test_core.py:255-276 | When the third of three steps raises, the handlers called are `step_a`, `step_b` and `step_c`, then `undo_b`, then `undo_a`. |
| Core.TransactionManager.constructor | src/aumai_transactions/core.py:35-39 | The handler table is the one given, or empty when none is given. The registry starts empty. |
| Core.TransactionManager.Begin | src/aumai_transactions/core.py:45-63 | A fresh pending transaction with no steps, the given timeout (60 seconds by default) and creation instant `now`, added to the registry under its id. |
| Core.TransactionManager.AddStep | src/aumai_transactions/core.py:88-103 | A transaction that is not pending is refused with its id and state, and nothing changes. Otherwise exactly the new step is appended, the step is returned and the transaction is re-registered. |
| Core.TransactionManager.Commit | src/aumai_transactions/core.py:120-160 | A transaction that is not pending is refused, and nothing changes. When its deadline cannot be computed, the commit raises a deadline overflow, leaves the transaction `active` and calls no handler. Otherwise the result, the final state and the handler calls are those of `CommitResult` and `CommitCalls` for the deadline check at `now`. Either way the transaction stays registered under its id. |
| Core.TransactionManager.RunSteps | src/aumai_transactions/core.py:137-160 | The forward loop of a commit yields `CommitResult` and `CommitCalls` for a commit within its deadline, and the final state is the result's state. |
| Core.TransactionManager.AbortAt | src/aumai_transactions/core.py:143-153 | After step `i` raises, the completed steps are compensated and the result is `rolled_back`, naming step `i` and the message. |
| Core.TransactionManager.Rollback | src/aumai_transactions/core.py:173-180 | The result is `rolled_back` and reports every step id last first. The undo calls are the declared undos that have a registered handler, in reverse order. This holds in any state. |
| Core.TransactionManager.GetTransaction | src/aumai_transactions/core.py:191 | A transaction is found exactly when its id is registered. The one found is the registry's own object and carries that id. |
| Core.TransactionManager.GetAllTransactions | src/aumai_transactions/core.py:199 | Every registered transaction, each exactly once. |
| Core.TransactionManager.RegisterTransaction | src/aumai_transactions/core.py:209 | The registry maps the transaction's id to it, and all other entries are kept. |
| Core.TransactionManager.ExecuteStep | src/aumai_transactions/core.py:215-219 | The outcome is that of the step's registered handler, or `Ok` when there is none. The handler call, if any, is recorded. |
| Core.TransactionManager.ExecuteRollback | src/aumai_transactions/core.py:221-240 | The ids reported are those of the steps in the completed set, last first. The undo calls are exactly theirs, made whatever each undo returns. |
| Core.TransactionManager.SetState | src/aumai_transactions/core.py:242-256 | The state changes in place and the registry points at the same object. A transaction already registered leaves the registry unchanged. |
| Core.BuildSteps | src/aumai_transactions/core.py:305-312 | One step per registered participant, in order, with that participant's agent, action, payload and undo action. |
| Core.SagaOrchestrator.constructor | src/aumai_transactions/core.py:274-276 | Uses the given manager, or a fresh one with no handlers and an empty registry. No steps are registered. |
| Core.SagaOrchestrator.Register | src/aumai_transactions/core.py:293 | Exactly the participant step is appended. |
| Core.SagaOrchestrator.Execute | src/aumai_transactions/core.py:295-313 | The registry grows by exactly one fresh transaction holding the registered steps in order, with a 60-second timeout by default. When its deadline cannot be computed, the result is a deadline overflow, the transaction stays `active` and no handler runs. Otherwise the result and handler calls are those of committing those steps, and the transaction's state is the result's. |
| Core.CommitTwice | src/aumai_transactions/core.py:88-124 | Every commit of a pending transaction leaves it out of `pending`; a commit that fails does so by a deadline overflow, leaving it `active`. A second commit and a further step are then both refused with the state the first commit left. |
| Core.CommitThenLookup | src/aumai_transactions/core.py:242-256 | After a commit, looking the transaction up by id yields the very object committed, in the state the commit left. |

## Left out

- The command-line front end and its file persistence (`cli.py`) are not part of this model.
- Random ids are not modelled. `uuid4` becomes id parameters.
  - `Begin` and `SagaOrchestrator.Execute` require that the transaction id is not already registered.
  - Step ids are unconstrained. Only `CompensatePrefix`, `CommitFailsAt` and the scenario lemmas assume they are distinct.
  - `Commit` itself is stated for any step ids. This matters because, with a repeated id, the compensation pass also visits later steps that share an id with a completed one.
- The wall clock is not modelled. `datetime.now()` becomes the parameter `now`.
  - Times are `Instant`s: microseconds from 0001-01-01 00:00:00 to 9999-12-31 23:59:59.999999, the range of the datetime type.
  - The `OverflowError` that computing an out-of-range deadline raises becomes the failure `DeadlineOverflow`. That covers a timedelta too large to build as well, since any such timedelta already overshoots the range.
- Handlers are not modelled as arbitrary Python callables:
  - A handler is a pure function of its payload. Side effects and state shared between handlers are not modelled.
  - The action name a handler also receives is the key it is registered under, so it is implied.
  - Payload values are strings rather than arbitrary objects.
  - An exception is `Err(message)`, and the message stands for `str(exc)`.
- Field validation and type coercion by the model library are not modelled.
- Concurrency is not modelled.
- Core.TransactionManager.GetAllTransactions: does not state the dictionary's insertion order, only that each registered transaction appears exactly once.
- Models.Transaction: `transactionId`, `createdAt` and `timeoutSeconds` are immutable fields (`const`). No operation of the engine reassigns them.
- Core.TransactionManager.RunSteps: the forward loop and the abort path of `commit` are split into `RunSteps` and `AbortAt` to keep each proof small.
  - The loop leaves by `break` where the source returns from inside it.
  - The observable behaviour is stated once, on `Commit`.
- Core.TransactionManager.Rollback: the source's documentation says a rollback is meant for pending or active transactions. The code has no such check and rolls back committed, failed or already rolled-back transactions too. The model follows the code.
