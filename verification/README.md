# Toolbox: a verified model

This project models the toolbox, a server that registers MCP toolsets, mounts their tools, and runs
small programs and batches over them, and proves properties of four parts of it.

**The constrained program interpreter** (`program_*.dfy`). A program is an AST; a run is a function of
the program, the context, the budgets and a *host* that answers tool calls, iteration and the operations
on opaque Python values as an arbitrary function of everything asked so far. Iterables may never end, so
evaluation terminates by the lexicographic measure (remaining loop budget, AST size), which every
`decreases` clause of `ProgramSemantics` states. `ProgramRuntime` is the evaluator as a class that
updates its traces, its shared loop counter and the environment in place, refining that function. The
other modules prove the work bound, budget monotonicity, call discipline, and the frame of the
environment and of the loop signals, and `program_laws.dfy`, `program_container_laws.dfy` and
`program_statement_laws.dfy` say what each construct means, as laws between programs and values.

**The runtime actor** (`actor_protocol.dfy`, `actor_closing.dfy`, `runtime_actor.dfy`). A transition system of interleaved
callers, timeouts, cancellations and one actor task with a FIFO queue of futures, and the handle and
actor as a class whose methods are its steps.

**The toolset lifecycle** (`inventory.dfy`, `mounted_names.dfy`, `scopes.dfy`, `registry.dfy`,
`lifecycle*.dfy`, `contract_diffs.dfy`, `bulk_*.dfy`, `service.dfy`). `Lifecycle` says what each lock-protected step
does to the records, both snapshot caches, the runtimes, the in-flight counters and the audit history,
as maps by namespace; the invariants hold in every state any run can reach, restarts included, and
`LifecycleEffects` and `LifecycleLaws` say when each operation succeeds and what it leaves. `Registry`
and `Service` are the list store, the audit log and the service as classes, and each service method is
proved to do to that state what its step function says.

**Batches** (`batch_references.dfy`, `batch_runs.dfy`). `$from` references inside JSON arguments, the
path each one spells, and batches whose later steps use the results of earlier ones.

`prelude.dfy` and `sorting.dfy` hold shared vocabulary.

## What the code does that its design does not promise

- A call being served when its runtime is cancelled is never failed by the actor: `current_future` is
  cleared before the outer `finally` looks at it, so that clause is dead code, and only the caller's own
  timeout or cancellation ends the wait (`NothingCurrentWhenUnwound`, `InterruptedCallIsNotFailed`; the
  exact condition is in `DeathSettlesUnlessInterrupted`).
- A refresh, or an activation asked for again, swaps out a runtime that a call is using, without looking
  at the in-flight counter, and a call that fails disconnects whatever runtime is mounted by then
  (`RefreshedUnderCall`; the exact conditions are in `LiveCallLosesRuntimeIff` and
  `FailingCallTakesAnother`).
- An audit retention limit of zero keeps every event (`ZeroRetentionKeepsAll`, `ZeroRetentionOverflows`;
  `LimitHeldIff` says exactly when the limit is respected).
- Closing a running runtime can raise, because a close still queued when the actor task ends is failed by
  the drain (`CloseBehindExpiredCallFails`; `CloseFailsIff` says exactly when). `swap_runtime` has stored the
  new runtime by then, so a refresh or an activation asked for again fails over a new runtime with the old
  hash and snapshot, and clearing staleness then reports it connected (`RefreshTearsDefault`,
  `ClearedWhileTorn`). `StepAgrees` says exactly which steps leave such a disagreement and which end it, and
  `AgreesUnlessTorn` exactly which runs. A deactivation, an unregistration or a failed probe whose
  disconnect raises ends its whole call without an answer, with the runtime gone and nothing recorded
  (`RaisesIff`, `DeactivateEffect`, `HealthVerdict`, `BulkAccounting`).
- A clearing call without namespaces passes over a toolset whose activation failed, although clearing it
  by name would reset it (`FailedActivationIsMissed`; `ClearingMissesIff` says exactly which are passed over,
  and `DefaultsMissNothing` that the defaults of restores and health checks pass over none).
- A mounted contract with no tools is reported with no hash, while its cached snapshot has one
  (`EmptyContractHasNoMountedHash`; `CachedAndMountedDiffsAgree` gives the exact condition).
- `_normalize_runtime_tools` names a function that the service does not import; no reachable state calls
  it (`PerformKeeps`).
- A break or continue outside every loop ends a run as `program_runtime_error`, not as an invalid program
  (`LoneSignalIsRuntimeError`, `TopLevelSignalEscapes`; `RunFrame` gives the converse).
- A forced unregistration that disconnects a runtime lists its namespace both as unregistered and as
  skipped (`LoadedDefaultListedTwice`; `UnregisterListsTwiceIff` says exactly when).
- A batch step with an empty id runs, but can never be selected as the final one (`EmptyIdIsNeverFinal`;
  `FinalStep` says exactly which result is selected).

## Model

| member | source | states |
|---|---|---|
| `ProgramWork.WorkBound` | toolbox/program_runtime.py:59-397 | For every program, context, tool behaviour and (possibly endless) iterator, a run executes and evaluates at most (its own statement nodes) × (1 + loop passes) statements and expressions; those nodes and the passes stay within their budgets, and the pass counter, shared by all nested loops, exceeds its budget only by one and only in a run that ends with `budget_exceeded`. |
| `ProgramWork.DefaultWorkBound` | toolbox/program_runtime.py:17-20 | With the budgets the class sets, no run takes more than 500 × 1001 steps. |
| `ProgramWork.StmtWork` | toolbox/program_runtime.py:147-179 | The inductive form of the bound for one statement: its work is at most its node count times one plus the passes begun during it. |
| `ProgramWork.LoopWork` | toolbox/program_runtime.py:369-397 | The same for a loop in progress, over an iterator that may never end: each pass pays for its body once. |
| `ProgramWork.EndlessLoopHitsBudget` | toolbox/program_runtime.py:369-397 | Over an iterator that always yields, a loop with any target that can be bound and any body whose passes complete or use the budget up themselves stops with `budget_exceeded`, after exactly the remaining budget of passes, and for no other reason. |
| `ProgramWork.EndlessPassLoop` | toolbox/program_runtime.py:378-387 | The body `pass` is such a body, and then each pass takes one step. |
| `ProgramBudget.BudgetMonotone` | toolbox/program_runtime.py:52-397 | Raising any of the four budgets changes nothing (outcome, last value, environment, traces, counters, work) about a run that did not end in `budget_exceeded`; a run that did made a prefix of the traces and of the host interactions of the more generous run. |
| `ProgramCalls.CallDiscipline` | toolbox/program_runtime.py:303-360 | Over a whole run: at most the budgeted number of invocations; the traces are exactly the recorded replies; the run reports a tool failure if and only if its last interaction is an invocation that failed; otherwise every invocation succeeded and is traced. |
| `ProgramCalls.TraceShape` | toolbox/program_runtime.py:341-358 | Trace indices are 1..n; a trace is an error if and only if the run ended in a failed call, and then it is the last one. |
| `ProgramFrame.RunFrame` | toolbox/program_runtime.py:46-76 | However a run ends, names that no statement targets keep their initial values and no name is unbound; a break or continue escapes only from a program that has one outside every for body. |
| `ProgramFrame.TopLevelSignalEscapes` | toolbox/program_runtime.py:72-74 | A break or continue outside every loop escapes as soon as the statements before it complete, whatever follows it, and the run ends as `program_runtime_error`. |
| `ProgramFrame.LoneSignalIsRuntimeError` | toolbox/program_runtime.py:110-117 | The concrete programs `break` and `continue`: accepted, and ended as `program_runtime_error`. |
| `ProgramFrame.StmtFrame` | toolbox/program_runtime.py:147-179 | The frame of one statement: only its targets are rebound, nothing is unbound, and a signal leaves it only through a break or continue that no loop inside it encloses. |
| `ProgramFrame.LoopFrame` | toolbox/program_runtime.py:369-397 | A for loop lets no break or continue of its body escape, through any nesting of ifs, and rebinds only its target and the names its body targets. |
| `ProgramFrame.EndlessLoopNeverCompletes` | toolbox/program_runtime.py:369-397 | Over an iterator that always yields, a loop whose body has no break of its own never completes: it ends in an error. |
| `ProgramFrame.AugmentedIsAssignment` | toolbox/program_runtime.py:362-367 | `x op= e` has the outcome and the final state of `x = x op e`, for every operand, host and prior state. |
| `ProgramFrame.BlockAppend` | toolbox/program_runtime.py:72-74 | Nothing runs after the first failure: a failing prefix decides a statement list, and a completed prefix hands its state and last value on. |
| `ProgramSemantics.EvalExpr` | toolbox/program_runtime.py:181-234 | Evaluating an expression never changes the environment or the loop counter, never ends in a loop signal, and visits between one and all of its nodes. |
| `ProgramSemantics.EvalBool` | toolbox/program_runtime.py:404-421 | Short-circuit evaluation has the same frame and visits at most the operands' nodes. |
| `ProgramRuntime.ToolProgramRuntime.Run` | toolbox/program_runtime.py:39-145 | The imperative run, over a mutable environment, trace list and counter, returns what the semantics says: final data, error code and traces, on success and on every failure path. |
| `ProgramRuntime.ToolProgramRuntime.ExecStatement` | toolbox/program_runtime.py:147-179 | Executing a statement in place leaves the state, outcome and work the semantics prescribes. |
| `ProgramRuntime.ToolProgramRuntime.ExecForLoop` | toolbox/program_runtime.py:369-397 | The for statement: for-else and non-iterables are invalid programs, otherwise the loop refines the recursive one. |
| `ProgramRuntime.ToolProgramRuntime.ExecPasses` | toolbox/program_runtime.py:377-397 | The loop with its running `result`, counter check, in-place target binding and signal handling refines the recursive loop of the semantics. |
| `ProgramRuntime.ToolProgramRuntime.EvalExpression` | toolbox/program_runtime.py:181-234 | Recursive evaluation over mutable traces and history refines the expression semantics. |
| `ProgramRuntime.ToolProgramRuntime.EvalBoolop` | toolbox/program_runtime.py:404-421 | The loops over the operands of `and` and `or` refine short-circuit evaluation. |
| `ProgramRuntime.ToolProgramRuntime.CallToolBuiltin` | toolbox/program_runtime.py:303-360 | The call budget, argument checks, timeout, invocation failure, tracing before the error check, and the value handed back. |
| `ProgramRuntime.ToolProgramRuntime.ExecAugmentedAssignment` | toolbox/program_runtime.py:362-367 | The target is read before the operand is evaluated, then rebound to the combined value. |
| `ProgramRuntime.ToolProgramRuntime.Bind` | toolbox/program_runtime.py:449-461 | Nested unpacking binds in order, and a failing nested target leaves the names before it bound. |
| `ProgramLaws.AtomLaw` | toolbox/program_runtime.py:182-188 | A constant is its value and a name what it is bound to; an unbound name makes the program invalid. |
| `ProgramLaws.IfLaw` | toolbox/program_runtime.py:161-164 | An `if` has the outcome and the state of its body when the test is true, of the other block when it is false, and of the test when that fails. |
| `ProgramLaws.IfTrueOrFalse` | toolbox/program_runtime.py:161-164 | The instances `if True` and `if False`, for every pair of blocks. |
| `ProgramLaws.IfExpLaw` | toolbox/program_runtime.py:230-232 | The same for a conditional expression, whose other branch is never evaluated. |
| `ProgramLaws.ConstantIfExp` | toolbox/program_runtime.py:230-232 | Its instances for a test that is a constant. |
| `ProgramLaws.TruthLaw` | toolbox/program_runtime.py:490-491 | None, False, 0 and the empty string, list, tuple and dictionary are false, everything else concrete is true, and a host object is asked. |
| `ProgramLaws.BoolLaw` | toolbox/program_runtime.py:404-421 | An operand of `and` that is false, and one of `or` that is true, is the value, and nothing after it is evaluated; otherwise the rest decides. |
| `ProgramLaws.NotLaw` | toolbox/program_runtime.py:434-442 | `not` turns the truth of its operand round, whatever the operand. |
| `ProgramLaws.SignLaw` | toolbox/program_runtime.py:434-442 | A minus turns an integer round and a plus leaves it. |
| `ProgramLaws.ArithmeticLaw` | toolbox/program_runtime.py:471-480 | Integers are added, subtracted and multiplied without bound, strings and sequences of one kind are joined, and every other supported operation is the host's. |
| `ProgramLaws.OtherSign` | toolbox/program_runtime.py:434-442 | Bitwise inversion is not supported, and a sign before anything but an integer is the host's. |
| `ProgramLaws.AddThenSubtract` | toolbox/program_runtime.py:399-402 | `(a + b) - b` is a, for integers and operands without calls. |
| `ProgramLaws.ComparisonLaw` | toolbox/program_runtime.py:423-432 | A chain of comparisons of integers, however long, is true if and only if each of its links holds. |
| `ProgramLaws.OtherComparison` | toolbox/program_runtime.py:423-432 | One comparison of anything else: equality of two strings is decided by their characters, identity tests are not supported, and the rest is the host's. |
| `ProgramContainerLaws.DisplayLaw` | toolbox/program_runtime.py:195-199 | A list or tuple display is the list of its elements' values, in order. |
| `ProgramContainerLaws.IndexLaw` | toolbox/program_runtime.py:207-213 | A subscript counts items from the front, or from the back if negative; any other index is an invalid program. |
| `ProgramContainerLaws.LastItem` | toolbox/program_runtime.py:207-213 | `xs[-1]` is the last item. |
| `ProgramContainerLaws.OtherSubscript` | toolbox/program_runtime.py:207-213 | Every other kind of subscript is the host's, and any failure of it makes the program invalid. |
| `ProgramContainerLaws.JoinedIndex` | toolbox/program_runtime.py:399-402 | `(a + b)[i]` is the item of a, or the item of b beyond it. |
| `ProgramContainerLaws.DictLaw` | toolbox/program_runtime.py:190-193 | A dictionary display has one entry for each key, with the last value given for it. |
| `ProgramContainerLaws.KeyLaw` | toolbox/program_runtime.py:207-213 | A dictionary subscript gives the value under that key, or is an invalid program. |
| `ProgramContainerLaws.AttributeLaw` | toolbox/program_runtime.py:201-205 | `d.name` is the entry of a dictionary under that name, and invalid on everything else. |
| `ProgramContainerLaws.RangeLaw` | toolbox/program_runtime.py:257-259 | `range(a, b, s)` lists exactly the integers a, a + s, ... before b, downwards for a negative step, and a step of zero is invalid. |
| `ProgramContainerLaws.ShortRanges` | toolbox/program_runtime.py:257-259 | `range(b)` counts by ones from 0 up to b and `range(a, b)` from a. |
| `ProgramContainerLaws.DictHelpers` | toolbox/program_runtime.py:261-277 | `keys`, `values` and `items` list the entries of a dictionary in order. |
| `ProgramContainerLaws.SimpleHelpers` | toolbox/program_runtime.py:245-301 | `len` counts the items of a list and the characters of a string, `bool` is the truth of its argument, and what is a string or an integer already stays as it is. |
| `ProgramContainerLaws.UnknownHelper` | toolbox/program_runtime.py:236-301 | Any other function name, and a builtin with the wrong number of arguments, is an invalid program, once its arguments are evaluated. |
| `ProgramContainerLaws.HostHelper` | toolbox/program_runtime.py:236-301 | A builtin on a value the evaluator does not know, and a range over anything but integers, is the host's, under that name and with exactly those arguments. |
| `ProgramContainerLaws.OnlyNamesAreCalled` | toolbox/program_runtime.py:236-238 | Calling anything but a name is an invalid program, and nothing is evaluated for it. |
| `ProgramContainerLaws.CallToolLaw` | toolbox/program_runtime.py:303-360 | A call within the budget asks the host for exactly that tool and those arguments; a reply is traced under the next number, its data is the value of the call, and a reply that is an error, a timeout and a failed invocation end the run, each as what it is. |
| `ProgramContainerLaws.RefusedCall` | toolbox/program_runtime.py:303-325 | A call beyond the budget, one that names no tool, and one whose arguments are no object ask nothing and trace nothing. |
| `ProgramContainerLaws.KeywordForm` | toolbox/program_runtime.py:303-325 | Naming both parameters of `call_tool` is passing them in order. |
| `ProgramContainerLaws.OtherKeyword` | toolbox/program_runtime.py:311-312 | `call_tool` takes no other keyword. |
| `ProgramStatementLaws.AssignLaw` | toolbox/program_runtime.py:149-153 | `a = b = ... = e` gives each name the value of e and changes no other name. |
| `ProgramStatementLaws.UnpackLaw` | toolbox/program_runtime.py:449-461 | Unpacking gives the k-th name the k-th item of a sequence of the right length, and otherwise is an invalid program that binds nothing. |
| `ProgramStatementLaws.ListTargets` | toolbox/program_runtime.py:449-461 | A list of targets unpacks exactly as a tuple of them. |
| `ProgramStatementLaws.SwapLaw` | toolbox/program_runtime.py:449-461 | `a, b = b, a` swaps two names. |
| `ProgramStatementLaws.IterableLaw` | toolbox/program_runtime.py:369-377 | A tuple, a dictionary and a string are looped over as the lists of their items, keys and characters; other concrete values cannot be looped over. |
| `ProgramStatementLaws.LoopLaw` | toolbox/program_runtime.py:377-397 | One pass at a time: beyond the budget nothing happens; a break ends the loop after its pass, any other failure ends it as that failure, and a pass that completes or continues goes on over the rest. |
| `ProgramStatementLaws.LoopAnswers` | toolbox/program_runtime.py:377-397 | A loop answers with the value of the last statement that completed, in its last pass or before a break. |
| `ProgramStatementLaws.OpeningLaw` | toolbox/program_runtime.py:369-377 | Looping over a host object opens it once; a type or value error there makes the program invalid, and anything else is a runtime error. |
| `ProgramStatementLaws.StreamLaw` | toolbox/program_runtime.py:378-397 | Each pass over what it gives asks for the next item first: at the end the loop is done, an error ends it as that error, and an item is a pass like any other. |
| `ProgramStatementLaws.BlockLaw` | toolbox/program_runtime.py:72-74 | A statement that fails ends its block with the value of the one before it; one that completes hands its own on. |
| `ProgramStatementLaws.SummingLoop` | toolbox/program_runtime.py:369-397 | Summing a list of integers in a for loop adds up all of them, within the budget. |
| `ProgramStatementLaws.AdmissionLaw` | toolbox/program_runtime.py:46-68 | A program runs if and only if it is short enough, parses, and has few enough nodes; otherwise nothing is evaluated, and the code is that of an invalid program exactly if a text that is short enough does not parse. |
| `ProgramStatementLaws.UnsupportedLaw` | toolbox/program_runtime.py:147-179 | Unsupported statements, an `else` of a for loop, an augmented assignment to anything but a bound name and an assignment to anything but names and unpackings make the program invalid, and bind nothing. |
| `ProgramStatementLaws.ResultLaw` | toolbox/program_runtime.py:76-108 | A run of one statement: an assignment to the result variable answers with that, and an expression, when the variable is not bound, with its value. |
| `ProgramStatementLaws.AnswerLaw` | toolbox/program_runtime.py:76-145 | The code tells how a run ended, each way its own; the traces are all there are; and the answer is the result variable if it is bound, also after a failure, otherwise the last value, and nothing after a failure. |
| `ProgramStatementLaws.BranchResult` | toolbox/program_runtime.py:161-164 | The concrete program: `if True: x = 1` / `else: x = 2` answers 1, and with False it answers 2. |
| `ProgramStatementLaws.OneCallRun` | toolbox/program_runtime.py:46-145 | The program `call_tool(tool)`: the data, or the error code that belongs to each way the host can end it, and the one trace it leaves if it was answered. |
| `ActorProtocol.StepKeeps` | toolbox/transport_manager.py:65-344 | Each of the twelve kinds of step, in any interleaving of callers, actor, timeouts and cancellations, keeps the protocol invariant and never changes a settled future. |
| `ActorProtocol.RunKeeps` | toolbox/transport_manager.py:65-344 | Hence every run does: no future completes twice, the served list only grows, a closed handle stays closed, and a dead task accepts nothing. |
| `ActorProtocol.EveryCommandAccounted` | toolbox/transport_manager.py:264-344 | In every interleaving an accepted command is settled, queued, being served, or the one a cancellation interrupted; commands are taken in acceptance order; an acknowledged close is the last command, and everything accepted before it is settled. |
| `ActorProtocol.DeathSettlesUnlessInterrupted` | toolbox/transport_manager.py:318-344 | Once the actor task is done the queue is empty, and all futures are settled if and only if no cancellation interrupted a command whose caller was still waiting. |
| `ActorProtocol.AfterDeath` | toolbox/transport_manager.py:65-87 | After that only the interrupted command can still change, by its own caller's timeout or cancellation. |
| `ActorProtocol.NothingCurrentWhenUnwound` | toolbox/transport_manager.py:329-333 | The clause that would fail the current future when the actor unwinds never finds one: the inner `finally` blocks have cleared it. |
| `ActorProtocol.InterruptedCallIsNotFailed` | toolbox/transport_manager.py:300-333 | The concrete run that shows it: a call being served when the actor task is cancelled is still pending when the actor task is done. |
| `ActorProtocol.TaskProgress` | toolbox/transport_manager.py:280-335 | Every move of the actor task decreases a measure, whatever the session answers. |
| `ActorProtocol.TaskWaitsIff` | toolbox/transport_manager.py:280-281 | In every state of a live actor task its own next move is enabled, unless it is idle, nobody cancels it and the queue is empty. |
| `ActorProtocol.CloseIsServed` | toolbox/transport_manager.py:111-133 | A close that is accepted and left undisturbed ends the actor task whatever the session answers and however the exit stack closes: if no cancellation is pending and the exit stack is not closing yet, each command queued before it gets its own answer or exception and the close is acknowledged; otherwise everything queued fails, so that the close raises if and only if it came then and its closer still waits. |
| `ActorProtocol.CloseFailsIff` | toolbox/transport_manager.py:111-133 | In every run: once the actor task is done, a close has failed, so that `close()` raises, if and only if it was never taken and its closer did not give up, and was acknowledged if and only if it was taken and its closer did not give up. |
| `ActorProtocol.CloseBehindExpiredCallFails` | toolbox/transport_manager.py:80-140 | The concrete run: a close queued behind a call whose caller times out ends as failed. |
| `ActorClosing.ClosedIff` | toolbox/transport_manager.py:65-140 | In every interleaving the handle is closed if and only if someone has entered `close()` or a caller whose wait ended has aborted. |
| `ActorClosing.AcceptsIff` | toolbox/transport_manager.py:61-133 | A command is accepted if and only if it is submitted while the handle is open and the actor task lives, and then waits unanswered behind everything accepted before; no other action accepts anything. |
| `ActorClosing.ClosedForGood` | toolbox/transport_manager.py:61-133 | Nothing is ever accepted again by a handle that is closed, or whose actor task is done, whatever happens. |
| `ActorClosing.AbortEndsService` | toolbox/transport_manager.py:80-140 | After a caller's abort nothing is ever accepted again, the abort itself answers nobody, and left alone the actor task ends: what was queued has failed and nothing else is answered. |
| `ActorClosing.ExpiryOwesAbort` | toolbox/transport_manager.py:80-84 | A wait that ends cancels that future and owes an abort; nothing else moves until it comes. |
| `ActorClosing.AbandonGivesUp` | toolbox/transport_manager.py:79-80 | A caller cancelled from outside gives up its own future, moves nothing else, and owes no abort. |
| `ActorClosing.BootSettled` | toolbox/transport_manager.py:171-196 | An opener gets a handle only from a start that succeeded while it waited, and a start that ends by raising leaves no opener waiting. |
| `ActorClosing.ReplySettles` | toolbox/transport_manager.py:288-318 | An answer fulfils the pending future it is for and an exception fails it; no other future moves. |
| `RuntimeActor.ManagedToolsetRuntime.Booted` | toolbox/transport_manager.py:264-278 | A successful bootstrap sets the bootstrap future, if its waiter is still there, and starts the command loop. |
| `RuntimeActor.ManagedToolsetRuntime.Enqueue` | toolbox/transport_manager.py:65-78 | A command is accepted exactly when the handle is open and the actor task is not done, and then takes the next place in the queue. |
| `RuntimeActor.ManagedToolsetRuntime.Close` | toolbox/transport_manager.py:111-127 | Closing twice, closing a dead runtime, and the close command proper. |
| `RuntimeActor.ManagedToolsetRuntime.TakeCommand` | toolbox/transport_manager.py:280-287 | The actor takes the oldest command; a close is acknowledged at once and ends the loop. |
| `RuntimeActor.ManagedToolsetRuntime.Answered` | toolbox/transport_manager.py:288-318 | An answer or an exception settles the future unless its caller has given up; the current future is cleared either way. |
| `RuntimeActor.ManagedToolsetRuntime.Interrupted` | toolbox/transport_manager.py:300-323 | A cancellation that lands while a command is served clears the current future without settling it. |
| `RuntimeActor.ManagedToolsetRuntime.Finish` | toolbox/transport_manager.py:319-335 | The outer `finally`: fail the bootstrap if need be, fail what is current, drain the queue, and be done. |
| `RuntimeActor.ManagedToolsetRuntime.FailPendingCommands` | toolbox/transport_manager.py:337-344 | The drain loop empties the queue and fails exactly the queued futures that are still pending. |
| `RuntimeActor.ManagedToolsetRuntime.WaitExpired` | toolbox/transport_manager.py:80-84 | A caller's timeout cancels its future at once. |
| `RuntimeActor.ManagedToolsetRuntime.AbortFor` | toolbox/transport_manager.py:135-140 | The abort that follows closes the handle and cancels a task that is not done. |
| `Inventory.ValidatedFacts` | toolbox/validation.py:36-45 | A validated inventory has the same tools sorted by name, all names distinct, and the same hash and name table as the unsorted normalisation. |
| `Inventory.HashForgetsOrder` | toolbox/validation.py:48-60 | The inventory hash does not depend on the order of the tools. |
| `Inventory.HashIffNoDiff` | toolbox/validation.py:48-81 | Under an injective hash two inventories have equal hashes if and only if the diff reports nothing added, removed or changed. |
| `Inventory.DiffLists` | toolbox/validation.py:63-81 | Added, removed and changed are the sorted, duplicate-free listings of exactly the names they should be, and so disjoint. |
| `Inventory.DiffConserves` | toolbox/validation.py:63-81 | |previous| − |removed| + |added| = |current|. |
| `Inventory.DiffRebuilds` | toolbox/validation.py:63-81 | Dropping the removed names and taking the added and changed entries from current turns previous into current. |
| `MountedNames.MountedNameInjective` | toolbox/service.py:2013-2014 | With dot-free namespaces a mounted name determines its namespace and its tool name, dots in the tool name or not. |
| `MountedNames.ResolveIff` | toolbox/service.py:2026-2048 | A name resolves to a tool of a mounted namespace if and only if it is that tool's mounted name, in whatever order the namespaces are tried. |
| `MountedNames.OnlyMounted` | toolbox/service.py:2026-2048 | Whatever a name resolves to is mounted, in that namespace's inventory, and has that name. |
| `MountedNames.ResolveMountedTool` | toolbox/service.py:2026-2048 | The nested scan over namespaces and tools computes that resolution. |
| `LifecycleResults.ReachableNamesValid` | toolbox/service.py:159-163 | In every reachable state every registered namespace is valid, hence dot-free. |
| `LifecycleResults.MountedToolsResolve` | toolbox/service.py:2026-2048 | In every reachable state, for any listing of the mounted namespaces, resolution returns a tool exactly for its own mounted name. |
| `Scopes.ReloadIffCanonical` | toolbox/models.py:120-169 | The validator returns a record unchanged if and only if its four scope lists are ordered and duplicate-free and satisfy the inclusions it checks. |
| `Scopes.ValidateTwice` | toolbox/models.py:120-169 | Whatever the validator accepts, it accepts again unchanged. |
| `Scopes.AddBothKeeps` | toolbox/scope_manager.py:67-88 | Adding a supported scope to the loaded and the recoverable list keeps the policy, adds exactly that scope, and makes it recoverable exactly if it is restorable. |
| `Scopes.RemoveBothKeeps` | toolbox/scope_manager.py:75-95 | Removing a scope from both lists keeps the policy and removes exactly that scope. |
| `Scopes.AddScopesKeeps` | toolbox/service.py:723-724 | Loading recoverable scopes one after the other keeps the policy and adds exactly those. |
| `Scopes.ToolsetRecord.Add` | toolbox/scope_manager.py:67-73 | Append and sort in place; the result says whether the scope was new. |
| `Scopes.ToolsetRecord.Remove` | toolbox/scope_manager.py:75-80 | Filter in place; the result says whether the scope was loaded. |
| `Scopes.ToolsetRecord.AddToRecoverable` | toolbox/scope_manager.py:82-88 | The same for the recoverable list, which only takes restorable scopes. |
| `Scopes.ToolsetRecord.RemoveFromRecoverable` | toolbox/scope_manager.py:90-95 | Filter the recoverable list in place. |
| `Registry.UpsertIsUpdate` | toolbox/registry.py:115-127 | Seen as a map by namespace, the list upsert writes one key and no other. |
| `Registry.RemoveIsMinus` | toolbox/registry.py:129-137 | Filtering removes one key and no other, and shortens the list exactly if the key was there. |
| `Registry.UpsertUnique` | toolbox/registry.py:115-127 | No upsert ever stores a second entry for a namespace. |
| `Registry.UpsertKeepsOrder` | toolbox/registry.py:115-127 | An upsert keeps every key in its place and puts a new one last. |
| `Registry.RemoveTakesOne` | toolbox/registry.py:129-137 | A removal takes the one entry with its key out of the list and moves no other. |
| `Registry.LimitKeepsLast` | toolbox/registry.py:251-256 | A limit keeps the last entries, exactly as many as it says, and none if it is not positive. |
| `Registry.RemoveUnique` | toolbox/registry.py:129-137 | Neither does a removal. |
| `Registry.FindIn` | toolbox/registry.py:108-113 | The scan finds the entry the map view holds, or nothing. |
| `Registry.UpsertIn` | toolbox/registry.py:115-127 | The index loop with its fallback append is that upsert. |
| `Registry.JsonStateStore.UpsertToolset` | toolbox/registry.py:115-127 | The records, as a map, are updated at one namespace; in the list it keeps its place, or comes last if it is new. |
| `Registry.JsonStateStore.DeleteToolset` | toolbox/registry.py:129-137 | The records lose one namespace, and the list that one entry; the result says whether it was there. |
| `Registry.JsonStateStore.ReplaceSchemaSnapshot` | toolbox/registry.py:167-193 | The snapshot becomes current and what was current becomes previous; with nothing current, previous stays. |
| `Registry.JsonStateStore.DeleteSchemaSnapshots` | toolbox/registry.py:195-213 | Both caches lose the namespace. |
| `Registry.JsonStateStore.AppendAuditEvent` | toolbox/registry.py:215-224 | One event is added to the history under the next number, and the stored log stays its window. |
| `Registry.JsonStateStore.LogFollowsLimit` | toolbox/registry.py:215-224 | Of any store: the log is within its limit if and only if the limit is at least one, or is zero and nothing was ever appended; at zero the log is the whole history, below zero it is empty. |
| `Registry.JsonStateStore.ListAuditEvents` | toolbox/registry.py:226-256 | A query returns the last `limit` matches of the stored log, in order; none for a limit of zero or less. |
| `Registry.AppendWindow` | toolbox/registry.py:215-224 | For every retention limit, positive or not, an append keeps the stored log a suffix of everything ever appended, of exactly the length the limit leaves, numbered consecutively up to `next_audit_sequence` − 1. |
| `Registry.LogIsWindow` | toolbox/registry.py:215-224 | Whatever is appended to an empty store, and whatever the limit, the stored log is that window. |
| `Registry.LimitHeldIff` | toolbox/registry.py:220-221 | The log respects its limit if and only if the limit is at least one, or is zero and nothing was ever appended. |
| `Registry.ZeroRetentionKeepsAll` | toolbox/registry.py:220-221 | With a limit of zero the stored log is every event ever appended, because `[-0:]` is the whole list. |
| `Registry.ZeroRetentionOverflows` | toolbox/registry.py:220-221 | The concrete case: one event in a store with limit zero. |
| `Registry.MatchingFacts` | toolbox/registry.py:240-250 | The selected events are exactly the matching ones, in ascending order. |
| `LifecycleInvariants.RegisterKeeps` | toolbox/service.py:911-1039 | Registration keeps the invariant of its namespace and touches no other. |
| `LifecycleInvariants.UnregisterKeeps` | toolbox/service.py:1041-1125 | So does unregistration, forced or not, and also when closing the runtime raises before anything is deleted. |
| `LifecycleInvariants.ActivateKeeps` | toolbox/service.py:1127-1274 | So does activation, fresh or by reuse, up or failing, and also when closing the runtime it replaced raises after the new one is mounted; and the fallback that names a function the service does not import is never reached. |
| `LifecycleInvariants.RefreshKeeps` | toolbox/service.py:1276-1390 | So does a refresh, with the same three ends. |
| `LifecycleInvariants.RestoreKeeps` | toolbox/service.py:617-773 | So does a restore, and it never reaches the fallback either. |
| `LifecycleInvariants.DeactivateKeeps` | toolbox/service.py:1392-1477 | So does a deactivation, also when closing the runtime raises before the record is stored. |
| `LifecycleInvariants.HealthKeeps` | toolbox/service.py:449-606 | So does a health check, whether the probe answers, drifts, fails or times out, and also when closing the runtime of a failed probe raises before the failure is recorded. |
| `LifecycleInvariants.ClearStaleKeeps` | toolbox/service.py:775-834 | So does clearing staleness. |
| `LifecycleInvariants.MarkStaleKeeps` | toolbox/service.py:1479-1488 | So does marking stale. |
| `LifecycleInvariants.FailCallKeeps` | toolbox/service.py:1552-1574 | So does the failure path of a call, which runs outside the lock, may find its namespace gone or registered anew, and may be cut short by a close that raises. |
| `LifecycleInvariants.DieKeeps` | toolbox/transport_manager.py:216-220 | So does the death of a runtime. |
| `LifecycleTheorems.StartCallKeeps` | toolbox/service.py:1540-1544 | Starting a call keeps the counters equal to the calls in flight, for every namespace. |
| `LifecycleTheorems.FinishCallKeeps` | toolbox/service.py:1575-1577 | So does finishing one, even after its namespace was unregistered. |
| `LifecycleTheorems.ReconciledKeepsRecoverable` | toolbox/service.py:136-157 | Reconciliation at startup unloads every scope and leaves `recoverable_scopes` as it was: what it would recompute is already there. |
| `LifecycleTheorems.RestartKeeps` | toolbox/service.py:66-157 | A new process over the same store starts in a state that satisfies the invariant. |
| `LifecycleTheorems.OperationsAreLocal` | toolbox/service.py:449-1488 | An operation on one namespace leaves every other namespace's record, snapshots and runtime, and all call counters, as they were, and appends at most one event, about its own namespace or none. |
| `LifecycleTheorems.PerformKeeps` | toolbox/service.py:136-1577 | The invariant is inductive over all fourteen kinds of step, whatever bootstraps, probes and closes come to, and no step reaches the missing import. |
| `LifecycleTheorems.ReachableInv` | toolbox/service.py:66-1577 | Every state reachable by any run, with any number of namespaces, failures, raising closes and restarts, satisfies the invariant. |
| `LifecycleAgreement.StepAgrees` | toolbox/service.py:449-1577 | One step from any state that satisfies the invariant: if it touches the runtime of a namespace, then afterwards the cached hash is that of the runtime, if one is up, unless the step is a refresh or an activation whose bootstrap comes up over a running runtime with another hash than the cached one and closing the old runtime raises; a step that does not touch it changes nothing about the agreement. |
| `LifecycleAgreement.AgreesUnlessTorn` | toolbox/service.py:66-1577 | In every run, a running runtime and its cached snapshot disagree if and only if the last step that touched the runtime is such a swap. |
| `LifecycleAgreement.CacheAgreesWithLive` | toolbox/service.py:1721-1751 | In every reachable state a running runtime belongs to a registered toolset with a loaded scope, whose `schema_hash` is the cached snapshot's hash; that is the hash of the runtime's inventory, and the snapshot lists exactly its tools, if and only if the run has not ended in such a swap there. |
| `LifecycleAgreement.RaisingSwapFails` | toolbox/service.py:1200-1388 | Every refresh or activation that gets as far as the swap fails when the close raises, over the new runtime: scopes, schemas and both caches are as they were, and the record is stale after a refresh and failed after an activation. |
| `LifecycleAgreement.ClearStaleHidesIt` | toolbox/service.py:775-834 | Clearing staleness never ends a disagreement; it reports the toolset connected and in no trouble, with the hash its runtime does not have. |
| `LifecycleAgreement.RefreshTearsDefault` | toolbox/service.py:1328-1388 | The concrete run: the default toolset, activated and then refreshed over a runtime whose close raises, has a runtime without tools and a record and snapshot with one. |
| `LifecycleAgreement.ClearedWhileTorn` | toolbox/service.py:786-832 | There, clearing staleness leaves the toolset connected with the old hash. |
| `LifecycleAgreement.CachedAndMountedDiffsAgree` | toolbox/service.py:1780-1863 | While a runtime is up the cached and the mounted diff report the same availability; if cache and runtime agree they report the same names; and the current hashes they report are equal if and only if cache and runtime agree and the inventory is not empty. |
| `LifecycleAgreement.EmptyContractHasNoMountedHash` | toolbox/service.py:1735-1739 | The concrete run: the default toolset activated over a server without tools has a cached current hash and no mounted one. |
| `LifecycleAgreement.AgreesIffNoDiff` | toolbox/validation.py:63-81 | Cache and runtime agree if and only if the diff between their tools is empty. |
| `LifecycleResults.SchemasShiftOnce` | toolbox/service.py:1214-1388 | A failed or skipped activation, refresh or restore leaves both snapshot caches unchanged, and all runtimes too unless it swapped in a runtime over one whose close raised; a successful refresh shifts current to previous exactly once and leaves the toolset connected and in no trouble, and so does a successful activation or restore unless it reuses a runtime that is up, moving nothing. |
| `LifecycleResults.UnregisterThenRegister` | toolbox/service.py:1110-1122 | Unregistering leaves no record, snapshot or runtime, and a registration after it starts from exactly the requested record. |
| `LifecycleResults.EveryRecordReloads` | toolbox/models.py:120-169 | Every record the service ever stores passes the validator that runs on load, unchanged. |
| `LifecycleResults.RecoverableByHistory` | toolbox/service.py:1182-1234 | In every reachable state `recoverable_scopes` is exactly the restorable scopes whose latest successful activation or deactivation since registration is an activation, whatever refreshes, restores, failures and restarts came between. |
| `LifecycleResults.RestartThenRestore` | toolbox/service.py:617-773 | After a restart a permitted restore whose bootstrap comes up loads exactly the recoverable scopes, which include every restorable scope loaded before the restart and never `thread`. |
| `LifecycleResults.ClampNeverNeeded` | toolbox/transport_manager.py:237-244 | A call that finishes was counted, so `max(0, …)` never takes effect. |
| `LifecycleInstances.RuntimesChangeSo` | toolbox/service.py:449-1577 | Each of the fourteen kinds of step changes the table of runtimes exactly as a guard read before the step says: opens one, drops one, kills one, clears all, or leaves it. |
| `LifecycleInstances.ReachableNumbered` | toolbox/transport_manager.py:199-203 | In every reachable state each runtime has its own identity: no runtime and no call carries a serial number still to be given out. |
| `LifecycleInstances.LiveCallLosesRuntimeIff` | toolbox/service.py:1083-1577 | A call in flight loses the very runtime it was sent to if and only if the step is a forced deactivation of its last scope, a failed probe, a failing call on the namespace, the runtime's death, a restart, or a refresh or repeated activation that comes up and swaps it out, whether or not closing it raises; never through an unforced deactivation, an unregistration or a restore. |
| `LifecycleInstances.LostForGood` | toolbox/transport_manager.py:199-210 | A call that has lost its runtime never gets it back. |
| `LifecycleInstances.FailingCallTakesAnother` | toolbox/service.py:1559-1560 | A failing call leaves its namespace without a runtime, and takes down one it was not using if and only if one is up and is not the one it was sent to. |
| `LifecycleInstances.RefreshedUnderCall` | toolbox/service.py:1300-1574 | The concrete run: a refresh replaces the runtime under a call, and the failing call takes the new one down. |
| `LifecycleEffects.ActivateEffect` | toolbox/service.py:1150-1272 | Exactly when an activation succeeds or is skipped; success loads the scope and nothing else, makes it recoverable if it is restorable, and leaves a runtime up; otherwise, also when it fails only because closing the replaced runtime raises, no scope list moves. |
| `LifecycleEffects.DeactivateEffect` | toolbox/service.py:1414-1475 | Exactly when a deactivation succeeds, is skipped, is refused or raises; success removes the scope from both lists and nothing else, and the runtime goes exactly with the last scope; if closing that runtime raises, it is gone and nothing else has changed. |
| `LifecycleEffects.ActivateThenDeactivate` | toolbox/service.py:1127-1477 | Deactivation undoes activation: the loaded scopes are what they were, the scope is not recoverable, and an idle toolset has no runtime again; it does not exactly if the toolset was idle and closing its runtime raises. |
| `LifecycleEffects.HealthVerdict` | toolbox/service.py:474-604 | A check of a loaded toolset says healthy if and only if its runtime is up, answers with a valid inventory, and that hashes to the current snapshot; otherwise the toolset is stale for the reason that applies, and the runtime survives only an answered probe; it ends without a verdict if and only if the probe fails before its timeout and closing the runtime raises. |
| `LifecycleEffects.ClearStaleEffect` | toolbox/service.py:786-832 | Clearing succeeds exactly on a toolset in trouble and leaves it in none, with scopes, schemas and runtime unchanged, and connected exactly if it is loaded and its runtime is up. |
| `LifecycleEffects.FailedCallUnmounts` | toolbox/service.py:1552-1574 | A failing call takes the runtime down, marks its toolset stale if it is still registered and the close does not raise, and stays counted until its `finally` branch. |
| `LifecycleLaws.RegisterEffect` | toolbox/service.py:911-1039 | A registration succeeds if and only if the namespace is valid and new, the transport is valid, and the request names its scopes and respects the scope policy; then the record supports and restores exactly the scopes asked for, with the flags asked for, and nothing loaded; otherwise only an event is left. |
| `LifecycleLaws.RestoreEffect` | toolbox/service.py:627-771 | A restore is skipped, and moves nothing, if and only if a gate of the toolset is shut, nothing is recoverable, or its runtime is up and everything recoverable is loaded; otherwise it succeeds over a runtime that is up or comes up, and loads exactly the recoverable scopes in addition, or fails and leaves the toolset stale. |
| `LifecycleLaws.RestoresThroughOpenGates` | toolbox/scope_manager.py:33-47 | In every run, with a fresh runtime or one that is reused: a restore that succeeds had its gates open and loaded exactly the recoverable scopes in addition; behind a shut gate nothing moves. |
| `LifecycleLaws.RefreshEffect` | toolbox/service.py:1300-1388 | Exactly when a refresh is skipped, succeeds and fails; no scope moves, success mounts the new runtime, and a failure leaves the toolset stale, over whatever runtime is up. |
| `LifecycleLaws.ComesUp` | toolbox/validation.py:36-45 | A runtime comes up if and only if its bootstrap lists tools, and no name twice. |
| `LifecycleLaws.ActivationRecord` | toolbox/service.py:1150-1272 | What else an activation stores: reuse keeps schemas, health and staleness; a failure is noted and keeps them too; a refusal only leaves an event and a skipped activation nothing. |
| `LifecycleLaws.DeactivationRecord` | toolbox/service.py:1414-1475 | What else a deactivation stores: with the last scope everything that was wrong is forgotten, otherwise nothing but the scopes moves; both caches stay. |
| `LifecycleLaws.UnregisterEffect` | toolbox/service.py:1051-1123 | Exactly when an unregistration is refused or raises; one that is done takes the record, both snapshots and the runtime of its namespace, and nothing else. |
| `LifecycleLaws.HealthRecord` | toolbox/service.py:474-604 | When a check does nothing, and what it stores otherwise: the hash and the count that were observed, the verdict, its reason, and the transport state that belongs to it. |
| `LifecycleLaws.ClearedRecord` | toolbox/service.py:786-832 | What clearing stores, with the transport state exact in all three cases, and when it does nothing. |
| `LifecycleLaws.MarkStaleEffect` | toolbox/service.py:1479-1488 | Marking makes a known toolset stale for the reason given and moves nothing else; an unknown one is not marked. |
| `LifecycleLaws.StartThenFinish` | toolbox/service.py:1540-1577 | A call is counted if and only if its tool is in a running runtime, and is bound to that one; when it has finished every counter is what it was, and nothing else ever moved. |
| `LifecycleLaws.AuditedScope` | toolbox/service.py:200-207 | An event names the scope asked about, or the only one loaded, and none if there are none or several. |
| `LifecycleLaws.RestartEffect` | toolbox/service.py:66-157 | A new process finds every record idle and otherwise as it was, the default toolset if it was missing, and no runtime and no call. |
| `ContractDiffs.DiffGoesForward` | toolbox/service.py:1780-1807 | A contract diff is available if and only if a previous snapshot is cached and the source has an inventory; it adds exactly the names the source has beyond the previous snapshot, removes exactly those it lacks, and changes exactly those with another hash, for the cached snapshot and the live runtime alike. |
| `ContractDiffs.DiffHash` | toolbox/service.py:1733-1737 | The hash it reports is that of the source's inventory, and is missing exactly if there is none or the mounted one is empty. |
| `ContractDiffs.GainsATool` | toolbox/service.py:1780-1807 | The concrete run: a tool is added between two generations, and both diffs report it as added and nothing else. |
| `BulkOperations.UnregisterReport` | toolbox/service.py:1051-1123 | All three lists of an unregistration in every case, and none if closing the runtime raises. |
| `BulkOperations.UnregisterListsTwiceIff` | toolbox/service.py:1083-1123 | An unregistration that is registered with a scope loaded, forced and without calls in flight lists its namespace both as unregistered and as skipped, or answers nothing, the latter if and only if closing its runtime raises; every other one lists it in exactly one list. |
| `BulkOperations.LoadedDefaultListedTwice` | toolbox/service.py:1102-1123 | The concrete case: the default toolset, activated in a fresh process and unregistered by force. |
| `BulkOperations.OthersListOnce` | toolbox/service.py:449-1477 | No other call ever lists a namespace twice. |
| `BulkOperations.RaisesIff` | toolbox/service.py:449-1477 | A step of a call raises if and only if it is a deactivation, an unregistration or a health check whose guards lead to a disconnect, the runtime is running and closing it raises, and it is not a probe that has timed out. |
| `BulkOperations.StepEvents` | toolbox/service.py:449-1477 | A namespace worked on by one call leaves no audit event if it is skipped or its step raises, and otherwise exactly one, under the next number: the call's own operation, its own namespace, success exactly if the step is done (for a health check: if the toolset was found healthy), and the scope asked for or, where the code says so, the only one loaded. |
| `BulkOperations.BulkAccounting` | toolbox/service.py:449-1477 | However a call over a list of namespaces is interleaved with any other steps, it keeps the invariant and runs to its first step that raises; it answers if and only if there is none, and then every listed entry is in exactly one of the three lists, except those listed twice; in either case its audit events are about exactly the entries worked on and neither skipped nor raised, in order, with its own operation. |
| `BulkOperations.OthersAnswer` | toolbox/service.py:617-1390 | Calls that activate, refresh, restore or clear always answer. |
| `BulkOperations.NothingTwice` | toolbox/service.py:1145-1477 | In a call that unregisters nothing, nothing is listed twice. |
| `BulkOperations.Undisturbed` | toolbox/service.py:449-1477 | With nothing in between, those are all the events appended, and the call is the plain sequence of its steps up to the first that raises. |
| `BulkOperations.InvalidScopeKeeps` | toolbox/service.py:1133-1143 | A call with an unknown scope only adds an event about no namespace. |
| `BulkCalls.ScopedStepsWork` | toolbox/service.py:1041-1477 | Step k of a call that activates, deactivates or unregisters does so for the k-th namespace, with what the call was given. |
| `BulkCalls.UpkeepStepsWork` | toolbox/service.py:449-1390 | So does step k of a call that refreshes, restores, checks or clears. |
| `BulkCalls.CandidatesAre` | toolbox/service.py:776-780 | A list that is given is used as it is; an empty one stands for exactly the namespaces of the chosen records, in the order of the store. |
| `BulkCalls.ChosenIff` | toolbox/service.py:449-780 | Which records the defaults choose: all, those with something recoverable, those with something loaded, and those stale or unhealthy. |
| `BulkCalls.DefaultsMissNothing` | toolbox/service.py:617-673 | What the defaults of a restore and of a health check leave out would be skipped anyway. |
| `BulkCalls.ClearingMissesIff` | toolbox/service.py:775-807 | The default of a clearing call leaves out a toolset that clearing would change if and only if that is neither stale nor unhealthy and has an error noted. |
| `BulkCalls.FailedActivationIsMissed` | toolbox/service.py:775-807 | The concrete run: the default toolset whose activation failed is cleared when named and left out otherwise. |
| `Service.TransportManager.SwapRuntime` | toolbox/transport_manager.py:199-203 | The new runtime is in the table before the old one is closed, so it stays whatever the close does; it raises exactly if the old one was running and its close raises. |
| `Service.TransportManager.Disconnect` | toolbox/transport_manager.py:205-210 | The runtime is out of the table before it is closed; the result says whether there was one, unless the close raises. |
| `Service.TransportManager.Abort` | toolbox/transport_manager.py:135-140 | The runtime a caller gave up on stops running, if it is still the mounted one. |
| `Service.ToolboxService.RegisterOne` | toolbox/service.py:911-1039 | Registration writes the record the request asks for, or refuses, exactly as the step function says. |
| `Service.ToolboxService.ActivateOne` | toolbox/service.py:1150-1272 | The lock-protected body of an activation, editing a private record and writing store and runtimes step by step, has the effect and the bucket the step function gives. |
| `Service.ToolboxService.RefreshOne` | toolbox/service.py:1300-1388 | The same for a refresh, including the except branch after a swap whose close raises. |
| `Service.ToolboxService.RestoreOne` | toolbox/service.py:627-771 | The same for a restore. |
| `Service.ToolboxService.DeactivateOne` | toolbox/service.py:1414-1475 | The same for a deactivation, including a close that raises. |
| `Service.ToolboxService.UnregisterOne` | toolbox/service.py:1051-1123 | The same for an unregistration; it also returns what goes into each of the three lists, entered where the code enters it. |
| `Service.ToolboxService.CheckHealthOne` | toolbox/service.py:474-604 | The same for a health check; a probe that timed out has aborted its runtime before the disconnect. |
| `Service.ToolboxService.ClearStaleOne` | toolbox/service.py:786-832 | The same for clearing staleness. |
| `Service.ToolboxService.MarkToolsetStale` | toolbox/service.py:1479-1488 | The same for marking stale; the result says whether the toolset is known. |
| `Service.ToolboxService.RecordRuntimeFailure` | toolbox/service.py:2050-2073 | The stored record is marked stale and failed; a missing one is left alone. |
| `Service.ToolboxService.BeginCall` | toolbox/service.py:1540-1544 | The locked start of a call resolves the mounted name again over what is mounted now, and counts the call, with the runtime it is sent to, exactly if it resolves. |
| `Service.ToolboxService.AbandonCall` | toolbox/service.py:1552-1574 | The except branch aborts the call's own runtime if it timed out, disconnects, and unless that raises records the failure and logs it. |
| `Service.ToolboxService.EndCall` | toolbox/service.py:1575-1577 | The finally branch counts the call as finished. |
| `Service.ToolboxService.ForEach` | toolbox/service.py:1149-1274 | The loop over namespaces, with its three result lists, performs the steps in order and sorts the namespaces by outcome, and is left without a result by the first step that raises. |
| `Service.ToolboxService.ActivateToolsets` | toolbox/service.py:1127-1274 | The whole call, including the unknown-scope answer. |
| `Service.ToolboxService.DeactivateToolsets` | toolbox/service.py:1392-1477 | The whole call. |
| `Service.ToolboxService.RefreshToolsets` | toolbox/service.py:1276-1390 | The whole call; no namespaces means all registered ones. |
| `Service.ToolboxService.RestoreToolsets` | toolbox/service.py:617-773 | The whole call; no namespaces means all with something to recover. |
| `Service.ToolboxService.UnregisterToolsets` | toolbox/service.py:1041-1125 | The whole call, with all three lists. |
| `Service.ToolboxService.CheckToolsetHealth` | toolbox/service.py:449-606 | The whole call, including the unknown scope; no namespaces means all with a scope loaded. |
| `Service.ToolboxService.ClearStaleToolsets` | toolbox/service.py:775-834 | The whole call; no namespaces means all that are stale or were found unhealthy. |
| `Service.ToolboxService.BuildContractDiff` | toolbox/service.py:1780-1863 | The imperative diff from the two snapshot caches or the runtime is the diff that the agreement result is about. |
| `Service.ToolboxService.ReconcileOnStartup` | toolbox/service.py:66-157 | Seeding the default toolset and reconciling the stored records, written back only when changed, is what a restart does to the store. |
| `BatchReferences.JoinedTokensReadBack` | toolbox/service.py:2098-2098 | A reference spelled from non-empty, dot-free tokens is read back as exactly those tokens. |
| `BatchReferences.TokensAreTokens` | toolbox/service.py:2098-2098 | Every token of any reference is non-empty and dot-free, so no reference reaches an empty or dotted key. |
| `BatchReferences.SpelledPathIsFollowed` | toolbox/service.py:2093-2126 | A reference spelled from a successful step and a path follows exactly that path into its data, or fails where the path does. |
| `BatchReferences.NumeralReadBack` | toolbox/service.py:2117-2121 | Every list index can be spelled, and its numeral leads to that item. |
| `BatchReferences.ExtractBatchReference` | toolbox/service.py:2093-2126 | The loop with its cursor follows the path, with the error of the first token that cannot be followed. |
| `BatchReferences.ResolvedAt` | toolbox/service.py:2075-2091 | Path by path: what is not a reference stays, a reference is replaced by exactly the data it names, and below it the data is as recorded, whatever it contains; nothing inserted is scanned for `$from` again. |
| `BatchReferences.ResolvesIff` | toolbox/service.py:2075-2126 | Arguments resolve if and only if each reference in them is a string that can be followed. |
| `BatchReferences.IdentityWithoutReferences` | toolbox/service.py:2075-2091 | Without references, resolution is the identity. |
| `BatchReferences.OnlyCitedStepsMatter` | toolbox/service.py:2075-2126 | The result, error or not, depends only on the data of cited successful steps and on which cited steps are missing or failed. |
| `BatchReferences.LaterResultsChangeNothing` | toolbox/service.py:2075-2126 | Arguments that resolve keep their value when results of other steps are added. |
| `BatchReferences.CitingUnfinishedFails` | toolbox/service.py:2103-2108 | A reference to a step that has not succeeded makes resolution fail. |
| `BatchReferences.LeafLaw` | toolbox/service.py:2093-2126 | A path of no tokens stays where it is, and nothing leads below a value that is neither object nor list. |
| `BatchReferences.SpelledPathReadsData` | toolbox/service.py:2093-2126 | A spelled reference to a successful step walks the data it has recorded, or its text if it has no data, along exactly that path. |
| `BatchReferences.ReferenceErrors` | toolbox/service.py:2098-2108 | A reference without tokens, one to a step without a result, and one to a failed step each fail as just that. |
| `BatchReferences.FieldLaw` | toolbox/service.py:2109-2116 | A token leads into an object to the field of that name, and nowhere if there is none. |
| `BatchReferences.ItemLaw` | toolbox/service.py:2117-2121 | A numeral leads into a list to the item of that index, and nowhere beyond its end. |
| `BatchRuns.ResultsFollowSteps` | toolbox/service.py:1609-1646 | Results follow the step order with their ids and tools; the run stops right after the first error unless told to continue, and otherwise covers every step. |
| `BatchRuns.LaterStepsChangeNothing` | toolbox/service.py:1613-1646 | A longer batch begins exactly as the shorter one does, in results and in calls made. |
| `BatchRuns.ResultOfStep` | toolbox/service.py:1613-1641 | The result of a step is that step run over the results of the steps before it and nothing else. |
| `BatchRuns.ResultVerdict` | toolbox/service.py:1613-1645 | A result is an error if and only if its arguments do not resolve to an object, its tool is not mounted, the call raised, or the tool answered with an error; an answer is recorded with its text and its structured content, or what the text gives, and anything else with its reason; the host is asked for the tool and called with exactly the resolved arguments. |
| `BatchRuns.BatchSucceedsIff` | toolbox/service.py:1613-1669 | A batch succeeds if and only if every one of its steps was called and answered without an error. |
| `BatchRuns.ToolErrorFailsBatch` | toolbox/service.py:1629-1645 | The concrete batch: one step whose mounted tool answers with an error ends in `step_failed`, stopped there. |
| `BatchRuns.OnlyEarlierSuccesses` | toolbox/service.py:1613-1641 | A step that cites itself, a later, an unknown or a failed step fails. |
| `BatchRuns.BatchOutcome` | toolbox/service.py:1579-1669 | An empty batch or one with a repeated id calls nothing and is invalid; any other succeeds if and only if no result is an error, has then run every step, and otherwise reports the first error. |
| `BatchRuns.FinalStep` | toolbox/service.py:1648-1666 | The final result is that of the step asked for, by default of the last that ran; there is none exactly if that step did not run or has an empty id. |
| `BatchRuns.EmptyIdIsNeverFinal` | toolbox/service.py:1648-1666 | The concrete batch: one step with an empty id runs, whatever the host answers, and there is no final result. |
| `BatchRuns.RunToolBatch` | toolbox/service.py:1579-1669 | The imperative batch, with its id check, result dictionary and early stop, computes that outcome. |
| `BatchRuns.RepeatedId` | toolbox/service.py:1593-1607 | The check over the ids seen so far finds the first repeated one. |

## Left out

- Interleaving inside a lock-protected body: each is one atomic step, and so is the failure path of a call; between steps anything may happen. The lock object that unregistration discards is not modelled, so exclusion per namespace is assumed, not proved.
- Time, audit details and messages: events carry operation, outcome, namespace, scope and number; timestamps, error texts and detail payloads are left out.
- The hash: an abstract injective constructor in place of SHA-256 over canonical JSON; tool schemas are their canonical JSON text.
- Records as shared objects: the store deserialises a private copy for every read, so a record is a value in the store and a mutable object only while one operation holds it.
- Store files, encryption, migration of old documents, and I/O errors: every store mutation is atomic and succeeds.
- Processes, MCP sessions, bootstrap and shutdown timeouts: a bootstrap, a probe, a call and the closing of a running runtime end in a nondeterministic outcome; a runtime that is swapped out is gone for the lifecycle model, while the actor model says how it is closed and when that raises; shutting down the whole transport manager is left out.
- Parsing: a program is its length and its AST; a text that does not parse is an invalid program. A `**mapping` inside a dictionary display is an unsupported key that counts as a node of its own.
- Python values: integers, strings, lists, tuples and dictionaries are concrete where the evaluator's own branches depend on them; floats, sets, generators and the operators, conversions and builtins on them are host answers. A builtin such as `sum` or `sorted` over an endless generator is assumed to answer.
- Result rendering: `_json_safe_value`, the selected program variables, the retryable flag, contract summaries, and the redaction of recorded arguments.
- Namespace characters: beyond ASCII every character counts as alphanumeric, which admits more namespaces than `str.isalnum`; none of them contains a dot.
- List indices in batch references: `isdigit` is the ASCII digits, so an index written in other digits is an error here.
- Batch tool calls: one host answers them, as a function of everything the batch has asked so far; reading text as JSON is an uninterpreted function.
- Unknown command kinds in the actor: no caller sends one.
- Search, listing, status, inspection payloads, server wiring, configuration, the fake managed server and `startup_restore_scopes`: presentation and plumbing.
