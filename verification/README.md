# Athanore's execution engine and event feed, verified

Athanore runs workflows: graphs of nodes whose bodies return where the work goes next. This
project models the parts of it where being wrong is quiet, and proves what they promise.

- **Runs and tasks.** A run is a set of task rows, one per attempt. A body's return value is
  the routing: one successor, a fan-out that pushes a frame on each branch, or an arrival at
  a join that pops one. Every change is one transaction (`Runner`, `Ops`, `Verbs`), and
  `Machine` is the engine as a state machine: one step per transaction, crash or sweep, in
  any order. What a row returned is kept in the machine's state as `returned`, which no step
  reads: it is there to say what was written for it.
- **Capacity and dispatch.** Pools lease slots, waiting attempts queue for one, a tick serves
  them and claims new work, and workflows come and go under a running loop (`Pools`,
  `Ledgers`, `Turns`, `Registration`; `Dispatch`, `Slots`, `Capacity`, `Leaks`, `Overlaps` and
  `Wake` for every interleaving).
- **The event feed.** Events are committed, then published; a client replays from the store
  and goes on from the bus, over any number of broken connections (`Glob`, `Bus`, `Feed`,
  `LiveFeed`, `Streaming`, `SseText`, `SseFields`, `Follow`, `Serving`, `Paging`).
- **Graphs and agent sessions.** Finalization of a graph (`Graphs`), and a held agent session
  with its repair turns and its accounting (`Sessions`).

Code that changes things in place is a class or a method with loops, proved against a
function or a stated relation; what the function means is proved as lemmas. The functions of
`Runner` and `Ops` are what the machine steps by, and the methods beside them, or in `Verbs`,
make the same change inside a `UnitOfWork` that becomes visible at its commit. What those
functions leave is then stated on the rows and from the value returned, without naming them
(`Successors`, `Results`, `Interventions`, `Pausing`).

## How the claims are scoped

- *Every step* is all sixteen of `Machine.Step`, operator verbs included.
- A *keeping run* overwrites no `done` row with `set_status`.
- A *forward run* sends no work down a branch again: no rerun, retry, move or set_status.
  Pausing, resuming and cancelling are in it, and crashes and sweeps anywhere.
- An *engine run* has no operator at all.
- A *fixed run* is a keeping run in which each run keeps its graph.
- A *composing run* is a forward run with operator retries of rows whose branch nothing else
  carries.
- In `Dispatch` a body may have several waits for a human open at once, a wait may outlive its
  attempt, a task that a body left running may enter one later still, and an attempt may be
  cancelled at any suspension, the closing of its transcript included. `Leaks.Limits` says how
  many waits, and whether the rest is allowed.

An operator verb and the cancellation of the attempts it ends are one step; bodies let a
cancellation through. Clocks and payloads are parameters, and an id is a position in its
table. Event ids ascend in commit order and publication follows commit order.

## Where the code falls short of its documents

The code was kept as it is. Each of these is stated exactly, with an input that shows it.

- **An attempt cancelled while it closes loses a slot.** athanore/engine/runner.py:221 awaits
  the closing of the transcript before line 225 gives back the slot the attempt has now. That
  await suspends when chunks are buffered (athanore/engine/services.py:393, 401-442), and a
  cancellation landing in it skips every line below, the live registry's included. The reap
  gives back the slot the attempt was dispatched on and knows of no other
  (athanore/engine/scheduler.py:428-459), so a body that was answered once and is cancelled
  then costs its pool a slot. Unregister is one that cancels, and `wait_for` (scheduler.py:183-187)
  says the slots are back when it returns. `Overlaps.CutWhileClosingLeaks` gives the run: at its
  end nothing is live and one slot is leased.
- **Two waits of one body can lose one too.** athanore/engine/services.py:708 checks
  its flag before the transaction after which it is raised (line 735), and it falls (line 745)
  before the wait is given a slot again (line 784). Two questions gathered in one body can both
  be past the guard; each is handed a slot, and the second overwrites the first (line 785),
  which no one then gives back (`Overlaps.TwoWaitsLeak`). So can a question that outlives its
  attempt (`Overlaps.OutlivingLeaks`).
- **Exactly these lose a slot.** `Leaks.StrayExactly` says which steps strand one,
  `Leaks.StrayForGood` that it stays out unless a task that the body left running enters a wait
  with it, and `Overlaps.LimitIsExact` that no slot ever leaks if and only if a body never
  waits, or waits for one question at a time, ends no sooner than its wait, and is not
  cancelled while it closes on a slot it was re-admitted on.
- **A list routed to two joins or more and to nothing else is not settled.** Invariant 4 of
  docs/v1/03-domain-model.md (line 206) says a run with no pending task and a partial join
  fails. `JoinRepo.incomplete` skips a fan-out whose width no task row carries, which
  athanore/store/repos/joins.py:202-206 argues can have no branch outstanding. When every
  branch goes straight to a join and not all to the same one, no row carries the frame and
  no join fires: the run stays `running` with nothing pending, or is completed by another
  branch with those joins partial. `Settlement.SettlesExactly` and
  `Settlement.IncompleteMeans` say exactly when, `Settlement.ScatteredStalls` gives a run.
- **A join cannot be rerun after a retry of it, automatic or not.** The replay reads the
  fan-out off the newest row's lineage, and a retry's lineage names the row retried.
  `Replays.RerunAccepted` says exactly when a rerun is accepted: for a dispatch or a rerun of
  one, and for a retry only when the row retried is itself a done fan-out whose branch came
  round to the join. `Replays.RerunAfterRetryRefused` and
  `Replays.RerunAfterManualRetryRefused` give a run of each kind.
- **`set_status` on a fan-out row breaks the nesting of its branches**, exactly when some
  row's stack names it (`Nesting.SettingStatusNests`); `Findings.SettingStatusUnnests` gives a
  run.
- **A refused registration can leave its pool behind**: the pool is made before the binding
  is refused. `Registration.Host.Register` states which pools there are afterwards, and
  `Findings.RefusedLeavesPool` gives such a registration.
- **A line separator in an event's data stops a client.** athanore/cli/client.py:529 takes its
  lines from `iter_lines`, which ends one at U+0085, U+2028 and U+2029 as well; JSON text
  may hold them raw, and athanore/api/sse.py:217 does not ask for them to be escaped. The
  message is read as if its data ended there, so it is refused exactly when that is not JSON
  (`SseText.BreakCutsData`), and what is sent intact is what has none (`SseText.Sendable`).
- **A stats entry can say `ok` for a prompt that raised**, exactly when a good answer was in and
  the building of its entry was cut short (`Sessions.EntryTellsOutcome`); `Sessions.CutShort`
  gives one.

## Model

| member | source | states |
|---|---|---|
| Graphs.Generations | athanore/graph/validate.py:74-84 | ends on every finite graph, cycles included; its domain is exactly the nodes a walk from the start reaches, and each value is the length of a shortest such walk |
| Graphs.Finalize | athanore/graph/validate.py:24-71 | accepts exactly the graphs with a good name, one start, edges that resolve, joins with a payload slot and every node reachable; which error for which fault, in the order they are checked; the frozen nodes carry exact generations and are otherwise unchanged |
| Json.JsonableIdempotent | athanore/graph/json.py:20-42 | coercing what was coerced changes nothing, which the key of a branch needs |
| Json.JsonableOfAsDict | athanore/graph/json.py:20-42 | turning dataclasses into dicts first, however deep they sit, makes no difference to the JSON |
| Json.JsonLikeSurvives | athanore/graph/json.py:20-42 | a value that is JSON already is stored as it is: read back it is the same value |
| Json.RestIsNearest | athanore/graph/json.py:20-42 | a tuple is stored as the list of its items, a model as its dump, a transition as its target and payload, an edge as its name, anything else as its text |
| Routing.TargetsResolve | athanore/engine/routing.py:36-57 | on a finalized graph every interpreted target is a node of it |
| Routing.HopsMean | athanore/engine/routing.py:36-123 | the transitions of an accepted return, read off the value: item i of a list goes to that item's target with the JSON of its payload, an edge with null, and a plain value along the only edge with its own JSON; these and no others, in this order |
| Routing.RefusedReturns | athanore/engine/routing.py:36-118 | the returns refused are exactly a plain value with a choice of edges, and a transition along an undeclared edge |
| Routing.FanOutFrames | athanore/engine/runner.py:423-448 | branch i of a fan-out of n runs under its parent's stack and a frame of index i and count n whose key is the payload it is given; no frame for any other return |
| Transactions.Database.Commit | athanore/store/uow.py:222-256 | rows and outbox become visible together, after the events there were |
| Transactions.UnitOfWork.Arrive | athanore/store/repos/joins.py:129-171 | one arrival per place, late exactly when the join task of that fan-out exists, and the number of distinct branches in |
| Store.WidthsMean | athanore/store/repos/joins.py:281-315 | a width is known exactly when some row of the run has a frame of the fan-out, and is that frame's count |
| Runner.WriteJoinArrival | athanore/engine/runner.py:487-554 | the arrival, its event, and the join task with its own when it is in time and the last, as one function of the tables |
| Runner.Settle | athanore/engine/runner.py:573-651 | the settlement, step by step, as one function of the tables; what it leaves is `Settlement.SettlesExactly`, `Results.CompletedHasOutput` and `Results.EndsAreStamped` |
| Runner.RecordSuccess | athanore/engine/runner.py:373-420 | the whole outcome in one commit, or the tables as they were and the routing error; what the outcome is, read off the value, is `Successors.SuccessHandsOn` and `Results.RowsHaveResults` |
| Successors.SuccessHandsOn | athanore/engine/runner.py:388-485 | after a success, whatever the state: for each item of the value there is a ready row at its target with the JSON of the item's payload, or, at a join, the arrival of its branch with that value; under the row's stack, with a frame for the item if the return is a fan-out |
| Successors.ReturnedIs | athanore/engine/runner.py:388-412 | what is on record as returned is what the value says, item by item, so the claims about the one are about the other |
| Successors.DoneIsTold | athanore/engine/runner.py:404-419 | a success is told by an event that names the targets in order and says whether the branch ended |
| Successors.SuccessAccepted | athanore/engine/runner.py:388-412 | a success is recorded if and only if its node is there, every item goes along a declared edge or a plain value has no choice, and a return that reaches a join has a frame to pop; which error otherwise |
| Successors.RowsAreAnnounced | athanore/engine/runner.py:451-485 | each row a success adds, successor or join task, is announced with the reason it has |
| Successors.LandingIsTold | athanore/engine/runner.py:503-554 | a landing stores the branch's value and key, is told with its place, the branches in, the count and whether it is late, and adds a row exactly when it is in time and the last: a first attempt under the stack below the frame |
| Results.RowsHaveResults | athanore/engine/runner.py:388-398 | in every run, whatever the steps, a done row has as its result the JSON of the value its last attempt returned, and is terminal exactly when that value ended its branch; a row that failed or has no outcome has neither |
| Results.CompletedHasOutput | athanore/engine/runner.py:602-666 | in every run, whatever the steps, a completed run has as its output the result of its one terminal row, or the list of the results of all of them in branch order |
| Results.EndsAreStamped | athanore/engine/runner.py:602-651 | a run ends by a success, a failure or a cancellation of it and by nothing else, with the status that goes with it and stamped with its time |
| Runner.RecordFailure | athanore/engine/runner.py:674-795 | in one commit: if and only if the error is retryable and the attempt is below its node's own retries, or the server's when it has none, the row has failed and the next attempt at the same work is ready; otherwise it is a dead letter, no row is new and a running run has failed |
| Nesting.StepKeeps | athanore/engine/runner.py:423-448 | every step that overwrites no done row keeps: stacks nest, arrivals are of branches their fan-out made, exactly the done rows have a return, attempts run for rows in progress or waiting |
| Nesting.StacksNest | athanore/engine/runner.py:423-554 | in every keeping run, frame k of a row's stack names an older done row of the same run whose stack is the first k frames, with an index below the count |
| Nesting.FramesAgree | athanore/engine/runner.py:423-448 | in every keeping run all frames of one fan-out agree on its count, and those of one branch are the same frame, key included |
| Nesting.SettingStatusNests | athanore/engine/ops.py:656-718 | set_status keeps the stacks nested if and only if no stack names the row |
| Findings.SettingStatusUnnests | athanore/engine/ops.py:656-718 | a run of four steps after which a stack names a row that is not done |
| Tokens.ArrivalIsNew | athanore/engine/runner.py:487-535 | a branch about to land has not landed before, and its join has not fired |
| Tokens.CountIsAll | athanore/store/repos/joins.py:267-279 | as many distinct arrivals as branches are all of them, and all of them are that many |
| Tokens.StepLinear | athanore/engine/runner.py:388-554 | every forward step keeps each branch carried by one thing at a time: a pending row, the transitions being written, or one arrival |
| Tokens.BranchesAreLinear | athanore/engine/runner.py:487-535 | in every forward run no arrival is late, a branch arrives at one join only, and no pending row carries a branch that arrived or that another pending row carries |
| Once.RouteWrites | athanore/engine/runner.py:388-412 | writing the first transitions of a return leaves exactly those written, once each, and nothing under any other row |
| Once.ExactlyOnceRouting | athanore/engine/runner.py:373-420 | in every forward run, crashes and sweeps anywhere, a done row has each transition it returned written once, as one successor or one arrival, and nothing else; any other row has written nothing |
| Once.DoneIffWritten | athanore/engine/runner.py:373-420 | in every forward run something is written under a row if and only if it is done and returned at least one transition |
| Once.SweepIsExact | athanore/engine/recovery.py:104-132 | the sweep resets exactly the interrupted rows of the named workflows that no attempt holds, to ready and in nothing else, and reports them when there are any |
| Once.SweepAgain | athanore/engine/recovery.py:104-132 | nothing is left to sweep, and sweeping again changes nothing |
| Joins.FullPayload | athanore/engine/runner.py:816-844 | with every branch in, the payload has one entry per branch in order, each that branch's arrival: the payload it was given as key, the value its sender returned to the join, the sender |
| Joins.StepJoins | athanore/engine/runner.py:487-554 | every step keeps: join tasks complete and with the values their senders returned, one per join and fan-out, dispatched as soon as the last branch is in, and no row under a branch that went straight to a join |
| Joins.JoinTaskIsComplete | athanore/engine/runner.py:534-554 | in every keeping run a join task runs under its fan-out's own stack, with one entry for each branch in branch order, under the payload that branch was given and with a value its sender returned to this join |
| Joins.DispatchedOnce | athanore/engine/runner.py:534-554 | in every keeping run a join is dispatched exactly when all branches of the fan-out have arrived at it, and by one task |
| Joins.LastLandingDispatches | athanore/engine/runner.py:503-554 | in every keeping run, whatever happens between the landings, the step that dispatches a join for a fan-out is the one that lands the last of its branches, and that step does |
| Joins.LandingsDispatch | athanore/engine/runner.py:503-554 | of branches that land one after the other, none dispatches anything but the last, which dispatches one task |
| Joins.Confluence | athanore/engine/runner.py:503-554 | whatever order the branches land in one after the other, the tables end the same: one task, with payload, stack and lineage that depend on the branches alone |
| Delivery.JoinHasArrivals | athanore/engine/runner.py:534-554 | in every forward run, whatever happens between the landings, a join task has exactly the payload and the senders of the arrivals of its fan-out |
| Delivery.JoinEntries | athanore/engine/runner.py:816-844 | in every forward run, entry i of a join task is the arrival of branch i: its index, the payload it was given, the value the row that landed it returned to the join, that row |
| Delivery.RunsAreConfluent | athanore/engine/runner.py:503-554 | two forward runs with the same arrivals at a join for a fan-out give its task the same payload and lineage, whatever their interleavings |
| Reopening.RetryKeepsLinear | athanore/engine/ops.py:541-597 | an operator's retry keeps every branch carried once if and only if the row's branch is free: nothing pending carries it and none of it has arrived |
| Reopening.DeadLetterFrees | athanore/engine/runner.py:727-776 | an attempt that dead-letters leaves its branch free |
| Reopening.RetriesCompose | athanore/engine/ops.py:541-597 | through dead letters and retries of free branches no arrival is late, a branch arrives at one join only, and every join task has the payload of its arrivals |
| Settlement.WidthKnown | athanore/store/repos/joins.py:281-315 | in a forward run the width of a fan-out with arrivals is known exactly when one of its branches went to a node, and is then its number of branches |
| Settlement.IncompleteMeans | athanore/store/repos/joins.py:195-239 | the store finds a run incomplete exactly when some but not all branches of a fan-out are at a join and at least one branch of it went to a node |
| Settlement.NothingLeft | athanore/engine/runner.py:388-420 | a return that leaves nothing pending and nothing incomplete ended its branch or was scattered over joins |
| Settlement.SettlesExactly | athanore/engine/runner.py:573-651 | a success of a running run completes it, fails it, or leaves it running with nothing pending, each if and only if a condition on the state before or on what is left |
| Settlement.ActiveIsPending | athanore/engine/runner.py:573-651 | in every engine run, a queued or running run has a pending row, unless one of its returns was scattered |
| Settlement.LastRowSettles | athanore/engine/runner.py:573-651 | the transaction that ends the last pending row of a running run fails it exactly when a join is incomplete, completes it exactly when the branch ended, and leaves it only after a scattered return |
| Settlement.ScatteredStalls | athanore/store/repos/joins.py:195-239 | an engine run of three steps that ends running with nothing pending |
| Outputs.TerminalsOrdered | athanore/store/repos/tasks.py:378-396 | the order has exactly the terminal rows of the run, by branch path and then by id |
| Outputs.PathMeans | athanore/store/repos/tasks.py:161-169 | one branch comes before another exactly when, where their paths part, it has ended or has the lower index |
| Outputs.OrderIsStrict | athanore/store/repos/tasks.py:161-169 | of two rows in that order neither comes before the other both ways, so the order does not depend on which finished first |
| Outputs.OutputIsInOrder | athanore/engine/runner.py:654-666 | the output is the one terminal result, or the list of all of them in branch order |
| Lifecycle.EventsTellStatus | athanore/engine/runner.py:602-651 | in every run, whatever the steps, a run's events are a creation and then endings and re-openings in turn, with pauses and resumptions between; the last of them tell whether it is open, paused or how it ended, and finished is set exactly when it is over |
| Lifecycle.LeftByReopening | athanore/engine/ops.py:899-919 | a run that is over changes only by a verb that re-opens it, and then only to running with no stamp |
| Lifecycle.CompletedIsFinished | athanore/engine/runner.py:602-651 | in every run, whatever the steps, a completed run has no pending row and no join the store finds incomplete |
| Lifecycle.CompletedPartials | athanore/engine/runner.py:602-651 | in every forward run a completed run has a partial join only where every branch of the fan-out went straight to a join |
| Timeline.EventsTellRows | athanore/store/uow.py:191-256 | in every run, whatever the steps, the events of a row announce it once and tell whether it is outstanding or how it ended; there are events for exactly the rows there are |
| Retries.RetriesAreBounded | athanore/engine/runner.py:704-763 | a chain of automatic retries from a first attempt has at most max(1, budget) rows numbered from 1, all of the same work, and all but the last failed, whatever crashes and sweeps come between |
| Retries.ChainsClose | athanore/engine/runner.py:704-763 | every row begins one chain that runs to a row that has not failed, and every other chain from it is a prefix of that one |
| Retries.ChainsCloseOnce | athanore/engine/runner.py:704-776 | without an operator the end of the chain is pending, done or one dead letter |
| Retries.ChainsCloseForCause | athanore/engine/runner.py:704-795 | in every run with fixed budgets, a chain ends in a dead letter only by a failure, and if that was retryable the chain has exactly max(1, budget) rows |
| Replays.RerunAccepted | athanore/engine/ops.py:789-816 | in every fixed run, by the newest row of the join: a rerun is accepted exactly for a dispatch or a rerun, and for a retry only if the row retried is a done fan-out with a branch that came round to the join; otherwise it is refused as a conflict |
| Replays.RerunReplaysJoin | athanore/engine/ops.py:510-535 | in every keeping run an accepted rerun of a join, whether its newest row is a dispatch, a rerun or a retry, runs under that row's fan-out and stack, with the arrivals there as they stand, each branch once and in order; it has every branch's exactly when the join was dispatched for that fan-out |
| Replays.RerunAfterRetryRefused | athanore/engine/ops.py:789-816 | a run of five steps in which a join fires, fails and is retried by the engine, and its rerun is then refused |
| Replays.RerunAfterManualRetryRefused | athanore/engine/ops.py:789-816 | the same with a dead letter and an operator's retry |
| Verbs.Engine.Pause | athanore/engine/ops.py:320-343 | in one transaction the run is paused, with its event, and nothing else is changed; or a refusal that changes nothing |
| Verbs.Engine.Resume | athanore/engine/ops.py:345-364 | in one transaction the run is running, with its event, and nothing else is changed; or a refusal that changes nothing |
| Pausing.PauseStops | athanore/engine/ops.py:320-343 | a run can be paused exactly while queued or running, and then none of its rows can be claimed; the rows of every other run as before |
| Pausing.ResumeStarts | athanore/engine/ops.py:345-364 | a run can be resumed exactly while paused, and then exactly its ready rows can be claimed; the rows of every other run as before |
| Pausing.StepLeavesPaused | athanore/engine/ops.py:899-919 | no step but a resumption and a cancellation of the run changes its row while it is paused |
| Pausing.PauseHolds | athanore/store/repos/tasks.py:119-158 | from a pause on, whatever the engine and the operator do, no row of the run is claimed and none can be, until it is resumed or cancelled |
| Interventions.SubmitAdds | athanore/engine/ops.py:173-225 | a submission is accepted exactly for a registered workflow, and leaves a queued run and one ready row at the start with the payload, each with its event |
| Interventions.RetryAdds | athanore/engine/ops.py:541-597 | a retry is accepted exactly of a row that has stopped and whose node is declared, and adds the next attempt at the same payload, branch and place in the order |
| Interventions.MoveAccepted | athanore/engine/ops.py:599-654 | a move is accepted exactly to a declared node that is no join |
| Interventions.MoveAdds | athanore/engine/ops.py:599-654 | a move adds a first attempt at the other node with the row's payload and branch at the end of the order, and cancels the row if it was outstanding |
| Interventions.RerunAddsRow | athanore/engine/ops.py:484-539 | a rerun of a declared node that is no join is always accepted, and adds the next attempt with the payload and branch of the newest row there, or with none |
| Interventions.RerunAddsJoin | athanore/engine/ops.py:484-539 | an accepted rerun of a join adds one row, its next attempt at its own place in the order; with what fan-out, stack and entries is `Replays.RerunReplaysJoin` |
| Interventions.SetStatusWrites | athanore/engine/ops.py:656-718 | a written status changes that of the row and no other column or row, cancels its attempt, and re-opens the run exactly when it is ready |
| Interventions.CancelStops | athanore/engine/ops.py:410-442 | a cancellation is accepted exactly of a run that is not over, cancels exactly its outstanding rows and their attempts, and ends it |
| Interventions.ClaimTakes | athanore/store/repos/tasks.py:450-521 | a row is claimed exactly when it is ready and its run queued or running; then it is in progress, its run running, and nothing else of the tables is changed |
| Interventions.DropLoses | athanore/engine/scheduler.py:156-178 | a workflow that leaves takes exactly its own attempts with it, a crash all of them, and the tables stay |
| Interventions.ParkWrites | athanore/engine/services.py:718-806 | a wait writes waiting on its row, and in progress when it goes on, and nothing else of the tables |
| Interventions.Refusals | athanore/engine/ops.py:724-760 | which refusal each verb gives: what it names is not there, or its state does not allow it |
| Verbs.Engine.StopTasks | athanore/engine/ops.py:867-878 | the loop cancels every outstanding row of the run and returns their ids, oldest first |
| Verbs.Engine.Cancel | athanore/engine/ops.py:410-442 | the verb as one transaction; exactly the attempts of the rows it stopped are cancelled after the commit |
| Verbs.Engine.Rerun | athanore/engine/ops.py:484-539 | the verb as one transaction, or a refusal that changes nothing |
| Verbs.Engine.Retry | athanore/engine/ops.py:541-597 | the verb as one transaction, or a refusal that changes nothing |
| Verbs.Engine.Move | athanore/engine/ops.py:599-654 | the verb as one transaction, and the moved row's attempt cancelled after it |
| Verbs.Engine.SetStatus | athanore/engine/ops.py:656-718 | the verb as one transaction, and the row's attempt cancelled after it |
| Verbs.Engine.Submit | athanore/engine/ops.py:173-225 | a run and its first row at the start node in one transaction |
| Verbs.Engine.Recover | athanore/engine/recovery.py:80-132 | the sweep of every registered workflow or of the named ones, sparing what this process runs; a name that is not registered refuses all |
| Verbs.SweepSparesAttempts | athanore/engine/recovery.py:115-119 | sparing the attempts of the swept workflows spares every attempt |
| Verbs.ClaimReady | athanore/store/repos/tasks.py:450-521 | of the candidates the query yields, ready rows of the workflows in runs that may dispatch, the first `limit` are claimed and none is left unless the limit is reached; they are in progress, their queued runs running, and each run this claim started is announced on the first of its rows |
| Verbs.ClaimIsSteps | athanore/store/repos/tasks.py:450-521 | a claim of several rows is as many claims of one |
| Glob.FiltersAgree | athanore/store/repos/events.py:109-131 | the store's rule, a match and as many dots, selects exactly the names the bus matches segment by segment |
| Glob.LikeIsGlob | athanore/store/repos/events.py:86-106 | LIKE of the translated pattern is the glob of the pattern, escapes included |
| Glob.SplitIs | athanore/events/names.py:107-115 | a name is cut at its dots: the segments hold none, and joined again they are the name |
| Bus.EventBus.Subscribe | athanore/events/bus.py:93-109 | a new, empty, last subscription |
| Bus.EventBus.Close | athanore/events/bus.py:74-79 | delivery ends for that subscription and no other; a second close does nothing |
| Bus.EventBus.Publish | athanore/events/bus.py:111-126 | every subscription takes the event at the end of its queue, drops it and remembers that it did, or does not want it |
| Feed.NoGapNoDuplicate | athanore/api/sse.py:273-398 | over every interleaving of commits, publishes, the subscription, the query and the live loop, the stored events sent before the first resync are the first of the committed ones that match and lie above the cursor, ascending |
| Feed.AllIsSent | athanore/api/sse.py:320-398 | once live, with all published and the queue drained and nothing dropped, every such event has been sent |
| Feed.SkipsAreAnnounced | athanore/api/sse.py:320-350 | an event that was asked for and not sent before a later one has a resync before the later one |
| LiveFeed.LiveIsExact | athanore/api/sse.py:320-398 | over every interleaving, resyncs or not, what was sent is the page and then each event the subscription took, stored or not, that is of the asked run and above the page: once each, in the order of publication, but for those queued; all it was told of was taken unless it overflowed; the page is all that was asked for of what was committed when it was read, and capped exactly when that is too much; each resync is sent once |
| LiveFeed.UnstoredAreSent | athanore/api/sse.py:320-350 | over every interleaving the events that are not stored are sent exactly as taken, and with nothing dropped exactly as published: those of the asked run and names, once each and in order, but for those queued |
| LiveFeed.StoredAreSentOnce | athanore/api/sse.py:320-398 | whatever resyncs there were, the stored events sent are committed ones that were asked for, and none twice |
| LiveFeed.DropsWhenFull | athanore/events/bus.py:111-126 | an event is dropped exactly when the queue holds as many as it may, and that is remembered; any other goes to its end |
| LiveFeed.QueueIsBounded | athanore/events/bus.py:93-126 | over every interleaving the queue is within its bound, and without a bound nothing is dropped |
| Streaming.Stream.Suspend | athanore/events/bus.py:111-126 | whatever is committed and published while the generator waits, its invariant stands |
| Streaming.Stream.Live | athanore/api/sse.py:320-350 | the live loop, turn by turn, keeps the invariants, that of every event sent included, and only adds frames |
| Streaming.Stream.Run | athanore/api/sse.py:353-398 | the generator, whatever happens at each of its suspensions, sends the page and then what the subscription took that passes, stored or not, but for what is queued; before its first resync the stored ones are the first of those committed that match and lie above the cursor |
| SseText.ParseSse | athanore/cli/client.py:323-369 | the loop yields exactly the events the line-by-line definition does, and raises exactly where that refuses |
| SseText.PrefixOfEvents | athanore/cli/client.py:323-369 | a stream cut at any line yields the first of its events |
| SseText.CommentChangesNothing | athanore/cli/client.py:343-344 | a comment changes nothing, wherever it stands |
| SseText.RoundTrip | athanore/cli/client.py:323-387 | what is written is what is read, as the client's reader breaks lines: every message once and in order, an id exactly where one was written, keep-alives not at all |
| SseText.BreakCutsData | athanore/cli/client.py:323-387 | a message whose data has a line break only the client's reader sees is read as its data before it: refused exactly when that is not JSON, and the rest lost |
| SseText.CutStream | athanore/cli/client.py:323-369 | a written stream cut anywhere yields the first of its messages and refuses nothing |
| SseText.KnownFrame | athanore/cli/client.py:323-369 | one message as it stands on the wire, and what is read of it |
| SseFields.BlockReads | athanore/cli/client.py:323-387 | a block of any lines, in any order and however written, is one event, of the last name or `message`, with its data lines joined and the last id, or a refusal when that is not JSON; with neither name nor data it is nothing |
| SseFields.BadIdRefuses | athanore/cli/client.py:323-369 | an id that is not an integer refuses the stream there |
| SseFields.IntReads | athanore/cli/client.py:350-362 | an id is read as the number it shows, its sign and the blanks around it included |
| SseFields.TextReads | athanore/cli/client.py:372-387 | a text written a data line for each of its lines reads back as that text |
| Follow.FollowStreams | athanore/cli/inspect.py:226-255 | the loop over connections yields what the definition does and ends with its cursor |
| Follow.ResumeGivesRest | athanore/cli/inspect.py:233-236 | asking after the last event one has gives exactly the events one does not have |
| Follow.FollowIsExact | athanore/cli/inspect.py:226-255 | over any number of connections, each cut at any line, the stored events yielded before the first resync are the first of those committed after the starting cursor that match: once each, in order, none skipped |
| Follow.FollowIsComplete | athanore/cli/inspect.py:226-255 | once a connection has caught up and was not cut, with no resync before it, all of them have been yielded |
| Follow.ConnectionGives | athanore/cli/client.py:323-387 | a connection cut at any line gives the first of its frames, stored or not, each as it was sent, and all of them when it was not cut |
| Follow.FollowYields | athanore/cli/inspect.py:226-255 | following yields what each connection gives, one after the other |
| Follow.FrameTells | athanore/api/sse.py:188-270 | what a client has of a frame tells which frame it was: the event, its run and data, or the reason of a resync |
| Serving.ReplayServes | athanore/api/sse.py:353-398 | a server that replays, with a text that carries every value without a fraction, serves every history of such events, and has sent all that was asked for when that is no more than a page |
| Serving.FollowingReplay | athanore/cli/inspect.py:226-255 | following that server yields all that was asked for in one connection |
| Paging.AllEvents | athanore/cli/inspect.py:377-397 | the pages make exactly the run's events after the cursor as of the last page read, once each and in order, though the history grew between pages; every page but the last is full |
| Pools.Lease.Release | athanore/engine/pools.py:109-118 | the slot goes back once; a second release does nothing |
| Pools.PoolState.TryAcquire | athanore/engine/pools.py:159-169 | a new slot exactly when one is free |
| Pools.PoolState.RequestReadmit | athanore/engine/pools.py:185-204 | the place at the end of the queue is taken by the call |
| Pools.DrainIsPrefix | athanore/engine/pools.py:206-224 | a drain serves exactly min(free, live) waiters, and leaves one behind only when no slot is left |
| Pools.PoolState.DrainReadmits | athanore/engine/pools.py:206-224 | the first waiters are taken off, each still waiting has a new slot of its own for its task, a suffix of the queue is left, the count stays that of the slots out |
| Ledgers.Ledger.Spawn | athanore/engine/scheduler.py:399-415 | a new attempt in spawn order, which has its task's entry unless an attempt still running has it |
| Ledgers.Ledger.AttemptsOf | athanore/engine/scheduler.py:139-154 | the tasks of the running attempts of the workflow, in spawn order, each once |
| Ledgers.Ledger.CancelAttemptsOf | athanore/engine/scheduler.py:156-178 | exactly the running attempts of the workflow are cancelled, the second attempt of a row included |
| Ledgers.Ledger.CancelAttempts | athanore/engine/scheduler.py:284-304 | exactly the running attempts the ids name are cancelled |
| Ledgers.Ledger.Reap | athanore/engine/scheduler.py:428-459 | exactly the attempts that are over leave both views, no other attempt's entry goes, and their slots are back |
| Turns.Reserve | athanore/engine/scheduler.py:363-369 | every free slot is taken, each once |
| Turns.ClaimFree | athanore/engine/scheduler.py:363-385 | each claimed row is an attempt on a new slot of its own that is out, which no older attempt and no waiter has, and every other slot reserved goes back, all of them when the claim raises |
| Turns.DispatchPool | athanore/engine/scheduler.py:346-385 | the turn hands each of the first waiters a new slot of its own for its task, claims only with the queue empty and only as many rows as slots are left, each on a slot handed to no waiter and had by no older attempt, and the pool's count grows by just those |
| Registration.PoolRegistry.Add | athanore/engine/pools.py:262-272 | refused exactly on a name clash, with a pool or a workflow |
| Registration.PoolRegistry.Bind | athanore/engine/pools.py:274-292 | refused exactly for a pool's name, an unknown pool, or a workflow bound elsewhere |
| Registration.PoolRegistry.Unbind | athanore/engine/pools.py:294-306 | the binding goes, the pool stays |
| Registration.PoolRegistry.Rebind | athanore/engine/pools.py:308-325 | moves a bound workflow to a known pool, and refuses anything else |
| Registration.PoolRegistry.WorkflowsPartition | athanore/engine/pools.py:347-359 | the pools partition the bound workflows |
| Registration.Host.Register | athanore/engine/__init__.py:137-162 | exactly when a registration is refused; graphs and bindings keep the same names; which pools there are after a refusal |
| Findings.RefusedLeavesPool | athanore/engine/__init__.py:137-162 | a registration that is refused and leaves the pool it asked for |
| Registration.Host.Replace | athanore/engine/__init__.py:164-211 | the graph is swapped and the pool moved only with nothing of it running; a refusal leaves everything as it was |
| Registration.Host.NoneRunning | athanore/engine/__init__.py:201-208 | with no task of it listed, no attempt of the workflow runs |
| Registration.Host.Unregister | athanore/engine/__init__.py:213-251 | the name is unbound and its graph dropped, every running attempt of it is cancelled and listed to wait for, and no attempt of another workflow is touched |
| Capacity.SlotsAreConserved | athanore/engine/pools.py:109-169 | in every interleaving, however many waits are open, each pool's count is its slots that are out and within its capacity; a slot that is out is reserved for the claim in progress or one attempt's, and all slots of an attempt are of one pool |
| Leaks.StrayExactly | athanore/engine/services.py:673-843 | in every interleaving a slot ends up with no one to give it back exactly when some step stranded it and no wait was entered with it since: a resumed wait that overwrote a slot still out, or was handed one after its attempt was over; a wait cancelled before it parked whose slot no one else had; an attempt cancelled while it closed on a slot it was re-admitted on |
| Leaks.StrayForGood | athanore/engine/pools.py:109-118 | such a slot is out in every continuation in which no task that the body left running enters a wait with it |
| Leaks.SlotsAreAccounted | athanore/engine/runner.py:219-228 | while a body waits once at a time, ends no sooner than its wait and is not cancelled while it closes on a slot it was re-admitted on, each slot that is out is reserved, or is one its attempt or a wait of it will give back |
| Leaks.IdleHoldsNothing | athanore/engine/scheduler.py:428-459 | under that limit, once no attempt is live and no claim in progress, no slot is out |
| Leaks.UnregisteredHoldNothing | athanore/engine/__init__.py:242-260 | under that limit, when unregister returns every slot of the attempts it waited for is back |
| Overlaps.TwoWaitsLeak | athanore/engine/services.py:706-739 | a run in which two gathered waits lose a slot |
| Overlaps.OutlivingLeaks | athanore/engine/services.py:773-785 | a run in which a wait that outlives its attempt loses one |
| Overlaps.CutWhileClosingLeaks | athanore/engine/runner.py:219-228 | a run in which a body asks one question, is answered, and is cancelled while its attempt closes: once reaped nothing is live and a slot is leased |
| Overlaps.LimitIsExact | athanore/engine/services.py:673-843 | no slot leaks in any run within a limit if and only if the limit is no wait at all, or one at a time, within the body, and no cancellation of an attempt closing on a slot it was re-admitted on |
| Capacity.ClaimIsExact | athanore/engine/scheduler.py:363-385 | each claimed row has a slot of its own, every surplus slot goes back, and nothing ready is left beside a slot that was free |
| Capacity.FailedClaimReturnsAll | athanore/engine/scheduler.py:371-377 | a failed claim gives every slot back and starts nothing |
| Capacity.WaitersComeFirst | athanore/engine/scheduler.py:346-369 | a pool's turn serves its first waiters before it reserves a slot for new work, and reserves none while a waiter is left |
| Capacity.FirstComeFirstServed | athanore/engine/pools.py:185-224 | in every interleaving waiters leave the head of their queue only, in a turn of that pool, served or done, and join its end only, when their answer comes |
| Capacity.TickReaps | athanore/engine/scheduler.py:335-344 | a tick begins by reaping: no attempt that is over is live after it, and the slots such attempts were dispatched on are back |
| Capacity.ReservationIsStrict | athanore/engine/__init__.py:164-211 | through ticks, waits, moves and unregistrations, an attempt that runs has its slots from the pool its workflow is bound to |
| Capacity.LedgersAgree | athanore/engine/scheduler.py:399-459 | every entry is a live attempt of that task, and a reap drops exactly the entries of the attempts that are over |
| Capacity.ClaimKeepsEntries | athanore/engine/scheduler.py:399-415 | a claim leaves a task whose attempt still runs its entry, and gives every other task it claims one |
| Capacity.UnregisterDooms | athanore/engine/__init__.py:213-241 | an unregistration cancels and waits for exactly the running attempts of the workflow, unbinds the name and changes nothing else |
| Capacity.RegisterBinds | athanore/engine/__init__.py:137-162 | a registration binds the name, and makes its pool, with every slot free and nobody waiting, exactly when there is none |
| Capacity.UnregisterIsComplete | athanore/engine/__init__.py:242-260 | when unregister returns, with the name not registered again, no attempt of the workflow is live and the slots those it waited for were dispatched on are back |
| Wake.BlockedSawAll | athanore/engine/scheduler.py:274-333 | a clear flag means no notify since the last clear, and the loop waits on one only when every notified commit came before its last tick began |
| Wake.TickFollowsNotify | athanore/engine/scheduler.py:308-333 | work notified is looked for by a tick within the loop's next four steps, with no need of the timeout |
| Sessions.Session.Prompt | athanore/agents/acp.py:1050-1117 | one prompt, step by step, is the function the accounting is about |
| Sessions.PromptIsAccounted | athanore/agents/acp.py:1050-1117 | an admitted prompt records one entry, sends at most one wire turn more than the repairs allowed, and only on a live session, and accounts for its answers' tokens; a refused one changes nothing |
| Sessions.OverlapChangesNothing | athanore/agents/acp.py:1081-1117 | however many prompts are made while one is in flight, while it is rendered, answered, repaired or looked into, it ends as it would have alone, with the same session, entry and outcome |
| Sessions.WhatKills | athanore/agents/acp.py:1102-1117 | a session dies of a cancellation, a timeout or a transport failure and of nothing else; it is stopped at once unless it was cancelled, and otherwise held as it was |
| Sessions.AnswersHaveReasons | athanore/agents/acp.py:1460-1537 | the reason the entry and the body are given of each way an answer can end: refused, cancelled, truncated by the agent or by the provider's word, without a submission, or good |
| Sessions.RaisesHaveReasons | athanore/agents/acp.py:980-1008 | a prompt that raises on the way to an answer, rendered, on the wire or in a repair, has an entry that is not ok with the reason of what raised, and the body the outcome that goes with it |
| Sessions.CutsHaveReasons | athanore/agents/acp.py:1050-1117 | and so has one that is interrupted with its answer in: asking the provider, looking for the submission, building the entry |
| Sessions.EntriesHaveReasons | athanore/agents/acp.py:932-975 | a session that could not be entered records that alone, with its reason, and releases exactly what it had started |
| Sessions.PlusAdds | athanore/agents/acp.py:657-664 | adding usage adds each kind of token |
| Sessions.EntryTellsOutcome | athanore/agents/acp.py:1418-1537 | an entry says ok exactly when the replies lead, through repairs within the budget, to an answer that ended of its own accord, is not truncated and has its submission unless the tier has none; the body is given that result exactly when nothing cut the building of the entry short |
| Sessions.CutShort | athanore/agents/acp.py:1460-1513 | a prompt that raised and whose entry says ok |
| Sessions.BlockIsAccounted | athanore/agents/acp.py:932-975 | over a whole block, however entry, prompts and exit go: one entry per admitted prompt or one for a failed entry, every reported token in the entries, nothing on the wire once dead, connection and child each released once |

## Left out

- Deleting a run, editing, reordering and logging: rows are never removed, so ids are positions.
- The order in which the claim's query lists its candidates, and the positions of runs: the claim takes the first of the list.
- Claims under operator reruns, moves, status writes and retries of branches that are not free, for linearity, exactly-once, settlement and retry chains: each can send work down a branch again.
- The status a row is given by a wait that outlives its attempt: the run machine's waits end before their attempt does.
- The live registry of contexts, which keeps the entry of an attempt cancelled while it closes.
- Whether a transcript has chunks to write: closing may suspend for any body.
- The rest of a shutdown: `Stop` ends the loop, cancellations are steps of the attempts, and the re-admit queues a shutdown clears are not.
- Joins.LandingsDispatch: of landings with no other step between them; `Joins.LastLandingDispatches` is the statement over runs.
- Joins.Confluence: of landings with no other step between them, but of the whole tables; `Delivery.RunsAreConfluent` is the statement over runs, of the join task.
- An attempt whose wait was cancelled alone runs on without a slot: no claim is made of it.
- A run whose last attempt ends while it is paused is not settled, and resuming does not settle it: the settlement claims are for runs without an operator.
- Two attempts of one row in the run machine: an attempt records an outcome only while it is the row's; `Dispatch` and `Ledgers` have both.
- Errors, tokens and stats of a task row, titles and log entries, and the events of a claim and of a wait: nothing proved depends on them.
- The store's own atomicity and the SQL of two databases: a unit of work is a private copy made visible at once.
- The disconnect that ends a stream: it is any end of a run of the machine, and the connection held open when nothing can publish.
- The order in which a pool lists its workflows, and graph identity: bindings are a map, graphs are compared by value.
- The registry's lookups, pool-name syntax and snapshots: no property beyond their bodies.
- Prompts made while the end of another is flushed and recorded: that end is one step.
- Of a session, the entry's model, cost, duration and counters of tool calls, and a provider's second source of tokens; a second cancellation during cleanup; an entry that cannot be built.
- JSON as text: `json.loads` and its inverse are parameters of the parser, and which characters the inverse escapes is not part of this model; integers are read in ASCII digits.
- A stream cut inside a line: a cut is at a line of it.
- What `logs -f` prints after a resync: its catch-up and the live events overlap.
- HTTP, authentication, subprocesses, the web client, plugins and settings.
