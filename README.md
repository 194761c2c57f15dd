# AsyncTask in Dafny

A model of the task-chaining library `AsyncTask`. The library is a small
future/promise layer, and the repository holds three copies of it:

- the self-contained file `Codes/Codes/AsyncTask.swift`;
- the split copy under `Demos/SubDemos/AsyncTask/AsyncTask`: `Code/AsyncTask.swift`,
  `AsyncTasks.swift`, the two `AsyncTaskProtocol.swift` files and
  `Code/AsyncTask+extersion.swift`;
- the prototype `MyGCD.swift`.

The first two copies have the same logic line for line. The split copy calls
the group controller `AsyncTasks` where the self-contained file calls it
`AsyncMutiTask`. One model covers both copies. The prototype differs in
behaviour and has its own module.

The library does four things:

- A **unit executor** (`Task`) runs one callable on a concurrent queue. It
  moves `idle → doing` on `start`, and the callable later reports through
  `end(s)`.
- A **group executor** (`MutiTask`) fans out to its member units. It counts
  the members that have ended. When every member has ended it joins their
  results into one `completeAll`.
- A **chain controller** (`AsyncTask`) holds one executor. When that executor
  ends, the controller starts its successor on success or cancels the
  successor on failure.
- An **error relay** (`errorDidAdded`) passes an error handler that is set
  on a later node back to every earlier node that has none.

## Modules

- `outcomes.dfy`, module `Outcomes`:
  - `Result` and `State`;
  - the `Result`/`State` factories and what they promise.
- `executors.dfy`, module `Executors`:
  - the classes `Unit` (`Task`) and `Aggregate` (`MutiTask`), with the
    source's fields updated in place;
  - each method is proved against a pure function of the object's value (`View()`).
- `executor_laws.dfy`, module `ExecutorLaws`: the executors' promises as
  lemmas over those functions. These cover start and cancel from `idle` only,
  `end` writing its state unconditionally, the forward-once wrapper, member
  counting and the join.
- `chain.dfy`, module `Chain`:
  - the controller class `Node`;
  - a ghost `Registry` that lists the nodes of one chain family in creation
    order;
  - pure functions of the family's value (`Views()`), against which every
    node method is proved.
- `chain_laws.dfy`, module `ChainLaws`:
  - what `end` does to the successor, and the cancel cascade in closed form;
  - the error relay in closed form;
  - reports, handlers, `next` and the join starting the successor.
  - a chain of three: an error handler set on the last node receives the
    first node's failure, and the failure cancels the rest.
- `prototype.dfy`, module `Prototype`: the `MyGCD` version, with its own
  five-state `State`, its own `Task` and a controller `Gcd`.

How the source's runtime behaviour is represented:

- **Submission and handler calls.** Handing a callable to the queue is the
  event `Submitted(job)`. Invoking a caller's handler is the event
  `Called(handler, result)`. Callables and handlers are identified by
  numbers.
- **The callable.** A callable calling `end(s)` is an explicit environment
  step: `Node.Report` for a unit, and `Node.MemberReport` for a member of a
  group.
- **`endAction` closures.** Every such closure is a value of `EndHook`:
  - `ChainOnce(armed)` is the node's wrapper. It forwards only while armed
    and disarms itself on its first call.
  - `Counted` is the closure that `MutiTask.add` installs on a member.
- **Handler forwarding.** The member handlers that forward to the group's
  own handlers are `ToGroup`.

### Where the code's behaviour needs care

The model follows the code in each of these cases:

- **Terminal states are not final.** `Task.end(s)` writes `s` whatever the
  current state is, and a unit can be ended again. Repeated ends are modelled
  as the code does them. Only the node wrapper prevents the chain from moving
  twice (`ReportForwardsOnce`).
- **The group complete handler runs repeatedly.** It runs once for every
  member that succeeds, through the member's forwarding handler, and once
  more at the join with the composite result (`LastReportJoins`).
- **A group with no members never joins.** Only a member's end runs the join
  check, so a started empty group stays `doing` and its successor never
  starts (`EmptyGroupStalls`).
- **Cancelling a group does not end its node.** `MutiTask.cancel` never calls
  its own `endAction`, so a cancel cascade down the chain stops at a group
  node (`CancelCascade`).
- **`task(c)` on a group node adds a member.** The group controller's
  `addTask` appends a member rather than replacing the executor.
- **The `MutiTask` initializer ignores its handler arguments.** The `complete`
  and `error` parameters of the initializer are never stored. Its `tasks`
  argument is appended without handlers or the counting `endAction`, so a
  group built from it could never join. No caller in the library passes
  that argument, and the model has only the initializer without it
  (`Executors.Aggregate.constructor`).
- **In the prototype the chain never advances.** `MyGCD.end` only drops the
  successor link, and `Task.start` submits nothing.

## Model

| member | source | states |
|---|---|---|
| `Outcomes.OrEmpty` | Demos/SubDemos/AsyncTask/AsyncTask/Code/AsyncTask+extersion.swift:29-31 | `message ?? ""`: a present message is kept verbatim, a missing one becomes "" |
| `Outcomes.Reported` | Demos/SubDemos/AsyncTask/AsyncTask/Code/AsyncTaskProtocol.swift:35-48 | only `complete` and `error` carry a single result, and it is the one they carry |
| `Outcomes.InitializerDefaults` | Demos/SubDemos/AsyncTask/AsyncTask/AsyncTaskProtocol.swift:23-28 | `Result(code)` stores the code, with message "", no data and no sub-results |
| `Outcomes.SuccessIsBare` | Demos/SubDemos/AsyncTask/AsyncTask/Code/AsyncTask+extersion.swift:23-27 | `Result.success` is code 200 with an empty message, no data and no sub-results |
| `Outcomes.MadeMessage` | Demos/SubDemos/AsyncTask/AsyncTask/Code/AsyncTask+extersion.swift:29-31 | `result(c, m, d)` is `Result(c, m, d)` for a present message and `Result(c, "", d)` for a missing one, with no sub-results |
| `Outcomes.CompositeKeepsResults` | Demos/SubDemos/AsyncTask/AsyncTask/Code/AsyncTask+extersion.swift:33-39 | `results(c, m, d, rs)` keeps `rs`; `results(rs)` is code 200, message "", no data |
| `Outcomes.StateFactories` | Codes/Codes/AsyncTask.swift:583-591 | `sucess(d)` is a success carrying `Result(200, "", d)`; `error(c, m, d)` is a failure carrying `Result(c, m ?? "", d)` |
| `Executors.Unit.constructor` | Codes/Codes/AsyncTask.swift:349-368 | a new unit is idle, with no handlers and no `endAction` |
| `Executors.Unit.Start` | Codes/Codes/AsyncTask.swift:370-388 | the unit's new fields are `Started` of the old ones, and what it submits is `StartLog` of them |
| `Executors.Unit.End` | Codes/Codes/AsyncTask.swift:390-412 | the unit's new fields are `Ended(old, s)`; the calls are `EndCalls`; it reports whether the `endAction` reached the owner |
| `Executors.Unit.Cancel` | Codes/Codes/AsyncTask.swift:414-428 | the unit's new fields are `Cancelled(old)`; it reports whether the `endAction` reached the owner |
| `Executors.Aggregate.constructor` | Codes/Codes/AsyncTask.swift:434-456 | a new group has no members, is idle, has no handlers, and its counter is 0 |
| `Executors.Aggregate.Add` | Codes/Codes/AsyncTask.swift:458-500 | an idle group appends the member with forwarding handlers and a counting `endAction`; any other group and the member are left unchanged |
| `Executors.Aggregate.Start` | Codes/Codes/AsyncTask.swift:502-512 | `idle` becomes `doing` (other states kept), every member is started in order, and the submissions are the members' own, in order |
| `Executors.Aggregate.StartMembers` | Codes/Codes/AsyncTask.swift:509-511 | the loop over members leaves member `k` as `Started` of its old value, for every `k` |
| `Executors.Aggregate.End` | Codes/Codes/AsyncTask.swift:514-549 | the join fires only while `doing` with every member counted: `completeAll` of the collected results, the complete handler gets the composite result, and the `endAction` is called |
| `Executors.Aggregate.MemberEnd` | Codes/Codes/AsyncTask.swift:469-499 | member `i`'s `end(s)`: the member's result reaches the group handler, the counter goes up by one, then the join check runs |
| `Executors.Aggregate.Cancel` | Codes/Codes/AsyncTask.swift:551-559 | the group becomes `cancel` whatever its state, every member is cancelled, each idle member is counted, and the group's own `endAction` is not called |
| `Executors.Aggregate.CancelMembers` | Codes/Codes/AsyncTask.swift:556-558 | every member becomes `Cancelled` of its old value, and the count is the number of members whose cancel reached the group |
| `ExecutorLaws.StartActsOnlyFromIdle` | Demos/SubDemos/AsyncTask/AsyncTask/Code/AsyncTask.swift:151-169 | from `idle`: `doing`, submitting the callable exactly once; otherwise nothing changes and nothing is submitted; a second start is a no-op |
| `ExecutorLaws.CancelActsOnlyFromIdle` | Demos/SubDemos/AsyncTask/AsyncTask/Code/AsyncTask.swift:198-212 | from `idle`: `cancel`, reaching the owner exactly when the `endAction` forwards; otherwise unchanged and nothing fires |
| `ExecutorLaws.EndWritesAndDispatches` | Demos/SubDemos/AsyncTask/AsyncTask/Code/AsyncTask.swift:173-195 | state becomes `s` unconditionally; the complete handler is called only for `complete(r)` and the error handler only for `error(r)`, each with `r`; nothing is called otherwise |
| `ExecutorLaws.WrapperForwardsAtMostOnce` | Demos/SubDemos/AsyncTask/AsyncTask/Code/AsyncTask.swift:114-123 | after the node's wrapper is called once it never forwards again, whether by a later end or a cancel |
| `ExecutorLaws.AddKeepsDiscipline` | Demos/SubDemos/AsyncTask/AsyncTask/AsyncTasks.swift:87-128 | `add` appends at the end only while idle, and otherwise leaves the group as it was; the counter stays equal to the number of ended members |
| `ExecutorLaws.StartKeepsDiscipline` | Demos/SubDemos/AsyncTask/AsyncTask/AsyncTasks.swift:131-141 | `start` moves `idle` to `doing` and keeps other states; no member of a started group is idle; the counter invariant is kept |
| `ExecutorLaws.CancelKeepsDiscipline` | Demos/SubDemos/AsyncTask/AsyncTask/AsyncTasks.swift:180-188 | `cancel` sets `cancel` whatever the prior state; every idle member is cancelled and others are untouched; the group's `endAction` is untouched; the counter invariant is kept |
| `ExecutorLaws.CollectAllSettled` | Demos/SubDemos/AsyncTask/AsyncTask/AsyncTasks.swift:153-168 | the collected list has one result per member, in member order, if and only if every member is `complete` or `error` |
| `ExecutorLaws.LastReportJoins` | Demos/SubDemos/AsyncTask/AsyncTask/AsyncTasks.swift:98-177 | a member's report reaches the group handler; the join fires if and only if every other member has ended; it yields `completeAll` of the collected results and the composite result after the member's own |
| `ExecutorLaws.JoinAtMostOnce` | Demos/SubDemos/AsyncTask/AsyncTask/AsyncTasks.swift:143-148 | a group that is not `doing` keeps its state and its `endAction` on any later member report; only the member's own handler runs |
| `ExecutorLaws.EmptyGroupStalls` | Demos/SubDemos/AsyncTask/AsyncTask/AsyncTasks.swift:131-153 | a started group with no members is `doing`, submits nothing, and has no member that could run the join check |
| `Chain.Node.Root` | Codes/Codes/AsyncTask.swift:113-120 | a new plain node without an executor is the only node of a new family |
| `Chain.Node.GroupRoot` | Codes/Codes/AsyncTask.swift:297-307 | a new group node holds an empty group whose `endAction` is the node's wrapper |
| `Chain.Node.Child` | Codes/Codes/AsyncTask.swift:216-230 | `createTask` appends a node to the creator's family that holds a new wired unit and relays to the creator; no existing node changes |
| `Chain.Node.GroupChild` | Codes/Codes/AsyncTask.swift:233-247 | `createMutiTask` appends a group node whose members are the callables, in order, and which relays to the creator |
| `Chain.Node.NewTask` | Codes/Codes/AsyncTask.swift:281-283 | `AsyncTask.task(c)` is a new family whose one node runs a new unit; `c` is submitted once |
| `Chain.Node.NewTasks` | Codes/Codes/AsyncTask.swift:289-291 | `AsyncTask.tasks(cs)` is a new family whose one node runs a started group of `cs` |
| `Chain.Node.Start` | Codes/Codes/AsyncTask.swift:143-146 | only this node's executor is started; the submissions are its own |
| `Chain.Node.End` | Codes/Codes/AsyncTask.swift:180-197 | the family becomes `EndViews`: success starts the successor, failure cancels it (and the cancel ends it in turn), the link is dropped |
| `Chain.Node.CancelExec` | Codes/Codes/AsyncTask.swift:189-191 | `nextTask?.task?.cancel()`: the family becomes `CancelViews`, continuing down the chain while a cancelled unit's wrapper forwards |
| `Chain.Node.Report` | Codes/Codes/AsyncTask.swift:200-209 | the unit ends with `s`, and the wrapper passes `s` to the node's `end` only while armed |
| `Chain.Node.MemberReport` | Codes/Codes/AsyncTask.swift:297-307 | a member ends with `s`; when the join reaches the group node's wrapper, the node ends with the group's new state |
| `Chain.Node.Complete` | Codes/Codes/AsyncTask.swift:163-166 | only this node's complete handler is replaced |
| `Chain.Node.Error` | Codes/Codes/AsyncTask.swift:172-177 | this node takes `h`, then the relay runs (`ErrorViews`) |
| `Chain.Node.Relay` | Codes/Codes/AsyncTask.swift:250-255 | the creator takes `h` through its own `error` when it has no handler, and otherwise only relays (`RelayViews`) |
| `Chain.Node.AddTask` | Codes/Codes/AsyncTask.swift:338-343 | a group node adds a new member; any other node replaces its executor by a new unit with the node's wrapper |
| `Chain.Node.Task` | Codes/Codes/AsyncTask.swift:132-138 | `addTask` followed by `start` on this node only |
| `Chain.Node.AddTasks` | Codes/Codes/AsyncTask.swift:328-336 | a group node adds one member per callable, in order; any other node is unchanged |
| `Chain.Node.Tasks` | Codes/Codes/AsyncTask.swift:313-317 | `addTasks` followed by `start` |
| `Chain.Node.Next` | Codes/Codes/AsyncTask.swift:152-157 | a new, unstarted plain node running `job`, created by this one and relaying to it, is appended to the family, becomes `next` and is the returned node |
| `Chain.Node.Nexts` | Codes/Codes/AsyncTask.swift:270-275 | a new, unstarted group node with one member per callable, created by this one and relaying to it, is appended to the family, becomes `next` and is the returned node |
| `ChainLaws.EndFrame` | Codes/Codes/AsyncTask.swift:180-197 | `end` never touches earlier nodes or the ending node's executor, drops the ending node's link, and keeps every relay |
| `ChainLaws.EndDrivesSuccessor` | Demos/SubDemos/AsyncTask/AsyncTask/Code/AsyncTask.swift:94-111 | on `complete`/`completeAll` the successor starts (and only it changes); on `error`/`cancel` its executor is cancelled; on `idle`/`doing` nothing; the link is nil afterwards in every case |
| `ChainLaws.EndTwiceIsNoop` | Codes/Codes/AsyncTask.swift:196 | a second `end` on a node changes nothing and submits nothing |
| `ChainLaws.CancelCascade` | Codes/Codes/AsyncTask.swift:188-191 | exactly the nodes the cascade reaches are cancelled; it stops at a group, at a unit that was not idle and at a disarmed wrapper |
| `ChainLaws.FailureReachesSecondSuccessor` | Codes/Codes/AsyncTask.swift:414-428 | a failure cancels an idle successor, whose cancel ends it and so cancels the next node as well |
| `ChainLaws.RelayClosedForm` | Demos/SubDemos/AsyncTask/AsyncTask/Code/AsyncTask.swift:222-229 | every ancestor without an error handler receives `h`; every ancestor with one keeps it; no other node changes |
| `ChainLaws.ErrorClosedForm` | Demos/SubDemos/AsyncTask/AsyncTask/Code/AsyncTask.swift:86-91 | `error(h)`: this node takes `h`, each ancestor has `h` if it had no handler and keeps its own otherwise, and every other node is unchanged |
| `ChainLaws.ReportForwardsOnce` | Demos/SubDemos/AsyncTask/AsyncTask/Code/AsyncTask.swift:114-123 | after one report, a second report of the same unit rewrites only that unit; the chain does not move again |
| `ChainLaws.CompleteHandlerReceivesResult` | Demos/SubDemos/AsyncTask/AsyncTask/Code/AsyncTask.swift:77-80 | `complete(h)` changes only this node's complete handler, and a later `complete(r)` invokes `h` with `r` |
| `ChainLaws.TaskRunsNewUnit` | Demos/SubDemos/AsyncTask/AsyncTask/Code/AsyncTask.swift:46-52 | `task(c)` on a plain node installs a new unit, starts it (`doing`, wrapper armed) and submits `c` exactly once; other nodes unchanged |
| `ChainLaws.AddedAllAppends` | Demos/SubDemos/AsyncTask/AsyncTask/AsyncTasks.swift:43-51 | an idle group gains exactly one wired member per callable, in array order; a group that is not idle is unchanged |
| `ChainLaws.NextRunsAfterOutcome` | Demos/SubDemos/AsyncTask/AsyncTask/Code/AsyncTask.swift:66-71 | the node `next(c)` returns starts, submitting `c`, when the current unit completes, and is cancelled when it fails |
| `ChainLaws.FailureReachesLastHandler` | Demos/SubDemos/AsyncTask/AsyncTask/Code/AsyncTask.swift:86-111 | in `a.next(b).next(c)` where only `c` sets an error handler `h` and `a` fails with `r`: the relay put `h` on `a`, `h` is called with `r` exactly once and no other handler runs, and `b` and `c` end up cancelled with every link dropped |
| `ChainLaws.JoinStartsSuccessor` | Demos/SubDemos/AsyncTask/AsyncTask/AsyncTasks.swift:17-21 | when the last running member of a group node reports, the group completes, the successor starts and the link is dropped |
| `Prototype.Factories` | Demos/SubDemos/AsyncTask/AsyncTask/MyGCD.swift:301-321 | `success` is `Result(200, "", nil)`; `result(c, nil, d)` has message ""; `sucess(d)` is `complete(Result(200, "", d))`; `error(c, m, d)` is `error(Result(c, m ?? "", d))` |
| `Prototype.Task.constructor` | Demos/SubDemos/AsyncTask/AsyncTask/MyGCD.swift:163-182 | a new task is idle, with no handlers and no `endAction` |
| `Prototype.Task.Start` | Demos/SubDemos/AsyncTask/AsyncTask/MyGCD.swift:184-202 | the task's new fields are `Started` of the old ones; nothing is submitted |
| `Prototype.Task.End` | Demos/SubDemos/AsyncTask/AsyncTask/MyGCD.swift:204-226 | new fields are `Ended(old, s)`, the calls are `EndCalls`, and it reports whether the `endAction` forwarded |
| `Prototype.Task.Cancel` | Demos/SubDemos/AsyncTask/AsyncTask/MyGCD.swift:228-242 | new fields are `Cancelled(old)`, and it reports whether the `endAction` forwarded |
| `Prototype.TaskLaws` | Demos/SubDemos/AsyncTask/AsyncTask/MyGCD.swift:184-242 | start and cancel act only from `idle`; `end(s)` writes `s` and calls only the matching handler with its result; the wrapper forwards at most once |
| `Prototype.Gcd.Root` | Demos/SubDemos/AsyncTask/AsyncTask/MyGCD.swift:66-73 | a new controller has no task, no successor and no relay |
| `Prototype.Gcd.Child` | Demos/SubDemos/AsyncTask/AsyncTask/MyGCD.swift:258-272 | `createTask` gives a node holding a new wired task that relays to its creator |
| `Prototype.Gcd.Start` | Demos/SubDemos/AsyncTask/AsyncTask/MyGCD.swift:95-98 | `task?.start()` |
| `Prototype.Gcd.Task` | Demos/SubDemos/AsyncTask/AsyncTask/MyGCD.swift:84-90 | the new task replaces the old one and is `doing` with its wrapper armed |
| `Prototype.Gcd.NewTask` | Demos/SubDemos/AsyncTask/AsyncTask/MyGCD.swift:296-298 | `MyGCD.task(c)` is a fresh root whose task is running |
| `Prototype.Gcd.Next` | Demos/SubDemos/AsyncTask/AsyncTask/MyGCD.swift:104-109 | a new unstarted node created by this one becomes its successor and is returned |
| `Prototype.Gcd.Complete` | Demos/SubDemos/AsyncTask/AsyncTask/MyGCD.swift:115-118 | only the complete handler of this node's task is replaced |
| `Prototype.Gcd.End` | Demos/SubDemos/AsyncTask/AsyncTask/MyGCD.swift:132-145 | in every state only the successor link is dropped; the successor is neither started nor cancelled |
| `Prototype.Gcd.Report` | Demos/SubDemos/AsyncTask/AsyncTask/MyGCD.swift:148-157 | the task ends with `s`; the wrapper drops the link the first time; nothing else changes |
| `Prototype.Gcd.Error` | Demos/SubDemos/AsyncTask/AsyncTask/MyGCD.swift:124-129 | this node takes `h`; each node the relay reaches has `h` if it had no handler and keeps its own otherwise; only those nodes' tasks change |
| `Prototype.Gcd.Relay` | Demos/SubDemos/AsyncTask/AsyncTask/MyGCD.swift:275-280 | the relay leaves this node alone and installs `h` on every later-reached node without a handler |

The split copy has the same logic at these lines:

- `Code/AsyncTask.swift`:
  - the controller, 46-123;
  - `Task`, 129-212;
  - `createTask`/`createMutiTask`/`transmitError`, 220-259;
  - `nexts`/`task`/`tasks`, 274-295.
- `AsyncTasks.swift`:
  - the `AsyncTasks` controller, 12-58;
  - `MutiTask`, 63-188.
- The factories are in `Code/AsyncTask+extersion.swift`, 22-50.
- `Result` and `State` are in both `AsyncTaskProtocol.swift` files, 13-48.

## Left out

- **Concurrency.** The concurrent queue, the `pthread` locks and every
  interleaving are out, including the unlocked `completeAll` write. Each
  method is one atomic sequential step. Submission is recorded as an event,
  and the callable runs only when `Report`/`MemberReport` is called.
- **Memory management.** `weak self` captures, deallocation and the `gcd =
  nil` cycle breaking are out. The model keeps only the observable
  "forwards at most once". A relay whose creator was deallocated would stop
  early in the source; in the model every creator stays alive.
- **Replaced units.** `task(c)` on a plain node replaces its unit by a new
  one, and the model discards the old unit. In the source, once the old
  unit's callable has started running, the callable holds the unit, its
  wrapper is still armed, and a late report from it still ends the node
  (starting or cancelling the successor). A unit replaced before its
  callable runs is released, and its callable then never runs (see the
  memory management line above). The model has no step for a report from
  a replaced unit.
- **Identity.** The debug `count`/`tag` counters and `print` logging are out.
- **Type erasure.** `Result.data: Any?` is a type parameter `D`, and nothing
  casts it.
- **Closures as values.** Caller closures are numbers. Their invocations are
  `Called` events and their bodies are not modelled.
- **Other files.** `Demo.swift` (it only prints) and `ViewProtocol.swift` (an
  unrelated view protocol) are not part of this model.
- **Executor identity.** A `Chain.Node` keeps the value of its executor
  (`ExecView`) rather than a reference to a `Unit` or `Aggregate` object.
  In-place updates and aliasing of executor objects are captured in module
  `Executors`, whose classes are proved to implement the same value
  functions the chain uses. The same holds for `Prototype.Gcd` and
  `Prototype.Task`.
- **Unowned executors.** `Executors.Aggregate.Add` requires the member not to
  be in the group already. The source always adds a freshly created `Task`,
  so this always holds.
- **Missing callables.** `Chain.Node.Report` requires the node to hold a
  unit, and `Chain.Node.MemberReport` requires member `i` to exist: only an
  existing callable can report.
- Prototype.Gcd.Error: the clause about the nodes the relay reaches speaks
  only of nodes that were allocated before the call. Every such node is,
  since the relay follows constant creator links, but the contract does not
  state this.
- Prototype.Gcd.Relay: the same restriction to nodes allocated before the
  call.
