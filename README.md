# can-observation, modelled in Dafny

can-observation is the dependency-tracking engine of CanJS. An *observation*
wraps a function; while the function runs, every observable it reads is
recorded on a stack of capture frames; afterwards the observation subscribes
to exactly what was read and unsubscribes from what is no longer read. When a
dependency changes, the observation is queued and recomputed, and its own
listeners are told. Changes are grouped into numbered *batches*, and queued
observations are recomputed in depth order, so that an observation is
recomputed after the observations it reads.

This project models that engine in its three generations, together with the
key-path reader that turns `"@foo.bar"` into read segments:

| module | file | models |
|---|---|---|
| `Common` | common.dfy | ids, values, the `Infinity`-or-number cursor `Depth`, `Option`, `Outcome` |
| `Subscriptions` | subscriptions.dfy | the event emitter as a multiset of live `(handler, observable, key)` subscriptions |
| `ObservationStack` | observation_stack.dfy | `observation-stack.js`: the recorder stack, `observe`, `observeMany`, `ignore`, `trap`, `trapsCount`, `isObserving` |
| `DependencyHelpers` | dependency_helpers.dfy | `recorder-dependency-helpers.js` (and the same text in `observation-stack.js`): `updateObservations`, `stopObserving` and the edge helpers |
| `CanObservation` | can_observation.dfy | `can-observation.js`: the `Observation` class, its value-dependency queries and `updateChildrenAndSelf` |
| `Batch` | batch.dfy | `canBatch` in `dist/global/can-observation.js`: `start`, `stop`, `trigger`, `afterPreviousEvents`, `after` |
| `UpdateOrder` | update_order.dfy | the depth-ordered table of `dist/global/can-observation.js`: `registerUpdate`, `updateUntil`, `batchEnd` |
| `DistObservation` | dist_observation.dfy | the `Observation` of `dist/global/can-observation.js` (depth cache, edges, `updateBindings`, `start`, `stop`, `dependencyChange`, `get`) and its recorder statics `add`, `addAll`, `ignore`, `trap`, `trapsCount`, `isRecording` |
| `AmdScheduler` | amd_scheduler.dfy | the two-phase table of `dist/amd/can-observation.js`: `registerUpdate`, `updateAndNotify`, `afterUpdateAndNotify` and the static `Observation.update` |
| `AmdObservation` | amd_observation.dfy | the `Observation` of `dist/amd/can-observation.js` where it differs from `dist/global`: `needsUpdate`, `update`, `notify`, `dependencyChange`, `get` |
| `Reader` | reader.dfy | `reader/reader.js`: `reads`, `isAt` and the early exit of `read` |

Where the same text appears in several files it is modelled once:

- The `updateObservations`, `stopObserving` and edge helpers at the end of
  `observation-stack.js` are the same text as `recorder-dependency-helpers.js`
  and are modelled by `DependencyHelpers`.
- The recorder statics of `dist/amd/can-observation.js` (`add`, `addAll`,
  `ignore`, `trap`, `trapsCount`, `isRecording`, lines 226-300) are the same
  text as those of `dist/global/can-observation.js` and are modelled by
  `DistObservation.Recorder`.
- `ObservedInfo` in `dist/amd/can-observe-info.js` is the same text as the
  `Observation` of `dist/global/can-observation.js` under other names:
  `getValueAndBind` is `start`, `teardown` is `stop`, `observe` is `add`,
  `observes` is `addAll`, `notObserve` is `ignore`; its `getDepth`,
  `addEdge`, `removeEdge`, `dependencyChange`, `updateBindings`, `trap`,
  `trapsCount` and `isRecording` are modelled by `DistObservation`, and its
  `registerUpdate` and `batchEnd` by `UpdateOrder` (which also has the
  `currentBatchNum` and `updateUntil` that `ObservedInfo` lacks).
- The `updateBindings`, `stop`, `getDepth`, `addEdge` and `removeEdge` of
  the `dist/amd` `Observation` are the same text as in `dist/global` and
  are modelled by `DistObservation`. Its `start`
  (`dist/amd/can-observation.js:94-103`) is `dist/global`'s without
  `this.ready = false` and `canBatch.afterPreviousEvents(this.setReady)`
  (`dist/global/can-observation.js:746`, `751`): AMD observations have no
  `ready` gate. `AmdObservation` takes `start` by its effect on `bound` and
  `value`.

Side effects that leave the engine — event dispatch, handler calls,
`update`/`notify` calls made by a drain, after-callbacks — are appended to a
log (a `seq` of effects), so that contracts can state their order. The user
function an observation wraps is a parameter: an evaluation that yields a
value and the list of reads it made. A drain's re-entrant registrations are a
*script* parameter: what the k-th `update` or `notify` registers in turn.

## Model

| member | source | states |
|---|---|---|
| Reader.Reads | reader/reader.js:249-281 | the loop's list of `{key, at}` segments is the reference split `Tokenize(key)`: pieces between unescaped separators, with escapes undone |
| Reader.TokenizeShape | reader/reader.js:253-278 | there is one segment more than unescaped separators; the first is an `at` segment iff the key starts with `@`; every later one iff the separator before it is `@` |
| Reader.PiecesCount | reader/reader.js:258-278 | the same shape for the split of any suffix of the key |
| Reader.UnescapePlain | reader/reader.js:271-273 | a stretch without backslashes is copied into the segment unchanged |
| Reader.UnescapeEscaped | reader/reader.js:268-270 | a backslash followed by a separator turns into a single "." |
| Reader.TokenizeLeadingAt | reader/reader_test.js:39-40 | `reads("@foo")` is `[{foo, at}]` |
| Reader.TokenizeDotted | reader/reader_test.js:42-43 | `reads("@foo.bar")` is `[{foo, at}, {bar, not at}]` |
| Reader.TokenizeEscapedDot | reader/reader_test.js:45-46 | `reads("@foo\\.bar")` is `[{"foo.bar", at}]` |
| Reader.TokenizeInnerAt | reader/reader_test.js:48-49 | `reads("foo.bar@zed")` is `[{foo}, {bar}, {zed, at}]` |
| Reader.IsAtTokenize | reader/reader.js:9-12 | `isAt(1, reads(key))` iff the key starts with `@`; `isAt(k + 2, reads(key))` iff the k-th unescaped separator is `@`; index 0 and indexes past the end are never `@` reads |
| Reader.FirstStop | reader/reader.js:104 | the first step from `i` on whose value is `null` or a primitive (not object or function), or the path length when there is none |
| Reader.Read | reader/reader.js:59-126 | when some non-final step yields `null` or a primitive, the result is `{undefined, prev}` at the first such step; otherwise it is the value after every read and the value it was read from (`undefined` for an empty path) |
| ObservationStack.Frame.constructor | observation-stack.js:37-44 | a new recorder has no trap list, an empty key map, an empty value set and an ignore counter of 0 |
| ObservationStack.Recorder.Start | observation-stack.js:46-53 | pushes one fresh frame (no trap, nothing recorded, ignore 0) and keeps the frames below it |
| ObservationStack.Recorder.Stop | observation-stack.js:54-56 | pops and returns the frame the last `start` pushed, so `start; stop` leaves the stack as it was; on an empty stack returns nothing and changes nothing |
| ObservationStack.Recorder.Observe | observation-stack.js:77-97 | the top frame's view becomes `Observed(old view, read)`: dropped with no frame or a raised ignore counter, appended to the trap list when a trap is active, recorded otherwise; no other frame changes |
| ObservationStack.ObservedKeeps | observation-stack.js:77-97 | an `observe` with no recording frame changes nothing; with a trap it appends exactly `[obj, event]` and leaves the dependencies alone; without one the dependencies grow by exactly that read's dependency |
| ObservationStack.RecordDeps | observation-stack.js:85-94 | recording a read adds exactly its dependency: `obj` to the value set for a value read, `event` to `obj`'s key set (created when missing) for a key read |
| ObservationStack.RecordIdempotent | observation-stack.js:85-94 | recording the same read twice is the same as recording it once (set semantics) |
| ObservationStack.RecordCommutes | observation-stack.js:85-94 | the order of two recorded reads does not matter |
| ObservationStack.ObservedIdempotent | observation-stack.js:77-97 | without a trap, observing the same read twice changes the frame as once |
| ObservationStack.Recorder.ObserveMany | observation-stack.js:117-128 | with a trap the whole list is appended in order, whatever the ignore counter says; otherwise each read is observed in turn; nothing happens on an empty stack |
| ObservationStack.RecordAllDeps | observation-stack.js:123-125 | reads observed one after another add exactly the union of their dependencies |
| ObservationStack.Recorder.ObserveEach | can-observation.js:102 | the reads a function makes under the top frame reach it one `observe` at a time, in order; the stack is unchanged |
| ObservationStack.ObservedEachIsMany | observation-stack.js:77-97 | reads observed one by one leave a non-observing frame as it was and otherwise end as one `observeMany` of them would |
| ObservationStack.Recorder.ObserveManyAsWritten | can-observation.js:231 | `Observation.addAll` throws a `TypeError` exactly when the top frame has no trap and the list is non-empty, before recording anything; otherwise it acts as `observeMany` |
| ObservationStack.AddAllOutsideTrap | observation-stack.js:117-128 | on a frame without a trap `Observation.addAll([r])` throws as written, while `observeMany` records `r` |
| ObservationStack.ObservedManyDeps | observation-stack.js:117-128 | `observeMany` on a recording frame without a trap records exactly the union of its reads' dependencies and installs no trap |
| ObservationStack.Recorder.RunIgnored | observation-stack.js:152-164 | running the function `ignore` returns leaves every frame as it was: the counter goes back to its prior value and none of the reads made in between is recorded or trapped |
| ObservationStack.Recorder.Trap | observation-stack.js:184-196 | on a non-empty stack installs a fresh empty trap list on the top frame and returns an untrap that remembers the frame and its previous list; on an empty stack the untrap has nothing to restore |
| ObservationStack.TrapList.constructor | observation-stack.js:188 | a fresh trap list is empty |
| ObservationStack.Untrap | observation-stack.js:189-194 | untrap puts the previous trap list back, returns the reads captured in read order, and leaves the counter and the dependencies alone; with no frame it returns `[]` |
| ObservationStack.NestedTraps | can-observation_test.js:16-45 | an inner trap's reads handed to the outer trap with `observeMany` come after the outer trap's own read: the outer list is `[r1, r2]`, the inner `[r2]` |
| ObservationStack.InnerTrap | can-observation_test.js:28-31 | trap, read, untrap inside an outer trap returns that one read and restores the outer trap list |
| ObservationStack.Recorder.TrapsCountAsWritten | observation-stack.js:207-214 | 0 on an empty stack, the trap list's length when a trap is active, and a `TypeError` exactly when the top frame has no trap list |
| ObservationStack.Recorder.TrapsCount | observation-stack.js:207-214 | the corrected count: the number of trapped reads, and 0 whenever nothing is trapping |
| ObservationStack.TrapsCountOutsideTrap | observation-stack.js:207-214 | on a frame without a trap the code as written throws where the corrected count gives 0 |
| ObservationStack.Recorder.IsObserving | observation-stack.js:224-228 | returns a frame exactly when the stack is non-empty and the top frame's ignore counter is 0, and then it is the top frame |
| DependencyHelpers.RemoveEdges | recorder-dependency-helpers.js:4-9 | unbinds the handler from `(obj, event)` once for each event of the set and changes no other binding |
| DependencyHelpers.AddEdges | recorder-dependency-helpers.js:10-22 | binds exactly the events the old recorder does not hold for `obj` (all of them when it has no set for `obj`), and deletes the shared events from the old set instead; the old value set, trap and counter are untouched |
| DependencyHelpers.AddValueDependencies | recorder-dependency-helpers.js:23-27 | binds exactly the value dependencies the old recorder does not hold, and deletes the shared ones from the old value set instead |
| DependencyHelpers.RemoveValueDependencies | recorder-dependency-helpers.js:28-30 | unbinds the handler from the value of each observable of the set |
| DependencyHelpers.AddKeyDependencies | recorder-dependency-helpers.js:38 | the `addEdges` pass over the new key map binds each new-only key pair once, and leaves the old key map without every key the new one holds |
| DependencyHelpers.RemoveKeyDependencies | recorder-dependency-helpers.js:39 | the `removeEdges` pass unbinds every key pair the map holds |
| DependencyHelpers.KeysMinusPairs | recorder-dependency-helpers.js:38-39 | because the add pass runs first, what the remove pass walks is exactly the old-only key pairs |
| DependencyHelpers.UpdateTotal | recorder-dependency-helpers.js:37-42 | the four passes add up to: bind new-minus-old, unbind old-minus-new, for key and value dependencies together |
| DependencyHelpers.UpdateObservations | recorder-dependency-helpers.js:37-42 | binds the handler once to each dependency only the new recorder holds and unbinds it from each dependency only the old one held; shared ones are neither bound nor unbound; the old recorder is left holding the old-only dependencies |
| DependencyHelpers.UpdateObservationsExact | recorder-dependency-helpers.js:37-42 | if the handler was bound exactly once to each old dependency, afterwards it is bound exactly once to each new dependency and to nothing else, and no other handler's bindings change |
| Subscriptions.SubsMove | observation-stack.js:231-236 | the same diff theorem on the emitter's multiset, for the copy of `updateObservations` in observation-stack.js |
| DependencyHelpers.StopObserving | recorder-dependency-helpers.js:43-46 | unbinds the handler from every key pair and every value dependency the recorder holds |
| DependencyHelpers.StopObservingExact | recorder-dependency-helpers.js:43-46 | a handler bound exactly to a recorder's dependencies is bound to nothing after `stopObserving` |
| CanObservation.OptionsOrDefault | can-observation.js:33 | the options given are kept; without options the priority is 0 and the observation is observable |
| CanObservation.Observation.constructor | can-observation.js:30-65 | a new observation is unbound, has no handlers and no old recorder, its new recorder is empty, and its options default as above |
| CanObservation.Evaluate | can-observation.js:150-155 | calling the function inside a pushed and popped frame records each of its reads there and leaves the recorder stack as it was |
| CanObservation.Observation.Start | can-observation.js:145-158 | binds, caches the function's value, keeps the previous new recorder as the old one, installs a fresh recorder holding exactly the function's reads, moves the bindings from the old dependencies to the new ones, and leaves the recorder stack depth as it was |
| CanObservation.Observation.Stop | can-observation.js:169-174 | unbinds, drops every binding of the handler to the current dependencies, and starts over with an empty recorder; the cached value is kept |
| CanObservation.Observation.DependencyChange | can-observation.js:112-119 | queues one `update` task with the observation's priority on the derive queue exactly when bound; otherwise nothing changes |
| CanObservation.Observation.Update | can-observation.js:121-134 | returns true exactly when bound and the new value is not the old one (`!==`), and then queues the handlers with `[newValue, oldValue]`; while bound the value is recomputed through `start`; unbound it changes nothing |
| CanObservation.QueueOrMutate | can-observation.js:179 | a listener's queue is the given queue name, or `"mutate"` when none (or an empty one) is given |
| CanObservation.Observation.OnValue | can-observation.js:178-180 | adds one listener; the first listener starts the observation (KeyTree's `onFirst`), later ones change nothing else |
| CanObservation.Observation.OffValue | can-observation.js:181-183 | removes one listener; removing the last one stops the observation (KeyTree's `onEmpty`), otherwise nothing else changes |
| CanObservation.Observation.Get | can-observation.js:70-104 | when observable and something records, the recording frame gets a whole-value read of this observation (recorded, trapped or dropped as `observe` decides) and, if unbound, the observation binds temporarily (a `noop` listener on "mutate", and its id appended to the temporary list); otherwise the handlers and the temporary list are unchanged. A bound observation then returns its cached value, or the recomputed one when its own update was waiting on the derive queue: that task is taken off the queue, the value becomes the result, the handlers are queued with `[new, old]` exactly when the value changed, and the new recorder holds the evaluation's reads. An observation that stays unbound returns a fresh evaluation, whose reads all reach the caller's frame one `observe` each, and keeps its value. The recorder, the subscriptions and the notifications are unchanged when no `start` runs. The recording frame is never the observation's own recorder, since that becomes `newDependencies` only after it is popped |
| CanObservation.TemporarilyBind | can-observation.js:252-260 | listens with `noop` on the `"mutate"` queue (starting the observation when it had no listener) and appends it to the list of temporarily bound observations, creating the list on first use |
| CanObservation.Dequeue | can-observation.js:211 | `flushQueuedTask` takes one queued task of the observation off the queue and no other; with none queued the queue is unchanged |
| CanObservation.Observation.ValueHasDependenciesAsWritten | can-observation.js:188-190 | `undefined` exactly when unbound, and `true` for every bound observation, because a recorder object always has its four own properties |
| CanObservation.Observation.ValueHasDependencies | can-observation.js:188-190 | the corrected query: `undefined` exactly when unbound, otherwise whether the recorder holds some key or value dependency |
| CanObservation.ValueHasDependenciesWithoutReads | can-observation.js:188-190 | a bound observation whose function reads nothing: the code as written answers true, the corrected query false |
| CanObservation.Observation.GetValueDependencies | can-observation.js:191-196 | the current recorder while bound, `undefined` otherwise |
| CanObservation.UpdateChildrenAndSelf | can-observation.js:207-227 | an observation whose update is queued has it flushed and returns true; otherwise the result is whether some value dependency, visited in turn, flushed something; only queued derived observations leave the queue; an unbound observation with nothing queued throws when its dependencies are read; a plain observable returns false |
| CanObservation.UpdateChildren | can-observation.js:216-223 | the `forEach` over the value dependencies returns true exactly when it started true or some child flushed an update |
| CanObservation.AllBoundNeverThrows | can-observation.js:215-217 | over an acyclic dependency graph whose observations are all bound, `updateChildrenAndSelf` never throws |
| Batch.CanBatch.constructor | dist/global/can-observation.js:535 | the module starts with `batchNum` 1, no transaction, no batch queued, collecting or dispatching, and no drain running |
| Batch.CanBatch.Start | dist/global/can-observation.js:537-551 | counts one more transaction; only the 0→1 transition queues a new empty batch numbered `batchNum++` (holding the stop handler as its first callback, if given) and makes it the collecting batch, so batch numbers strictly increase |
| Batch.CanBatch.Stop | dist/global/can-observation.js:552-585 | ends one transaction (all of them when forced); while some remain nothing else changes; at zero the collecting batch is closed and, unless a drain is already running, every queued batch is dispatched first-in first-out and the queue is left empty |
| Batch.CanBatch.Drain | dist/global/can-observation.js:562-582 | the drain logs exactly the queued batches' effects in queue order; with `callStart` the first re-entered `start` opens one more empty batch that the same drain dispatches last, and `transactions` ends one above the number of batches dispatched before it |
| Batch.CanBatch.DispatchNext | dist/global/can-observation.js:563-580 | one round shifts the first queued batch off, re-enters `start` when asked, logs that batch's effects, and clears `dispatchingBatch` and `canBatch.batchNum` |
| Batch.CanBatch.Shift | dist/global/can-observation.js:563-567 | `batches.shift()`: the first queued record becomes the dispatching batch and `canBatch.batchNum` is its number |
| Batch.CanBatch.Reenter | dist/global/can-observation.js:569-571 | a `start` from inside the drain queues an empty batch behind the others exactly when no transaction was open |
| Batch.CanBatch.DispatchBatch | dist/global/can-observation.js:572-578 | one batch logs its events in queue order, then the `_onDispatchedEvents` hook with its number, then its callbacks in registration order |
| Batch.Dispatches | dist/global/can-observation.js:572-574 | one dispatch per queued event: the i-th effect dispatches the i-th event to its target |
| Batch.Calls | dist/global/can-observation.js:576-578 | one call per callback: the i-th effect calls the i-th callback |
| Batch.DispatchEvents | dist/global/can-observation.js:572-574 | dispatching the queued events in turn logs one dispatch per event, in order |
| Batch.RunCallbacks | dist/global/can-observation.js:576-578 | calling the callbacks in turn logs one call per callback, in order |
| Batch.DrainReportsInQueueOrder | dist/global/can-observation.js:563-581 | draining a list of batches reports the batch numbers to `_onDispatchedEvents` in queue order |
| Batch.QueueNumbersIncrease | dist/global/can-observation.js:539-545 | the queue `start` builds holds its batches in increasing number order, so a drain reports strictly increasing batch numbers |
| Batch.DrainLogAppend | dist/global/can-observation.js:563-581 | draining two lists of batches one after the other logs what draining their concatenation logs |
| Batch.CanBatch.Trigger | dist/global/can-observation.js:588-618 | ignored on an item in setup; while a batch collects, the event is stamped with that batch's number and queued; an event already stamped, or one triggered with no batch queued, is dispatched at once; otherwise it goes into a batch of its own behind the queued ones |
| Batch.CanBatch.Collect | dist/global/can-observation.js:592-600 | the collecting batch gains exactly this event, stamped with its number, at the end of its events |
| Batch.CanBatch.TriggerAlone | dist/global/can-observation.js:603-613 | the event's own batch is opened, stamped and closed around it; during a drain it waits at the end of the queue, outside one it is drained at once; reading `collectingBatch.number` throws exactly when an unbalanced `stop` left `transactions` off zero so that `start` opened no batch |
| Batch.CanBatch.AfterPreviousEvents | dist/global/can-observation.js:619-634 | with a batch queued, a "ready" event that calls the handler is appended to the last batch's events; with none, the handler is called at once |
| Batch.CanBatch.After | dist/global/can-observation.js:635-642 | the handler becomes the last callback of the collecting batch, else of the batch being dispatched; with neither it is called at once |
| Common.Depth.MinWith | dist/global/can-observation.js:787 | `Math.min(d, cursor)` with an `Infinity` cursor: always finite, never above either operand, and one of them |
| UpdateOrder.Scheduler.constructor | dist/global/can-observation.js:783 | the table starts empty with `curPrimaryDepth = Infinity`, `maxPrimaryDepth = 0` and no batch number, which satisfies the covering invariant |
| UpdateOrder.Scheduler.Register | dist/global/can-observation.js:784-798 | pushes the observation onto cell `(primaryDepth, depth)` (creating the row `{current: Infinity, max: 0}` and the stack when missing), lowers `curPrimaryDepth` and the row's `current` and raises `maxPrimaryDepth` and the row's `max` to cover that cell, queues exactly one more observation, and keeps every non-empty cell inside the cursors |
| UpdateOrder.RegisterCovers | dist/global/can-observation.js:787-797 | the widened cursors cover the new cell and every cell they covered before |
| UpdateOrder.Scheduler.RegisterAll | dist/global/can-observation.js:784-798 | registering a list queues exactly its observations, with multiplicity, and keeps the cursors covering |
| UpdateOrder.CursorIsLowest | dist/global/can-observation.js:802-806 | while every non-empty cell is inside the cursors, the cell both cursors stand on, when non-empty, is the lowest non-empty cell (primary depth first, then depth): the cursor never skips a non-empty cell |
| UpdateOrder.PastTheEndIsEmpty | dist/global/can-observation.js:817-818 | once `curPrimaryDepth` is past `maxPrimaryDepth`, every cell is empty |
| UpdateOrder.RowAdvanceCovered | dist/global/can-observation.js:811-813 | moving a row's `current` past an empty cell keeps every non-empty cell covered |
| UpdateOrder.PrimaryAdvanceCovered | dist/global/can-observation.js:814-816 | moving `curPrimaryDepth` past an exhausted row keeps every non-empty cell covered |
| UpdateOrder.Scheduler.Step | dist/global/can-observation.js:802-816 | one turn of the loop either pops the last observation of the lowest non-empty cell (LIFO within it), changing nothing else, or advances one cursor and strictly decreases the distance left to the end |
| UpdateOrder.ContentsPush | dist/global/can-observation.js:795 | a push queues exactly the pushed observation more |
| UpdateOrder.ContentsPop | dist/global/can-observation.js:806 | a pop takes exactly the popped observation off what is queued |
| UpdateOrder.Scheduler.Update | dist/global/can-observation.js:807 | `updateCompute` on the popped observation is logged with the batch number, and the registrations its compute makes are queued, keeping the drain's books balanced |
| UpdateOrder.Scheduler.Turn | dist/global/can-observation.js:801-816 | a turn either pops and updates one observation, strictly reducing what is left (queued observations plus registrations still to come), or moves a cursor |
| UpdateOrder.Scheduler.UpdateUntil | dist/global/can-observation.js:799-821 | updates in depth order until the target itself has been updated or the table is exhausted; the target is updated at most once, and last; every update is accounted for |
| UpdateOrder.Scheduler.DrainAll | dist/global/can-observation.js:825-838 | the loop updates every observation queued at the start plus every one the updates register, each as often as it was queued, all with the batch's number |
| UpdateOrder.Scheduler.BatchEnd | dist/global/can-observation.js:822-845 | records the batch number, drains the whole table as above, then resets it to `[]`, `Infinity` and `0` |
| UpdateOrder.Scheduler.Reset | dist/global/can-observation.js:839-841 | the reset leaves an empty table with `curPrimaryDepth = Infinity` and `maxPrimaryDepth = 0` |
| UpdateOrder.Settled | dist/global/can-observation.js:838-843 | when the cursors have run past the end nothing is queued, so a balanced drain is finished |
| UpdateOrder.PopBalances | dist/global/can-observation.js:806 | popping moves one observation from queued to held and strictly shrinks what is queued |
| UpdateOrder.UpdateBalances | dist/global/can-observation.js:807 | updating the held observation logs it and queues its reactions, keeping the books balanced |
| UpdateOrder.UpdateKeepsWeight | dist/global/can-observation.js:807 | the registrations an update queues are exactly those the script no longer holds |
| UpdateOrder.Extend | dist/global/can-observation.js:807-810 | one more update keeps track of whether the target has been updated yet, and is the last one when it is the target |
| DistObservation.Observation.constructor | dist/global/can-observation.js:652-665 | a new observation has no edges, no old edges, no cached depth, no child depths, ignore 0, no trap, and is neither bound nor ready |
| DistObservation.Observation.ComputeDepth | dist/global/can-observation.js:692-700 | `_getDepth()` is one more than the largest child depth (1 with no child), so at least 1 |
| DistObservation.DepthUnique | dist/global/can-observation.js:692-700 | a set of child depths has one depth only |
| DistObservation.Observation.GetDepth | dist/global/can-observation.js:685-691 | returns the cached depth when there is one, otherwise computes `1 + max(childDepths)` and caches it; a cache that was right stays right |
| DistObservation.Observation.AddEdge | dist/global/can-observation.js:701-707 | binds once to the edge; for an observation-backed object it records that object's depth as a child depth and drops the cached depth, otherwise neither changes |
| DistObservation.Observation.RemoveEdge | dist/global/can-observation.js:708-714 | unbinds once from the edge; for an observation-backed object it drops the cached depth and deletes the child depth (in the corrected model only when no other edge still reads the object) |
| DistObservation.Observation.UpdateBindings | dist/global/can-observation.js:753-769 | binds the edges only `newObserved` holds, unbinds the ones only `oldObserved` holds, leaves the shared ones bound and cleared from `oldObserved`; child depths follow the edges (corrected deletion) |
| DistObservation.Observation.BindNew | dist/global/can-observation.js:755-762 | the first loop binds each new edge the old set lacks and clears the others from the old set |
| DistObservation.Observation.Unbind | dist/global/can-observation.js:763-768 | `removeEdge` on each stale edge takes exactly their subscriptions away and deletes the child depths of their observation-backed objects not read elsewhere |
| DistObservation.SwapComposes | dist/global/can-observation.js:753-769 | binding the new-only edges and then unbinding the old-only ones swaps the subscriptions to the old edges for subscriptions to the new ones |
| DistObservation.BindingsExact | dist/global/can-observation.js:753-769 | an observation bound once to each old edge is, after the swap, bound once to each new edge and to nothing else, and no other handler's bindings change |
| DistObservation.Observation.Stop | dist/global/can-observation.js:774-781 | unbinds every edge, deletes every observation-backed child depth, forgets the edges and becomes unbound |
| DistObservation.StopExact | dist/global/can-observation.js:774-781 | after `stop` the observation is bound to nothing |
| DistObservation.Observation.Start | dist/global/can-observation.js:741-752 | binds, resets `ignore`, moves the edges to `oldObserved`, runs the compute with this observation on top of the stack (its reads become the new edges, or go to an installed trap), stores its value, leaves the stack as it was, swaps the bindings, and is ready only if `afterPreviousEvents` called back at once |
| DistObservation.Observation.Prepare | dist/global/can-observation.js:742-746 | `start`'s opening assignments: bound, the edges moved to `oldObserved`, ignore 0, no edges, not ready |
| DistObservation.Observation.Compute | dist/global/can-observation.js:747-749 | the compute's reads, made with this observation pushed, become its edges (or its trap list grows by them) and the stack is popped back |
| DistObservation.Observation.UpdateCompute | dist/global/can-observation.js:730-736 | unbound it changes nothing; bound it recomputes as `start` does and hands `(newValue, oldValue, batchNum)` to the updater |
| DistObservation.Observation.DependencyChange | dist/global/can-observation.js:715-726 | ignored unless bound and ready; an event with a batch number registers the observation exactly when that number differs from the last one: the observation is pushed onto cell `(primaryDepth, getDepth() - 1)` and the batch number is remembered; an event without one recomputes at once; otherwise the table is untouched |
| DistObservation.Observation.RegisterUpdate | dist/global/can-observation.js:719-720 | pushes this observation onto cell `(primaryDepth, getDepth() - 1)`, creating the row and cell when missing; lowers `curPrimaryDepth` and the row's `current`, raises `maxPrimaryDepth` and the row's `max`; queues exactly one more observation; remembers the batch number; touches nothing else in the scheduler |
| DistObservation.Observation.Get | dist/global/can-observation.js:668-678 | unbound returns the cold value, and the cold run's reads reach the recording observation as `add` puts them (trapped, recorded once, or dropped); bound leaves the recording observation's edges and traps as they were and returns the cached value, first running `updateUntil(this)` exactly when the recording observation is no deeper than this one, which updates this observation at most once and last |
| DistObservation.Recorder.constructor | dist/global/can-observation.js:666 | the observation stack starts empty |
| DistObservation.Recorder.Push | dist/global/can-observation.js:747 | pushes the observation on top |
| DistObservation.Recorder.Pop | dist/global/can-observation.js:749 | pops the top observation |
| DistObservation.Recorder.Add | dist/global/can-observation.js:846-863 | `add` on the top observation: dropped with none or a raised `ignore`, appended as `{obj, event}` to an installed trap list, else recorded once under the name `cid\|event` |
| DistObservation.AddedIdempotent | dist/global/can-observation.js:856-861 | without a trap, adding the same edge twice records it once |
| DistObservation.Recorder.AddEach | dist/global/can-observation.js:748 | a compute's reads, each through `add`, in order |
| DistObservation.AddedEachKeeps | dist/global/can-observation.js:846-863 | reads made while the top observation records land in its trap list in order when a trap is active and among its edges otherwise; with no recording observation they change nothing |
| DistObservation.Recorder.AddAll | dist/global/can-observation.js:864-878 | `addAll` appends the whole list to an installed trap, else records each edge once by name |
| DistObservation.AddedAllIsEachAdded | dist/global/can-observation.js:864-878 | while the top observation records, `addAll` does what `add` on each edge would |
| DistObservation.AddedAllWhileIgnoring | dist/global/can-observation.js:864-878 | unlike `add`, `addAll` does not consult `ignore`: while ignoring, `add` drops reads but `addAll` still records them |
| DistObservation.Recorder.RunIgnored | dist/global/can-observation.js:879-891 | running the function `ignore` returns raises the top counter for its reads and restores it, so none is recorded or trapped and nothing changes |
| DistObservation.Recorder.Trap | dist/global/can-observation.js:892-906 | installs a fresh empty trap list on the top observation and returns an untrap remembering the previous list; on an empty stack the untrap has nothing to restore |
| DistObservation.TrapBuffer.constructor | dist/global/can-observation.js:896 | a fresh trap list is empty |
| DistObservation.Untrap | dist/global/can-observation.js:897-904 | untrap restores the previous trap list and returns the captured edges in read order, or `[]` with no frame; it changes no other field |
| DistObservation.Recorder.TrapsCountAsWritten | dist/global/can-observation.js:907-914 | 0 on an empty stack, the trap list's length when a trap is active, and a `TypeError` exactly when the top observation has no trap list |
| DistObservation.Recorder.TrapsCount | dist/global/can-observation.js:907-914 | the corrected count: the number of trapped edges, and 0 whenever nothing is trapping |
| DistObservation.TrapsCountOutsideTrap | dist/global/can-observation.js:907-914 | outside a trap the code as written throws where the corrected count gives 0 |
| DistObservation.Recorder.IsRecording | dist/global/can-observation.js:915-919 | returns the top observation exactly when there is one and its `ignore` is 0 |
| DistObservation.Recorder.IsRecordingFlag | dist/amd/can-observe-info.js:215-218 | `ObservedInfo.isRecording` is the same test as a truth value |
| DistObservation.ChildrenAsWrittenDropsChild | dist/global/can-observation.js:753-769 | as written, an observation-backed child whose edge switches from one event to another loses its child depth though it is still read |
| DistObservation.ChildrenTrack | dist/global/can-observation.js:753-769 | with the corrected deletion, the child depths keep exactly one entry per observation-backed object the edges read |
| DistObservation.ChildrenRecordNewDepths | dist/global/can-observation.js:704 | a newly read observation-backed object's entry is that object's depth |
| AmdScheduler.Scheduler.constructor | dist/amd/can-observation.js:134 | the table starts empty with `curPrimaryDepth = Infinity`, `maxPrimaryDepth = 0`, no batch number, `isUpdating` false and no after-callbacks, which satisfies the covering invariant |
| AmdScheduler.Scheduler.Register | dist/amd/can-observation.js:137-152 | pushes the observation onto cell `(primaryDepth, getDepth() - 1)`, creating the row and the cell when missing; lowers `curPrimaryDepth` and the row's `current`, raises `maxPrimaryDepth` and the row's `max`; queues exactly one more observation and keeps every non-empty cell inside the cursors |
| AmdScheduler.Scheduler.RegisterAll | dist/amd/can-observation.js:135-153 | registering a list in order leaves the table that pushing each observation onto its cell gives, and keeps the cursors covering |
| AmdScheduler.PushAllContents | dist/amd/can-observation.js:150 | pushing a list of registrations queues exactly their observations, with multiplicity |
| AmdScheduler.Scheduler.Step | dist/amd/can-observation.js:162-183 | while `curPrimaryDepth <= maxPrimaryDepth`: when the cell under both cursors holds updates, its last one is popped and pushed onto that cell's notifications; else its last notification is popped; else a cursor advances (the row's `current`, or `curPrimaryDepth` past an exhausted or missing row). A pop comes only from the cell that has no non-empty cell before it; an advance touches no stack and strictly moves forward |
| AmdScheduler.CursorFirst | dist/amd/can-observation.js:162-166 | when the cursors cover the table, no non-empty cell comes before the cell they stand on, in primary-depth-then-depth order |
| AmdScheduler.Scheduler.MoveUpdate | dist/amd/can-observation.js:167-169 | `last.updates.pop()` takes the top of the cell's updates and `last.notifications.push` puts it on the same cell's notifications, keeping the cursors covering |
| AmdScheduler.Scheduler.PopNotification | dist/amd/can-observation.js:172 | `last.notifications.pop()` takes the top of the cell's notifications and nothing else |
| AmdScheduler.Scheduler.Turn | dist/amd/can-observation.js:161-184 | one loop turn either only moves a cursor forward, or logs exactly one `update` or `notify`, gains the callback that step defers, keeps the drain's books and strictly lowers the work left |
| AmdScheduler.Scheduler.FollowUpdate | dist/amd/can-observation.js:170 | `lastUpdate.update(currentBatchNum)` is logged with the current batch number, what it registers is queued, and the books still balance with less work left |
| AmdScheduler.Scheduler.FollowNotify | dist/amd/can-observation.js:174 | `lastNotify.notify(currentBatchNum)` is logged, what it registers is queued, and the books still balance with less work left |
| AmdScheduler.Scheduler.React | dist/amd/can-observation.js:199-207 | what an `update` or `notify` sets off: its registrations are pushed in order and the callback it hands to `afterUpdateAndNotify` during the drain is queued; nothing is logged |
| AmdScheduler.Scheduler.Drain | dist/amd/can-observation.js:161-184 | the loop ends, and once it has, every observation that waited for update or was registered during the drain was updated exactly once (as a multiset), every one updated or waiting for notification was notified exactly once, and the after-callbacks gained exactly the deferred ones, in order |
| AmdScheduler.UpdateTurn | dist/amd/can-observation.js:167-170 | a turn that moves an update to the notifications, logs it and queues its registrations keeps the books, and the work left drops |
| AmdScheduler.NotifyTurn | dist/amd/can-observation.js:172-174 | a turn that pops and logs a notification and queues its registrations keeps the books, and the work left drops |
| AmdScheduler.UpdateBooks | dist/amd/can-observation.js:167-170 | moving an update to the notifications while the log gains its `update` keeps the books |
| AmdScheduler.NotifyBooks | dist/amd/can-observation.js:172-174 | popping a notification while the log gains its `notify` keeps the books, with one fewer notification waiting |
| AmdScheduler.UpdateSizes | dist/amd/can-observation.js:167-169 | a move takes exactly one from the updates and adds exactly one to the notifications |
| AmdScheduler.ReactBooks | dist/amd/can-observation.js:170-174 | queuing a step's registrations keeps the books and moves the same count from pending to waiting |
| AmdScheduler.Opening | dist/amd/can-observation.js:160 | when a drain starts nothing has been logged or registered, so the books balance trivially |
| AmdScheduler.Settle | dist/amd/can-observation.js:162-185 | once `curPrimaryDepth > maxPrimaryDepth` under covering cursors every stack is empty, so the drain is complete |
| AmdScheduler.Closing | dist/amd/can-observation.js:185 | with nothing waiting, what was updated is what waited plus what was registered, and what was notified is what waited for notification plus what was updated |
| AmdScheduler.WidenCovers | dist/amd/can-observation.js:139-152 | registering only widens the cursors, so every cell they covered stays covered |
| AmdScheduler.BagIsMultiset | dist/amd/can-observation.js:161-184 | the element-by-element bag of a sequence is its multiset |
| AmdScheduler.Scheduler.UpdateAndNotify | dist/amd/can-observation.js:155-198 | records the batch number; during a drain returns at once changing nothing else; otherwise drains the table completely (every queued or newly registered update logged once, every update and queued notification notified once), resets the table and cursors, clears `isUpdating`, and runs the earlier after-callbacks and then those deferred during the drain, in order, once each, leaving none queued |
| AmdScheduler.Scheduler.Reset | dist/amd/can-observation.js:186-188 | `updateOrder = []`, `curPrimaryDepth = Infinity`, `maxPrimaryDepth = 0`, which satisfies the covering invariant |
| AmdScheduler.Scheduler.RunAll | dist/amd/can-observation.js:190-194 | every callback runs once, in order |
| AmdScheduler.Scheduler.AfterUpdateAndNotify | dist/amd/can-observation.js:199-207 | while `isUpdating` the callback is queued behind the others and nothing runs; otherwise it runs at once and the queue is untouched |
| AmdScheduler.Scheduler.StaticUpdate | dist/amd/can-observation.js:209-225 | something happens iff the observation waits in its cell's `updates`; then exactly its first occurrence is spliced out, it is pushed onto the cell's notifications and its `update(currentBatchNum)` is logged, and the cursors still cover; otherwise nothing changes |
| AmdScheduler.IndexOf | dist/amd/can-observation.js:217 | `indexOf`: -1 iff the observation is absent; otherwise the position of its first occurrence |
| AmdScheduler.Splice | dist/amd/can-observation.js:219 | `splice(index, 1)` leaves one element fewer |
| AmdScheduler.SpliceContents | dist/amd/can-observation.js:219 | splicing one position out of a cell removes exactly that observation from what is queued |
| AmdObservation.UpdateClears | dist/amd/can-observation.js:78-84 | `update` always lowers `needsUpdate`; bound, it keeps the previous value as `oldValue` and takes the recomputed one; unbound, nothing else changes |
| AmdObservation.UpdateThenNotify | dist/amd/can-observation.js:78-89 | after a bound `update`, `notify` calls the updater with the new value, the value from before the update and the batch number, then clears `oldValue`, so a second `notify` passes `null` |
| AmdObservation.ChangeOncePerBatch | dist/amd/can-observation.js:67-74 | `dependencyChange` registers iff the observation is bound and the event's batch number differs from the remembered one; it then raises `needsUpdate` and remembers the batch, so a second event of the same batch registers nothing |
| AmdObservation.ReadRunsPendingUpdate | dist/amd/can-observation.js:23-33 | a bound `get` with a pending update that is still queued runs it and returns the recomputed value; a bound `get` otherwise returns the cached value, and an unbound one the value of calling the function, changing nothing |
| AmdObservation.Observation.constructor | dist/amd/can-observation.js:8-20 | a new observation is unbound with `needsUpdate` false and no remembered batch number |
| AmdObservation.Observation.Start | dist/amd/can-observation.js:94-103 | binds the observation and stores the value of its function |
| AmdObservation.Observation.Stop | dist/amd/can-observation.js:125-132 | unbinds the observation |
| AmdObservation.Observation.Update | dist/amd/can-observation.js:78-84 | the state `update` leaves, as `UpdateClears` describes it |
| AmdObservation.Observation.Notify | dist/amd/can-observation.js:85-89 | the updater call and the cleared `oldValue`, as `UpdateThenNotify` describes them |
| AmdObservation.Observation.RegisterUpdate | dist/amd/can-observation.js:135-153 | raises `needsUpdate` and queues exactly this observation, at the top of cell `(primaryDepth, getDepth() - 1)`, keeping the cursors covering |
| AmdObservation.Observation.DependencyChange | dist/amd/can-observation.js:67-74 | the state change `ChangeOncePerBatch` describes; when it registers, exactly this observation is queued once more, otherwise the table is untouched |
| AmdObservation.Observation.Get | dist/amd/can-observation.js:23-33 | the value and state `ReadRunsPendingUpdate` describes, with "still queued" meaning the observation is in its cell's `updates`; in that case the static `Observation.update` splices its first occurrence out of the cell's `updates`, pushes it onto the cell's `notifications` and logs its `update(currentBatchNum)`; otherwise the table and the log are unchanged |

## Left out

- Module loading, the global shim, the DOM event helpers and delegation (`dist/global/can-observation.js:1-369`, `923-928`): browser and loader plumbing.
- The event emitter internals, `can-queues`, `can-key-tree` and `can-reflect`: their code is not part of this model; they are abstract collaborators (a multiset of live subscriptions, a derive queue of task ids, a log of dispatched events).
- Handler and callback re-entrancy: handlers, batch callbacks and `_onDispatchedEvents` are logged, not run, so a `batchEnd` started from inside a drain or a callback added during a dispatch is not modelled; the AMD drain's re-entrancy is the script parameter instead, which holds only registrations and deferred callbacks.
- AmdScheduler.Scheduler.Drain: an `update` or `notify` that reads another observation's `get` during the drain, and so runs the static `Observation.update` on it (`dist/amd/can-observation.js:26-27`), splicing it out of its cell and moving it to the notifications, cannot be expressed by the script; the drain's balance is proved only for drains whose reactions register and defer.
- AmdScheduler.Scheduler.Drain: a nested `updateAndNotify` during the drain returns early but first sets `currentBatchNum` (`dist/amd/can-observation.js:156`), so later `update`/`notify` calls of the same drain get the new batch number; the script cannot express that, and the drain logs every call with the batch number it started with.
- Cycles in the dependency graph: `batchEnd` and `updateAndNotify` loop forever on a cycle; the model bounds the re-registrations by the finite script, which stands in for acyclicity. `updateChildrenAndSelf` (`can-observation.js:207-222`) recurses without end on a cycle of value dependencies; `CanObservation.UpdateChildrenAndSelf`, `CanObservation.UpdateChildren` and `CanObservation.AllBoundNeverThrows` require an acyclic graph (`Ranked`), so the cyclic case is not modelled.
- JavaScript `Set`/`Map`/object iteration order: `updateBindings` and the dependency helpers visit entries in an unspecified order, and the contracts are stated on sets and multisets.
- The `console.warn` aliases `getValueAndBind` and `teardown`.
- `unbindComputes` and the `setTimeout(unbindComputes, 10)` of `temporarilyBind` (`can-observation.js:243-248`, `257`): timer-driven; `TemporarilyBind` models the `noop` listener, the `start` a first listener triggers and the list of observations the timer would unbind.
- ObservationStack.Recorder.RunIgnored: models `ignore(fn)` for a `fn` that returns; the counter is not restored when `fn` throws, and exceptions are not modelled.
- DistObservation.Recorder.RunIgnored: the same, for the `dist` `ignore`.
- CanObservation.Observation.Get: flushes only the observation's own queued update; the flush of queued child updates is the pure `UpdateChildrenAndSelf` over a snapshot of the dependency graph, and `queues.deriveQueue.tasksRemainingCount()` is abstracted to whether this observation's own task is queued.
- DistObservation.Observation.RemoveEdge: deletes the child depth of an observation-backed object only when `stillRead` is false; the source (`dist/global/can-observation.js:712`) deletes it unconditionally. This is the corrected behaviour of the `childDepths` finding below, and the as-written behaviour is modelled only by the function `ChildrenAsWritten`.
- DistObservation.Observation.Unbind: passes "some remaining edge reads the object" as `stillRead`, so it keeps the child depth of an object a kept or new edge still reads, which the source's `removeEdge` deletes.
- DistObservation.Observation.UpdateBindings: its child depths are `Children` (the corrected deletion), not `ChildrenAsWritten`, which is what `dist/global/can-observation.js:753-769` computes.
- DistObservation.Observation.Start: the same corrected child depths, through `updateBindings`.
- DistObservation.Observation.Get: the update `updateUntil` runs for this observation is logged by the scheduler, not applied to this object, so the value returned is the cached one.
- AmdObservation.Observation.Get: the `canEvent.flush()` call is not modelled, and the recompute value is a parameter. The reads of an unbound `get`'s cold run (`dist/amd/can-observation.js:31`) reach the `observationStack` top in the source; `AmdObservation` has no recorder, so they are not modelled there (the same recorder text is modelled in `DistObservation`, whose `Get` replays them).
- The link between an id that a drain logs as updated and the `Observation` object with that id is not modelled: the schedulers work on ids.
- AmdScheduler.Scheduler.AfterUpdateAndNotify: models the callback `canBatch.after` runs once the batch completes, not the deferral through `canBatch.after` itself.
- Depths are parameters of the AMD `registerUpdate`, static `update` and `get` (`getDepth()` is modelled once, in `DistObservation`).
- The reader's `readValue`, the value and property readers, the promise reader, `foundObservable`, `earlyExit` and `write` (`reader/reader.js:14-54`, `127-248`, `283-305`): runtime type dispatch over JavaScript values; `Read` takes the value and property readers as function parameters.
- `operators/`, `reflections/`, `can-reflect.js` and `reader/other.js`: capability probing over arbitrary objects, and a file that does not parse.
- Value identity: values are integers compared with `==`, standing for `!==` on JavaScript values, so identity is reflexive; `NaN !== NaN` in the source, so a compute yielding `NaN` queues its handlers on every `update` (`can-observation.js:128`), which CanObservation.Observation.Update never does.
- Number widths: batch numbers, depths, ids and counters are unbounded integers; JavaScript numbers would lose precision only beyond 2^53.

## Findings

| source | as written | input that shows it | evidently intended | confidence | as-written member | corrected member |
|---|---|---|---|---|---|---|
| observation-stack.js:207-214 | `trapsCount` reads `top.traps.length` whenever the stack is non-empty, and `top.traps` is `null` outside a trap, so it throws a `TypeError` (the same text is at dist/global/can-observation.js:907-914, dist/amd/can-observe-info.js:192-199 and dist/amd/can-observation.js:287-294; `DistObservation.TrapsCountOutsideTrap` shows it for the `dist` recorder) | a non-empty recorder stack with no trap installed | 0 when no trap is active | not executed | ObservationStack.TrapsCountOutsideTrap | ObservationStack.Recorder.TrapsCount |
| can-observation.js:231 | `Observation.addAll` is `ObservationStack.observeMany` called with `this` bound to `Observation`; its no-trap branch calls `this.observe` (`observation-stack.js:124`), and `Observation` has only `add`, so the call throws a `TypeError` | `Observation.addAll([r])` on a recording frame with no trap installed | each read is observed, as `ObservationStack.observeMany` does | not executed | ObservationStack.AddAllOutsideTrap | ObservationStack.Recorder.ObserveMany |
| can-observation.js:188-190 | `valueHasDependencies` answers `!isEmptyObject(this.newDependencies)`, and a recorder object always has its four own keys, so a bound observation always answers `true` | a bound observation whose function reads nothing | `false` when the recorder holds no key or value dependency | not executed | CanObservation.ValueHasDependenciesWithoutReads | CanObservation.Observation.ValueHasDependencies |
| dist/global/can-observation.js:753-769 | `updateBindings` adds the new edges first and removes the old-only ones afterwards, and `removeEdge` (lines 708-714) deletes `childDepths[obj._cid]` for the object, even when a new edge still reads that object (the same text is at dist/amd/can-observe-info.js:94-110 with 53-59) | an observation that read event `"a"` of an observation-backed object 7 and now reads its event `"b"` | the child depth of 7 is kept while some edge still reads 7 | not executed | DistObservation.ChildrenAsWrittenDropsChild | DistObservation.ChildrenTrack |
