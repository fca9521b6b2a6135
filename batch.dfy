/**
 * `can-event/batch/batch` as bundled in dist/global/can-observation.js:
 * a reference-counted transaction (`start`/`stop`) that collects triggered
 * events into numbered batches and, when the outermost transaction ends,
 * dispatches the queued batches first-in first-out: each batch's events in
 * queue order, then the `_onDispatchedEvents` hook, then its callbacks in
 * registration order.
 *
 * Event handlers and callbacks are foreign code: dispatching an event or
 * calling a callback appends an `Effect` to a log instead of running it.
 * A batch record is an object that `batches`, `collectingBatch` and
 * `dispatchingBatch` share; its number is unique, so the model keeps the
 * records in a store keyed by number and the three references as numbers.
 */
module Batch {
  import opened Common

  /** What an event is dispatched on: an observable, or the `{}` object `afterPreviousEvents` makes to call `handler` on "ready". */
  datatype Target = Item(id: Id) | ReadyHandler(handler: Id)

  /** An event object: its `type` and the `batchNum` stamped on it, if any. */
  datatype Event = Event(eventType: Key, batchNum: Option<nat>)

  /** `[item, [event, args]]` in a batch's `events` list. */
  datatype Queued = Queued(target: Target, event: Event)

  /** What the batch does to the outside world, in order. */
  datatype Effect = Dispatch(target: Target, event: Event) | EventsDispatched(number: nat) | Call(handler: Id)

  /** A batch record `{events, callbacks, number}`. */
  datatype BatchData = BatchData(events: seq<Queued>, callbacks: seq<Id>, number: nat)

  /** Dispatching a list of queued events, in order. */
  function Dispatches(events: seq<Queued>): (r: seq<Effect>)
    ensures |r| == |events|
    ensures forall i :: 0 <= i < |events| ==> r[i] == Dispatch(events[i].target, events[i].event)
  {
    if events == [] then [] else [Dispatch(events[0].target, events[0].event)] + Dispatches(events[1..])
  }

  /** Calling a list of callbacks, in order. */
  function Calls(callbacks: seq<Id>): (r: seq<Effect>)
    ensures |r| == |callbacks|
    ensures forall i :: 0 <= i < |callbacks| ==> r[i] == Call(callbacks[i])
  {
    if callbacks == [] then [] else [Call(callbacks[0])] + Calls(callbacks[1..])
  }

  /** What dispatching one batch does: its events, the hook, then its callbacks. */
  function BatchLog(b: BatchData): seq<Effect>
  {
    Dispatches(b.events) + [EventsDispatched(b.number)] + Calls(b.callbacks)
  }

  /** What draining a list of batches does, first to last. */
  function DrainLog(bs: seq<BatchData>): seq<Effect>
  {
    if bs == [] then [] else BatchLog(bs[0]) + DrainLog(bs[1..])
  }

  /** The batch numbers the `_onDispatchedEvents` hook reports in a log, in order. */
  function Markers(log: seq<Effect>): seq<nat>
  {
    if log == [] then []
    else (if log[0].EventsDispatched? then [log[0].number] else []) + Markers(log[1..])
  }

  function Numbers(bs: seq<BatchData>): (r: seq<nat>)
    ensures |r| == |bs|
  {
    if bs == [] then [] else [bs[0].number] + Numbers(bs[1..])
  }

  predicate Increasing(ns: seq<nat>)
  {
    forall i, j :: 0 <= i < j < |ns| ==> ns[i] < ns[j]
  }

  /** The records a list of batch numbers refers to (numbers without a record are skipped). */
  function Records(store: map<nat, BatchData>, ns: seq<nat>): seq<BatchData>
  {
    if ns == [] then []
    else (if ns[0] in store then [store[ns[0]]] else []) + Records(store, ns[1..])
  }

  /** The `canBatch` module state. */
  class CanBatch {
    var batchNum: nat
    var transactions: int
    var dispatchingBatch: Option<nat>
    var collectingBatch: Option<nat>
    var batches: seq<nat>
    var store: map<nat, BatchData>
    var dispatchingBatches: bool
    /** `canBatch.batchNum`: the number of the batch being dispatched, `undefined` otherwise. */
    var current: Option<nat>
    var log: seq<Effect>

    /** The module's initial values. */
    constructor ()
      ensures Valid() && batchNum == 1 && transactions == 0 && batches == [] && log == []
      ensures collectingBatch == None && dispatchingBatch == None && !dispatchingBatches && current == None
    {
      batchNum := 1;
      transactions := 0;
      dispatchingBatch := None;
      collectingBatch := None;
      batches := [];
      store := map[];
      dispatchingBatches := false;
      current := None;
      log := [];
    }

    /**
     * Batch numbers are handed out in increasing order and `batchNum` is the
     * next one; every record carries its own number; the queue is sorted.
     */
    ghost predicate Valid()
      reads this`batchNum, this`store, this`batches, this`collectingBatch, this`dispatchingBatch
    {
      batchNum >= 1 &&
      (forall n :: n in store ==> n < batchNum && store[n].number == n) &&
      (forall i :: 0 <= i < |batches| ==> batches[i] in store) &&
      (forall i, j :: 0 <= i < j < |batches| ==> batches[i] < batches[j]) &&
      (collectingBatch.Some? ==> collectingBatch.value in store) &&
      (dispatchingBatch.Some? ==> dispatchingBatch.value in store)
    }

    /** The queued batch records, first to last. */
    function Queue(): seq<BatchData>
      reads this
    {
      Records(store, batches)
    }

    /**
     * `start(batchStopHandler)`: one more transaction; the outermost one opens a
     * new batch numbered `batchNum++`, holding the handler as its first callback.
     */
    method Start(batchStopHandler: Option<Id>)
      requires Valid()
      modifies this
      ensures Valid()
      ensures transactions == old(transactions) + 1
      ensures old(transactions) == 0 ==>
                batches == old(batches) + [old(batchNum)] && collectingBatch == Some(old(batchNum)) &&
                store == old(store)[old(batchNum) := BatchData([], if batchStopHandler.Some? then [batchStopHandler.value] else [], old(batchNum))] &&
                batchNum == old(batchNum) + 1
      ensures old(transactions) != 0 ==>
                batches == old(batches) && store == old(store) && batchNum == old(batchNum) && collectingBatch == old(collectingBatch)
      ensures log == old(log) && dispatchingBatch == old(dispatchingBatch) && dispatchingBatches == old(dispatchingBatches)
      ensures current == old(current)
    {
      transactions := transactions + 1;
      if transactions == 1 {
        var batch := BatchData([], if batchStopHandler.Some? then [batchStopHandler.value] else [], batchNum);
        store := store[batchNum := batch];
        batches := batches + [batchNum];
        collectingBatch := Some(batchNum);
        batchNum := batchNum + 1;
      }
    }

    /**
     * Dispatching one shifted batch: its events (as many as it held when
     * dispatch began), the `_onDispatchedEvents` hook, then its callbacks.
     */
    method DispatchBatch(batch: BatchData)
      modifies this`log
      ensures log == old(log) + BatchLog(batch)
    {
      var dispatched := DispatchEvents(batch.events);
      var called := RunCallbacks(batch.callbacks);
      log := log + dispatched + [EventsDispatched(batch.number)] + called;
    }

    /**
     * One round of the drain: shift the first queued batch off, re-enter
     * `start` when asked to, dispatch the batch, and clear the dispatch state.
     */
    method DispatchNext(callStart: bool)
      requires Valid() && batches != []
      modifies this
      ensures Valid()
      ensures log == old(log) + BatchLog(old(Queue())[0])
      ensures Queue() == old(Queue())[1..] + (if callStart && old(transactions) == 0 then [BatchData([], [], old(batchNum))] else [])
      ensures transactions == old(transactions) + (if callStart then 1 else 0)
      ensures batchNum == old(batchNum) + (if callStart && old(transactions) == 0 then 1 else 0)
      ensures |batches| == |old(batches)| - 1 + (if callStart && old(transactions) == 0 then 1 else 0)
      ensures !callStart ==> collectingBatch == old(collectingBatch)
      ensures dispatchingBatch == None && current == None && dispatchingBatches == old(dispatchingBatches)
    {
      var batch := Shift();
      if callStart {
        Reenter();
      }
      DispatchBatch(batch);
      dispatchingBatch := None;
      current := None;
    }

    /** `batches.shift()`, which becomes the batch being dispatched. */
    method Shift() returns (batch: BatchData)
      requires Valid() && batches != []
      modifies this
      ensures Valid()
      ensures batch == old(Queue())[0] && Queue() == old(Queue())[1..]
      ensures dispatchingBatch == Some(batch.number) && current == Some(batch.number)
      ensures batches == old(batches)[1..]
      ensures store == old(store) && log == old(log) && transactions == old(transactions) && batchNum == old(batchNum)
      ensures collectingBatch == old(collectingBatch) && dispatchingBatches == old(dispatchingBatches)
    {
      RecordsShift(store, batches);
      batch := store[batches[0]];
      batches := batches[1..];
      dispatchingBatch := Some(batch.number);
      current := Some(batch.number);
    }

    /** `canBatch.start()` from inside the drain: the first such call opens an empty batch behind the queue. */
    method Reenter()
      requires Valid()
      modifies this
      ensures Valid()
      ensures Queue() == old(Queue()) + (if old(transactions) == 0 then [BatchData([], [], old(batchNum))] else [])
      ensures transactions == old(transactions) + 1
      ensures batchNum == old(batchNum) + (if old(transactions) == 0 then 1 else 0)
      ensures log == old(log) && dispatchingBatch == old(dispatchingBatch) && current == old(current)
      ensures dispatchingBatches == old(dispatchingBatches) && |batches| == |old(batches)| + (if old(transactions) == 0 then 1 else 0)
    {
      ghost var rest := batches;
      var opening := transactions == 0;
      Start(None);
      if opening {
        assert forall i :: 0 <= i < |rest| ==> rest[i] in old(store) && rest[i] != batchNum - 1;
        RecordsAppend(store, rest, [batchNum - 1]);
        RecordsFresh(old(store), store, rest, batchNum - 1);
        assert Records(store, [batchNum - 1]) == [BatchData([], [], old(batchNum))];
      }
    }

    /**
     * The drain `stop` runs: every queued batch is shifted off and dispatched
     * in order. With `callStart` each dispatched batch first re-enters
     * `start`, and the first such call opens one more, empty batch that the
     * same drain dispatches last.
     */
    method Drain(callStart: bool)
      requires Valid() && transactions == 0
      modifies this
      ensures Valid() && batches == [] && dispatchingBatches == old(dispatchingBatches)
      ensures !callStart || old(batches) == [] ==>
                transactions == 0 && collectingBatch == old(collectingBatch) &&
                log == old(log) + DrainLog(old(Queue())) && batchNum == old(batchNum)
      ensures callStart && old(batches) != [] ==>
                transactions == |old(batches)| + 1 &&
                log == old(log) + DrainLog(old(Queue()) + [BatchData([], [], old(batchNum))]) &&
                batchNum == old(batchNum) + 1
      ensures old(batches) != [] ==> dispatchingBatch == None && current == None
      ensures old(batches) == [] ==> dispatchingBatch == old(dispatchingBatch) && current == old(current)
    {
      ghost var pending := Queue();
      ghost var extra: seq<BatchData> := [];
      ghost var k := 0;
      while batches != []
        invariant Valid() && dispatchingBatches == old(dispatchingBatches)
        invariant Draining(old(log), log, pending + extra, k, Queue())
        invariant callStart ==> transactions == k && (k == 0 <==> extra == []) && (k > 0 ==> batchNum == old(batchNum) + 1)
        invariant extra == [] || extra == [BatchData([], [], old(batchNum))]
        invariant extra == [] ==> batchNum == old(batchNum)
        invariant !callStart ==> transactions == 0 && extra == [] && collectingBatch == old(collectingBatch)
        invariant old(batches) == [] ==> k == 0 && extra == []
        invariant k + |batches| == |old(batches)| + |extra|
        invariant k > 0 ==> dispatchingBatch == None && current == None
        invariant k == 0 ==> dispatchingBatch == old(dispatchingBatch) && current == old(current) && collectingBatch == old(collectingBatch)
        decreases |batches| + (if transactions == 0 then 1 else 0)
      {
        ghost var queued := Queue();
        ghost var before := log;
        ghost var tail := if callStart && transactions == 0 then [BatchData([], [], old(batchNum))] else [];
        DispatchNext(callStart);
        DrainingAdvance(old(log), before, pending, extra, k, queued, tail);
        extra := extra + tail;
        k := k + 1;
      }
      assert Records(store, batches) == [];
      assert k == |pending + extra|;
      assert (pending + extra)[..k] == pending + extra;
      assert pending + [] == pending;
    }

    /**
     * `stop(force, callStart)`: ends a transaction (all of them when forced).
     * When none is left the collecting batch is closed and, unless a drain is
     * already running, the queued batches are drained.
     */
    method Stop(force: bool, callStart: bool)
      requires Valid()
      modifies this
      ensures Valid()
      ensures !force && old(transactions) != 1 ==>
                transactions == old(transactions) - 1 && batches == old(batches) && log == old(log) &&
                collectingBatch == old(collectingBatch) && store == old(store) && batchNum == old(batchNum)
      ensures (force || old(transactions) == 1) && old(dispatchingBatches) ==>
                transactions == 0 && collectingBatch == None && batches == old(batches) && store == old(store) && log == old(log)
      ensures (force || old(transactions) == 1) && !old(dispatchingBatches) && (!callStart || old(batches) == []) ==>
                transactions == 0 && collectingBatch == None && batches == [] && !dispatchingBatches &&
                log == old(log) + DrainLog(old(Queue())) && batchNum == old(batchNum)
      ensures (force || old(transactions) == 1) && !old(dispatchingBatches) && callStart && old(batches) != [] ==>
                transactions == |old(batches)| + 1 && batches == [] && !dispatchingBatches &&
                log == old(log) + DrainLog(old(Queue()) + [BatchData([], [], old(batchNum))]) &&
                batchNum == old(batchNum) + 1
      ensures (dispatchingBatch == old(dispatchingBatch) && current == old(current)) || (dispatchingBatch == None && current == None)
    {
      if force {
        transactions := 0;
      } else {
        transactions := transactions - 1;
      }
      if transactions == 0 {
        collectingBatch := None;
        if dispatchingBatches == false {
          dispatchingBatches := true;
          Drain(callStart);
          dispatchingBatches := false;
        }
      }
    }

    /**
     * `trigger(item, event)`: ignored on an item in setup; queued, stamped
     * with the collecting batch's number, while a batch collects; dispatched
     * at once when already stamped; queued in a batch of its own behind the
     * pending ones while a drain runs; dispatched at once otherwise. Opening
     * that batch of its own reads `collectingBatch.number`, which throws when
     * `start` did not open one (an unbalanced `stop` left `transactions` off zero).
     */
    method Trigger(item: Id, inSetup: bool, event: Event) returns (r: Outcome<()>)
      requires Valid()
      modifies this
      ensures Valid()
      ensures inSetup ==>
                r.Returned? && log == old(log) && store == old(store) && batches == old(batches) &&
                transactions == old(transactions)
      ensures !inSetup && old(collectingBatch).Some? ==>
                var n := old(collectingBatch).value;
                r.Returned? && log == old(log) && batches == old(batches) && transactions == old(transactions) &&
                store == old(store)[n := old(store)[n].(events := old(store)[n].events + [Queued(Item(item), event.(batchNum := Some(n)))])]
      ensures !inSetup && old(collectingBatch).None? && ((event.batchNum.Some? && event.batchNum.value != 0) || old(batches) == []) ==>
                r.Returned? && log == old(log) + [Dispatch(Item(item), event)] && store == old(store) && batches == old(batches)
      ensures !inSetup && old(collectingBatch).None? && !(event.batchNum.Some? && event.batchNum.value != 0) && old(batches) != [] ==>
                (r.Returned? <==> old(transactions) == 0)
      ensures !inSetup && old(collectingBatch).None? && !(event.batchNum.Some? && event.batchNum.value != 0) && old(batches) != [] &&
              old(transactions) == 0 ==>
                var own := BatchData([Queued(Item(item), event.(batchNum := Some(old(batchNum))))], [], old(batchNum));
                transactions == 0 && collectingBatch == None &&
                (old(dispatchingBatches) ==> batches == old(batches) + [old(batchNum)] && store == old(store)[old(batchNum) := own] && log == old(log)) &&
                (!old(dispatchingBatches) ==> batches == [] && log == old(log) + DrainLog(old(Queue()) + [own]))
    {
      if inSetup {
        return Returned(());
      }
      if collectingBatch.Some? {
        Collect(item, event);
        r := Returned(());
      } else if event.batchNum.Some? && event.batchNum.value != 0 {
        log := log + [Dispatch(Item(item), event)];
        r := Returned(());
      } else if batches != [] {
        r := TriggerAlone(item, event);
      } else {
        log := log + [Dispatch(Item(item), event)];
        r := Returned(());
      }
    }

    /** `event.batchNum = collectingBatch.number; collectingBatch.events.push([item, [event, args]])` */
    method Collect(item: Id, event: Event)
      requires Valid() && collectingBatch.Some?
      modifies this
      ensures Valid()
      ensures var n := old(collectingBatch).value;
              store == old(store)[n := old(store)[n].(events := old(store)[n].events + [Queued(Item(item), event.(batchNum := Some(n)))])]
      ensures batches == old(batches) && log == old(log) && transactions == old(transactions) && batchNum == old(batchNum)
      ensures collectingBatch == old(collectingBatch) && dispatchingBatch == old(dispatchingBatch)
      ensures dispatchingBatches == old(dispatchingBatches) && current == old(current)
    {
      var n := collectingBatch.value;
      store := store[n := store[n].(events := store[n].events + [Queued(Item(item), event.(batchNum := Some(n)))])];
    }

    /**
     * The branch of `trigger` taken while a drain runs: the event goes into a
     * batch of its own, opened and closed around it.
     */
    method TriggerAlone(item: Id, event: Event) returns (r: Outcome<()>)
      requires Valid() && collectingBatch.None?
      modifies this
      ensures Valid()
      ensures r.Returned? <==> old(transactions) == 0
      ensures old(transactions) != 0 ==> batches == old(batches) && store == old(store) && log == old(log)
      ensures old(transactions) == 0 ==>
                var own := BatchData([Queued(Item(item), event.(batchNum := Some(old(batchNum))))], [], old(batchNum));
                transactions == 0 && collectingBatch == None &&
                (old(dispatchingBatches) ==> batches == old(batches) + [old(batchNum)] && store == old(store)[old(batchNum) := own] && log == old(log)) &&
                (!old(dispatchingBatches) ==> batches == [] && log == old(log) + DrainLog(old(Queue()) + [own]))
    {
      var wasIdle := transactions == 0;
      Start(None);
      if !wasIdle {
        return TypeError;
      }
      ghost var n := collectingBatch.value;
      Collect(item, event);
      ghost var own := BatchData([Queued(Item(item), event.(batchNum := Some(n)))], [], n);
      assert store[n] == own && store == old(store)[n := own];
      OwnBatchQueued(old(store), store, old(batches), n, own);
      Stop(false, false);
      r := Returned(());
    }

    /**
     * `afterPreviousEvents(handler)`: a "ready" event on a fresh object whose
     * listener is `handler`, queued behind the last batch's events; `handler`
     * is called at once when no batch is queued.
     */
    method AfterPreviousEvents(handler: Id)
      requires Valid()
      modifies this
      ensures Valid() && batches == old(batches)
      ensures old(batches) != [] ==>
                var last := old(batches)[|old(batches)| - 1];
                log == old(log) &&
                store == old(store)[last := old(store)[last].(events := old(store)[last].events + [Queued(ReadyHandler(handler), Event("ready", None))])]
      ensures old(batches) == [] ==> log == old(log) + [Call(handler)] && store == old(store)
    {
      if batches != [] {
        var last := batches[|batches| - 1];
        store := store[last := store[last].(events := store[last].events + [Queued(ReadyHandler(handler), Event("ready", None))])];
      } else {
        log := log + [Call(handler)];
      }
    }

    /**
     * `after(handler)`: a callback of the collecting batch, else of the batch
     * being dispatched (run in the same drain), else called at once.
     */
    method After(handler: Id)
      requires Valid()
      modifies this
      ensures Valid() && batches == old(batches)
      ensures old(collectingBatch).Some? || old(dispatchingBatch).Some? ==>
                var n := if old(collectingBatch).Some? then old(collectingBatch).value else old(dispatchingBatch).value;
                log == old(log) && store == old(store)[n := old(store)[n].(callbacks := old(store)[n].callbacks + [handler])]
      ensures old(collectingBatch).None? && old(dispatchingBatch).None? ==> log == old(log) + [Call(handler)] && store == old(store)
    {
      var batch := if collectingBatch.Some? then collectingBatch else dispatchingBatch;
      if batch.Some? {
        var n := batch.value;
        store := store[n := store[n].(callbacks := store[n].callbacks + [handler])];
      } else {
        log := log + [Call(handler)];
      }
    }
  }

  /** Dispatching each queued event in turn. */
  method DispatchEvents(events: seq<Queued>) returns (out: seq<Effect>)
    ensures out == Dispatches(events)
  {
    out := [];
    for i := 0 to |events|
      invariant out == Dispatches(events[..i])
    {
      out := out + [Dispatch(events[i].target, events[i].event)];
      assert events[..i + 1] == events[..i] + [events[i]];
      DispatchesAppend(events[..i], [events[i]]);
    }
    assert events[..|events|] == events;
  }

  /** Calling each callback in turn. */
  method RunCallbacks(callbacks: seq<Id>) returns (out: seq<Effect>)
    ensures out == Calls(callbacks)
  {
    out := [];
    for i := 0 to |callbacks|
      invariant out == Calls(callbacks[..i])
    {
      out := out + [Call(callbacks[i])];
      assert callbacks[..i + 1] == callbacks[..i] + [callbacks[i]];
      CallsAppend(callbacks[..i], [callbacks[i]]);
    }
    assert callbacks[..|callbacks|] == callbacks;
  }

  /** The drain so far: the first `k` of `all` batches are dispatched and the rest are still queued. */
  ghost predicate Draining(log0: seq<Effect>, log: seq<Effect>, all: seq<BatchData>, k: nat, queued: seq<BatchData>)
  {
    k <= |all| &&
    log == log0 + DrainLog(all[..k]) &&
    queued == all[k..]
  }

  /** One more batch dispatched, and `tail` queued behind the rest. */
  lemma DrainingAdvance(log0: seq<Effect>, log: seq<Effect>, pending: seq<BatchData>, extra: seq<BatchData>, k: nat,
                        queued: seq<BatchData>, tail: seq<BatchData>)
    requires Draining(log0, log, pending + extra, k, queued) && queued != []
    ensures Draining(log0, log + BatchLog(queued[0]), pending + (extra + tail), k + 1, queued[1..] + tail)
  {
    var all := pending + extra;
    assert all + tail == pending + (extra + tail);
    DrainStep(all, k);
    assert (all + tail)[..k + 1] == all[..k + 1];
    assert (all + tail)[k + 1..] == all[k + 1..] + tail;
  }

  /** A batch opened behind a queue and then given its one event sits at the end of the queue. */
  lemma OwnBatchQueued(store0: map<nat, BatchData>, store: map<nat, BatchData>, queue: seq<nat>, n: nat, own: BatchData)
    requires forall i :: 0 <= i < |queue| ==> queue[i] in store0 && queue[i] < n
    requires n !in store0 && store == store0[n := own]
    ensures Records(store, queue + [n]) == Records(store0, queue) + [own]
  {
    RecordsAppend(store, queue, [n]);
    RecordsUpdate(store0, store, queue, n);
    assert Records(store, [n]) == [own];
  }

  lemma RecordsShift(store: map<nat, BatchData>, ns: seq<nat>)
    requires ns != [] && forall i :: 0 <= i < |ns| ==> ns[i] in store
    ensures Records(store, ns[1..]) == Records(store, ns)[1..] && Records(store, ns)[0] == store[ns[0]]
  {
  }

  lemma {:induction false} RecordsAppend(store: map<nat, BatchData>, a: seq<nat>, b: seq<nat>)
    ensures Records(store, a + b) == Records(store, a) + Records(store, b)
  {
    if a == [] {
      assert a + b == b;
    } else {
      assert (a + b)[0] == a[0] && (a + b)[1..] == a[1..] + b;
      RecordsAppend(store, a[1..], b);
    }
  }

  /** Adding a record under a number the list does not mention leaves the list's records alone. */
  lemma {:induction false} RecordsFresh(store0: map<nat, BatchData>, store: map<nat, BatchData>, ns: seq<nat>, n: nat)
    requires forall i :: 0 <= i < |ns| ==> ns[i] != n
    requires forall m :: m in store0 ==> m in store && store[m] == store0[m]
    requires forall m :: m in store ==> m in store0 || m == n
    ensures Records(store, ns) == Records(store0, ns)
  {
    if ns != [] {
      RecordsFresh(store0, store, ns[1..], n);
    }
  }

  /** Changing one record leaves the records of a list that does not mention it alone. */
  lemma {:induction false} RecordsUpdate(store0: map<nat, BatchData>, store: map<nat, BatchData>, ns: seq<nat>, n: nat)
    requires forall i :: 0 <= i < |ns| ==> ns[i] != n
    requires forall m :: m != n ==> (m in store0 <==> m in store)
    requires forall m :: m in store0 && m != n ==> store[m] == store0[m]
    ensures Records(store, ns) == Records(store0, ns)
  {
    if ns != [] {
      RecordsUpdate(store0, store, ns[1..], n);
    }
  }

  lemma DrainStep(all: seq<BatchData>, k: nat)
    requires k < |all|
    ensures DrainLog(all[..k]) + BatchLog(all[k]) == DrainLog(all[..k + 1])
  {
    assert all[..k + 1] == all[..k] + [all[k]];
    DrainLogAppend(all[..k], [all[k]]);
  }

  lemma {:induction false} DispatchesAppend(a: seq<Queued>, b: seq<Queued>)
    ensures Dispatches(a + b) == Dispatches(a) + Dispatches(b)
  {
    if a == [] {
      assert a + b == b;
    } else {
      assert (a + b)[0] == a[0] && (a + b)[1..] == a[1..] + b;
      DispatchesAppend(a[1..], b);
    }
  }

  lemma {:induction false} CallsAppend(a: seq<Id>, b: seq<Id>)
    ensures Calls(a + b) == Calls(a) + Calls(b)
  {
    if a == [] {
      assert a + b == b;
    } else {
      assert (a + b)[0] == a[0] && (a + b)[1..] == a[1..] + b;
      CallsAppend(a[1..], b);
    }
  }

  /** Draining two lists of batches one after the other logs what draining their concatenation logs. */
  lemma {:induction false} DrainLogAppend(a: seq<BatchData>, b: seq<BatchData>)
    ensures DrainLog(a + b) == DrainLog(a) + DrainLog(b)
  {
    if a == [] {
      assert a + b == b;
    } else {
      assert (a + b)[0] == a[0] && (a + b)[1..] == a[1..] + b;
      DrainLogAppend(a[1..], b);
    }
  }

  lemma {:induction false} MarkersAppend(a: seq<Effect>, b: seq<Effect>)
    ensures Markers(a + b) == Markers(a) + Markers(b)
  {
    if a == [] {
      assert a + b == b;
    } else {
      assert (a + b)[0] == a[0] && (a + b)[1..] == a[1..] + b;
      MarkersAppend(a[1..], b);
    }
  }

  lemma {:induction false} DispatchesHaveNoMarkers(events: seq<Queued>)
    ensures Markers(Dispatches(events)) == []
  {
    if events != [] {
      MarkersAppend([Dispatch(events[0].target, events[0].event)], Dispatches(events[1..]));
      DispatchesHaveNoMarkers(events[1..]);
    }
  }

  lemma {:induction false} CallsHaveNoMarkers(callbacks: seq<Id>)
    ensures Markers(Calls(callbacks)) == []
  {
    if callbacks != [] {
      MarkersAppend([Call(callbacks[0])], Calls(callbacks[1..]));
      CallsHaveNoMarkers(callbacks[1..]);
    }
  }

  /**
   * Batches are dispatched first-in first-out: the `_onDispatchedEvents` hook
   * reports the batch numbers in queue order.
   */
  lemma {:induction false} DrainReportsInQueueOrder(bs: seq<BatchData>)
    ensures Markers(DrainLog(bs)) == Numbers(bs)
  {
    if bs != [] {
      var b := bs[0];
      MarkersAppend(BatchLog(b), DrainLog(bs[1..]));
      MarkersAppend(Dispatches(b.events) + [EventsDispatched(b.number)], Calls(b.callbacks));
      MarkersAppend(Dispatches(b.events), [EventsDispatched(b.number)]);
      DispatchesHaveNoMarkers(b.events);
      CallsHaveNoMarkers(b.callbacks);
      DrainReportsInQueueOrder(bs[1..]);
    }
  }

  /** The queue `start` builds holds each batch under its number, in increasing order, so a drain reports increasing numbers. */
  lemma {:induction false} QueueNumbersIncrease(store: map<nat, BatchData>, ns: seq<nat>)
    requires forall n :: n in store ==> store[n].number == n
    requires forall i :: 0 <= i < |ns| ==> ns[i] in store
    requires forall i, j :: 0 <= i < j < |ns| ==> ns[i] < ns[j]
    ensures Numbers(Records(store, ns)) == ns
    ensures Increasing(Markers(DrainLog(Records(store, ns))))
  {
    if ns != [] {
      QueueNumbersIncrease(store, ns[1..]);
    }
    DrainReportsInQueueOrder(Records(store, ns));
  }
}
