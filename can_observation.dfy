/**
 * The observation lifecycle of can-observation.js. An `Observation` wraps a
 * function; while it is bound it caches the function's value and is
 * subscribed to exactly the observables the last evaluation read. The
 * function itself is abstract: each call hands the model the `Evaluation`
 * the function produces at that moment (its value and the reads it makes, in order).
 * The derive queue of can-queues and the handler KeyTree are abstract
 * collaborators: the queue is a list of pending update tasks, and the
 * handler tree is a multiset of listeners.
 */
module CanObservation {
  import opened Common
  import opened Subscriptions
  import opened ObservationStack
  import opened DependencyHelpers

  /** What one call of the observation's function does: the value it returns and the reads it makes. */
  datatype Evaluation = Evaluation(value: Value, observes: seq<Read>)

  /** `options`: the derive-queue priority and whether outer observations may observe this one. */
  datatype Options = Options(priority: int, isObservable: bool)

  /** `options || {priority: 0, isObservable: true}` */
  function OptionsOrDefault(options: Option<Options>): (r: Options)
    ensures options.Some? ==> r == options.value
    ensures options.None? ==> r.priority == 0 && r.isObservable
  {
    match options
    case Some(o) => o
    case None => Options(0, true)
  }

  /** A handler registered with `can.onValue(handler, queueName)`. */
  datatype Listener = Listener(queue: string, handler: Id)

  /** The queue a listener lands in: `queueName || "mutate"`. */
  function QueueOrMutate(queueName: Option<string>): (q: string)
    ensures queueName.Some? && queueName.value != "" ==> q == queueName.value
    ensures queueName.None? || queueName.value == "" ==> q == "mutate"
  {
    if queueName.Some? && queueName.value != "" then queueName.value else "mutate"
  }

  /** The identity of the shared `noop` function `temporarilyBind` listens with. */
  const Noop: Id := 0

  /** An `update` task on the derive queue: the observation and the priority it was enqueued with. */
  datatype Task = Task(observation: Id, priority: int)

  /** `queues.enqueueByQueue(handlers, this, [newValue, oldValue])`: the listeners to call and their arguments. */
  datatype Notification = Notification(observation: Id, listeners: multiset<Listener>, newValue: Value, oldValue: Value)

  /** `queues.deriveQueue.isEnqueued(observation.update)` */
  predicate Enqueued(tasks: seq<Task>, o: Id)
  {
    exists i :: 0 <= i < |tasks| && tasks[i].observation == o
  }

  /** `flushQueuedTask` takes the observation's first queued task off the queue. */
  function Dequeue(tasks: seq<Task>, o: Id): (r: seq<Task>)
    ensures Enqueued(tasks, o) ==> |r| == |tasks| - 1
    ensures !Enqueued(tasks, o) ==> r == tasks
    ensures multiset(r) <= multiset(tasks)
    decreases |tasks|
  {
    if tasks == [] then []
    else
      assert tasks == [tasks[0]] + tasks[1..];
      if tasks[0].observation == o then tasks[1..]
      else
      assert Enqueued(tasks[1..], o) ==> Enqueued(tasks, o) by {
        if Enqueued(tasks[1..], o) {
          var i :| 0 <= i < |tasks[1..]| && tasks[1..][i].observation == o;
          assert tasks[i + 1].observation == o;
        }
      }
      assert Enqueued(tasks, o) ==> Enqueued(tasks[1..], o) by {
        if Enqueued(tasks, o) {
          var i :| 0 <= i < |tasks| && tasks[i].observation == o;
          assert tasks[1..][i - 1].observation == o;
        }
      }
      [tasks[0]] + Dequeue(tasks[1..], o)
  }

  /** The can-queues collaborators: the derive queue and the handler calls queued so far. */
  class Queues {
    var derive: seq<Task>
    var notified: seq<Notification>

    constructor ()
      ensures derive == [] && notified == []
    {
      derive := [];
      notified := [];
    }
  }

  /** The list `temporarilyBind` keeps of observations it bound; `None` until the first one. */
  class TemporaryBindings {
    var observables: Option<seq<Id>>

    constructor ()
      ensures observables == None
    {
      observables := None;
    }
  }

  class Observation {
    /** The observation's `_cid`, also the identity of its `onDependencyChange` handler. */
    const id: Id
    const options: Options
    var newDependencies: Frame
    var oldDependencies: Frame?
    var handlers: multiset<Listener>
    var bound: bool
    var value: Value

    /** `new Observation(func, context, options)`: unbound, empty recorder, no handlers. */
    constructor (id: Id, options: Option<Options>)
      ensures this.id == id && this.options == OptionsOrDefault(options)
      ensures !bound && handlers == multiset{} && oldDependencies == null
      ensures fresh(newDependencies) && newDependencies.View() == FrameView(NoDeps, None, 0)
    {
      this.id := id;
      this.options := OptionsOrDefault(options);
      newDependencies := new Frame();
      oldDependencies := null;
      handlers := multiset{};
      bound := false;
      value := Undefined;
    }

    /**
     * `start()`: binds, keeps the current recorder as the old one, evaluates
     * the function inside a fresh recorder frame, keeps that frame as the new
     * recorder, and moves the subscriptions from the old dependencies to the
     * new ones. The recorder stack is left as it was.
     */
    method Start(eval: Evaluation, rec: Recorder, em: Emitter)
      modifies this, newDependencies, rec, em
      ensures bound && value == eval.value && handlers == old(handlers)
      ensures oldDependencies == old(newDependencies) && fresh(newDependencies)
      ensures newDependencies.View() == FrameView(RecordAll(NoDeps, eval.observes), None, 0)
      ensures rec.stack == old(rec.stack)
      ensures em.live == old(em.live) + Subs(id, DepSet(newDependencies.Recorded()) - DepSet(old(newDependencies.Recorded())))
                                      - Subs(id, DepSet(old(newDependencies.Recorded())) - DepSet(newDependencies.Recorded()))
    {
      bound := true;
      var previous := newDependencies;
      ghost var oldDeps := previous.Recorded();
      oldDependencies := previous;
      var frame := Evaluate(eval, rec);
      assert previous.Recorded() == oldDeps && frame != previous;
      value := eval.value;
      newDependencies := frame;
      ghost var newDeps := frame.Recorded();
      UpdateObservations(frame, previous, id, em);
      assert frame.Recorded() == newDeps;
    }

    /** `stop()`: unbinds, drops every subscription of the handler and starts over with an empty recorder. */
    method Stop(em: Emitter)
      modifies this, em
      ensures !bound && value == old(value) && handlers == old(handlers) && oldDependencies == old(oldDependencies)
      ensures fresh(newDependencies) && newDependencies.View() == FrameView(NoDeps, None, 0)
      ensures em.live == old(em.live) - Subs(id, DepSet(old(newDependencies.Recorded())))
    {
      bound := false;
      var previous := newDependencies;
      StopObserving(previous, id, em);
      newDependencies := new Frame();
    }

    /** `dependencyChange()`: queues `update` on the derive queue with the observation's priority, only while bound. */
    method DependencyChange(q: Queues)
      modifies q
      ensures q.derive == old(q.derive) + (if bound then [Task(id, options.priority)] else [])
      ensures q.notified == old(q.notified)
    {
      if bound {
        q.derive := q.derive + [Task(id, options.priority)];
      }
    }

    /**
     * `update()`: while bound, re-evaluates through `start` and, when the new
     * value is not the old one (`!==`), queues the handlers with
     * `[newValue, oldValue]` and returns true. Unbound, it does nothing.
     */
    method Update(eval: Evaluation, rec: Recorder, em: Emitter, q: Queues) returns (changed: bool)
      modifies this, newDependencies, rec, em, q
      ensures changed <==> old(bound) && eval.value != old(value)
      ensures old(bound) ==> value == eval.value && oldDependencies == old(newDependencies) && rec.stack == old(rec.stack)
      ensures old(bound) ==> fresh(newDependencies) && newDependencies.View() == FrameView(RecordAll(NoDeps, eval.observes), None, 0)
      ensures q.notified == old(q.notified) + (if changed then [Notification(id, handlers, eval.value, old(value))] else [])
      ensures q.derive == old(q.derive) && handlers == old(handlers) && bound == old(bound)
      ensures !old(bound) ==> value == old(value) && newDependencies == old(newDependencies) && em.live == old(em.live)
      ensures !old(bound) ==> oldDependencies == old(oldDependencies)
    {
      changed := false;
      if bound {
        var oldValue := value;
        Start(eval, rec, em);
        if oldValue != value {
          q.notified := q.notified + [Notification(id, handlers, value, oldValue)];
          changed := true;
        }
      }
    }

    /** `can.onValue(handler, queueName)`: the first handler starts the observation (KeyTree's `onFirst`). */
    method OnValue(handler: Id, queueName: Option<string>, eval: Evaluation, rec: Recorder, em: Emitter)
      modifies this, newDependencies, rec, em
      ensures handlers == old(handlers) + multiset{Listener(QueueOrMutate(queueName), handler)}
      ensures old(handlers) == multiset{} ==> bound && value == eval.value && oldDependencies == old(newDependencies)
      ensures old(handlers) == multiset{} ==>
                fresh(newDependencies) && newDependencies.View() == FrameView(RecordAll(NoDeps, eval.observes), None, 0)
      ensures old(handlers) != multiset{} ==>
                bound == old(bound) && value == old(value) && newDependencies == old(newDependencies) && em.live == old(em.live) &&
                oldDependencies == old(oldDependencies)
      ensures newDependencies == old(newDependencies) || fresh(newDependencies)
      ensures rec.stack == old(rec.stack)
    {
      var first := handlers == multiset{};
      handlers := handlers + multiset{Listener(QueueOrMutate(queueName), handler)};
      if first {
        Start(eval, rec, em);
      }
    }

    /** `can.offValue(handler, queueName)`: removing the last handler stops the observation (KeyTree's `onEmpty`). */
    method OffValue(handler: Id, queueName: Option<string>, em: Emitter)
      modifies this, em
      ensures handlers == old(handlers) - multiset{Listener(QueueOrMutate(queueName), handler)}
      ensures Listener(QueueOrMutate(queueName), handler) in old(handlers) && handlers == multiset{} ==>
                !bound && fresh(newDependencies) && newDependencies.Recorded() == NoDeps
      ensures !(Listener(QueueOrMutate(queueName), handler) in old(handlers) && handlers == multiset{}) ==>
                bound == old(bound) && newDependencies == old(newDependencies) && em.live == old(em.live)
      ensures value == old(value)
    {
      var l := Listener(QueueOrMutate(queueName), handler);
      if l in handlers {
        handlers := handlers - multiset{l};
        if handlers == multiset{} {
          Stop(em);
        }
      }
    }

    /**
     * `get()`: when observable and some observation is recording, reports a
     * whole-value read of this observation to it and, if unbound, binds
     * temporarily. A bound observation first runs its own pending update if
     * the derive queue holds one, then returns its cached value; an unbound
     * one returns a fresh evaluation of its function. The recording frame
     * is never the observation's own recorder: that one only becomes
     * `newDependencies` once its evaluation has popped it off the stack.
     */
    method Get(eval: Evaluation, rec: Recorder, em: Emitter, q: Queues, temp: TemporaryBindings) returns (v: Value)
      requires rec.stack == [] || rec.Top() != newDependencies
      modifies this, newDependencies, rec, rec.Scope(), em, q, temp
      ensures v == if old(bound) && !Enqueued(old(q.derive), id) then old(value) else eval.value
      ensures bound == (old(bound) || (options.isObservable && Observing(old(rec.View())) && old(handlers) == multiset{}))
      ensures rec.stack == old(rec.stack)
      ensures var seen := if options.isObservable && Observing(old(rec.View())) then Observed(old(rec.View()), Read(id, None)) else old(rec.View());
                rec.View() == if bound then seen else ObservedEach(seen, eval.observes)
      ensures options.isObservable && Observing(old(rec.View())) && !old(bound) ==>
                handlers == old(handlers) + multiset{Listener("mutate", Noop)} &&
                temp.observables == Some((if old(temp.observables).Some? then old(temp.observables).value else []) + [id])
      ensures !(options.isObservable && Observing(old(rec.View())) && !old(bound)) ==>
                handlers == old(handlers) && temp.observables == old(temp.observables)
      ensures q.derive == if bound && Enqueued(old(q.derive), id) then Dequeue(old(q.derive), id) else old(q.derive)
      ensures bound ==> value == v
      ensures !bound ==> value == old(value)
      ensures q.notified == old(q.notified) +
                (if old(bound) && Enqueued(old(q.derive), id) && eval.value != old(value)
                 then [Notification(id, old(handlers), eval.value, old(value))] else [])
      ensures bound && !(old(bound) && !Enqueued(old(q.derive), id)) ==>
                fresh(newDependencies) && newDependencies.View() == FrameView(RecordAll(NoDeps, eval.observes), None, 0)
      ensures !(bound && !(old(bound) && !Enqueued(old(q.derive), id))) ==>
                newDependencies == old(newDependencies) && oldDependencies == old(oldDependencies) && em.live == old(em.live)
    {
      if options.isObservable {
        var recording := rec.IsObserving();
        if recording != null {
          rec.Observe(Read(id, None));
          if !bound {
            TemporarilyBind(this, eval, rec, em, temp);
          }
        }
      }
      if bound {
        if |q.derive| > 0 && Enqueued(q.derive, id) {
          q.derive := Dequeue(q.derive, id);
          var _ := Update(eval, rec, em, q);
        }
        v := value;
      } else {
        rec.ObserveEach(eval.observes);
        v := eval.value;
      }
    }

    /**
     * `can.valueHasDependencies()` as written: `undefined` while unbound, and
     * otherwise `!isEmptyObject(newDependencies)`, which holds for every
     * recorder since a recorder always has its four own properties.
     */
    function ValueHasDependenciesAsWritten(): (r: Option<bool>)
      reads this
      ensures r.None? <==> !bound
      ensures r.Some? ==> r.value
    {
      if bound then Some(RecorderKeyCount > 0) else None
    }

    /** `can.valueHasDependencies()` as intended: whether the bound observation depends on anything. */
    function ValueHasDependencies(): (r: Option<bool>)
      reads this, newDependencies
      ensures r.None? <==> !bound
      ensures r.Some? ==> (r.value <==> DepSet(newDependencies.Recorded()) != {})
    {
      DepSetNonEmpty(newDependencies.Recorded());
      var keys := newDependencies.keyDependencies;
      if bound then Some(newDependencies.valueDependencies != {} || exists o :: o in keys && keys[o] != {}) else None
    }

    /** `can.getValueDependencies()`: the current recorder while bound, `undefined` (here `null`) otherwise. */
    function GetValueDependencies(): (f: Frame?)
      reads this
      ensures f != null <==> bound
      ensures f != null ==> f == newDependencies
    {
      if bound then newDependencies else null
    }
  }

  /** The own properties of a recorder made by `makeDependenciesRecorder`: traps, keyDependencies, valueDependencies, ignore. */
  const RecorderKeyCount := 4

  /**
   * `ObservationStack.start(); func.call(context); ObservationStack.stop()`:
   * the function runs inside a fresh recorder frame, so each of its reads is
   * recorded there, and the popped frame is returned.
   */
  method Evaluate(eval: Evaluation, rec: Recorder) returns (frame: Frame)
    modifies rec
    ensures fresh(frame) && frame.View() == FrameView(RecordAll(NoDeps, eval.observes), None, 0)
    ensures rec.stack == old(rec.stack)
  {
    rec.Start();
    frame := rec.Top();
    for i := 0 to |eval.observes|
      invariant rec.stack == old(rec.stack) + [frame] && fresh(frame)
      invariant frame.View() == FrameView(RecordAll(NoDeps, eval.observes[..i]), None, 0)
    {
      rec.Observe(eval.observes[i]);
      RecordAllSnoc(NoDeps, eval.observes[..i], eval.observes[i]);
      assert eval.observes[..i + 1] == eval.observes[..i] + [eval.observes[i]];
    }
    assert eval.observes[..|eval.observes|] == eval.observes;
    var f := rec.Stop();
  }

  /**
   * `Observation.temporarilyBind(compute)`: listens with `noop` so the value
   * stays cached, and remembers the observation so the timer can unbind it.
   */
  method TemporarilyBind(o: Observation, eval: Evaluation, rec: Recorder, em: Emitter, temp: TemporaryBindings)
    modifies o, o.newDependencies, rec, em, temp
    ensures o.handlers == old(o.handlers) + multiset{Listener("mutate", Noop)}
    ensures temp.observables == Some((if old(temp.observables).Some? then old(temp.observables).value else []) + [o.id])
    ensures old(o.handlers) == multiset{} ==> o.bound && o.value == eval.value
    ensures old(o.handlers) == multiset{} ==>
              fresh(o.newDependencies) && o.newDependencies.View() == FrameView(RecordAll(NoDeps, eval.observes), None, 0)
    ensures old(o.handlers) != multiset{} ==> o.bound == old(o.bound) && o.value == old(o.value)
    ensures old(o.handlers) != multiset{} ==>
              o.newDependencies == old(o.newDependencies) && o.oldDependencies == old(o.oldDependencies) && em.live == old(em.live)
    ensures o.newDependencies == old(o.newDependencies) || fresh(o.newDependencies)
    ensures rec.stack == old(rec.stack)
  {
    o.OnValue(Noop, None, eval, rec, em);
    if temp.observables.None? {
      temp.observables := Some([]);
    }
    temp.observables := Some(temp.observables.value + [o.id]);
  }

  /** A bound observation without dependencies: the written `valueHasDependencies` says it has some. */
  method ValueHasDependenciesWithoutReads(rec: Recorder, em: Emitter) returns (asWritten: Option<bool>, intended: Option<bool>)
    modifies rec, em
    ensures asWritten == Some(true) && intended == Some(false)
  {
    var o := new Observation(1, None);
    o.Start(Evaluation(7, []), rec, em);
    asWritten := o.ValueHasDependenciesAsWritten();
    intended := o.ValueHasDependencies();
  }

  // ---------------------------------------------------------------------
  // updateChildrenAndSelf (can-observation.js:207-227)

  /** What `updateChildrenAndSelf` sees of an observable. */
  datatype Node =
    | Plain                                   // neither an `update` nor `can.getValueDependencies`
    | Derived(bound: bool, children: seq<Id>) // an Observation: `bound`, and its recorder's `valueDependencies` in insertion order

  /** Every child is in the graph and ranks below its parent: the value-dependency graph has no cycle. */
  ghost predicate Ranked(graph: map<Id, Node>, rank: map<Id, nat>)
  {
    graph.Keys <= rank.Keys &&
    forall o, i :: o in graph && graph[o].Derived? && 0 <= i < |graph[o].children| ==>
      graph[o].children[i] in graph && rank[graph[o].children[i]] < rank[o]
  }

  /** Whether some update was flushed, and which observations are still enqueued on the derive queue. */
  datatype Flushed = Flushed(changed: bool, enqueued: set<Id>)

  /**
   * `Observation.updateChildrenAndSelf(observation)`: an observation whose
   * update is enqueued has it flushed and reports true; otherwise every value
   * dependency is visited in turn and the result says whether any of them
   * flushed something. Reading the dependencies of an unbound observation
   * reads `.valueDependencies` of `undefined` and throws.
   */
  function UpdateChildrenAndSelf(graph: map<Id, Node>, rank: map<Id, nat>, enqueued: set<Id>, o: Id): (r: Outcome<Flushed>)
    requires Ranked(graph, rank) && o in graph
    ensures r.Returned? ==> r.value.enqueued <= enqueued
    ensures r.Returned? ==> (r.value.changed <==> r.value.enqueued != enqueued)
    ensures r.Returned? ==> forall x :: x in enqueued - r.value.enqueued ==> x in graph && graph[x].Derived?
    ensures graph[o].Derived? && o in enqueued ==> r == Returned(Flushed(true, enqueued - {o}))
    ensures graph[o].Derived? && o !in enqueued && !graph[o].bound ==> r == TypeError
    ensures graph[o].Plain? ==> r == Returned(Flushed(false, enqueued))
    decreases rank[o], 1, 0
  {
    match graph[o]
    case Plain => Returned(Flushed(false, enqueued))
    case Derived(bound, children) =>
      if o in enqueued then Returned(Flushed(true, enqueued - {o}))
      else if !bound then TypeError
      else UpdateChildren(graph, rank, enqueued, o, children, false)
  }

  /** The `valueDependencies.forEach` of `updateChildrenAndSelf`, carrying `childHasChanged`. */
  function UpdateChildren(graph: map<Id, Node>, rank: map<Id, nat>, enqueued: set<Id>, parent: Id, children: seq<Id>, changed: bool)
    : (r: Outcome<Flushed>)
    requires Ranked(graph, rank) && parent in rank
    requires forall i :: 0 <= i < |children| ==> children[i] in graph && rank[children[i]] < rank[parent]
    ensures r.Returned? ==> r.value.enqueued <= enqueued
    ensures r.Returned? ==> (r.value.changed <==> changed || r.value.enqueued != enqueued)
    ensures r.Returned? ==> forall x :: x in enqueued - r.value.enqueued ==> x in graph && graph[x].Derived?
    decreases rank[parent], 0, |children|
  {
    if children == [] then Returned(Flushed(changed, enqueued))
    else
      match UpdateChildrenAndSelf(graph, rank, enqueued, children[0])
      case TypeError => TypeError
      case Returned(child) => UpdateChildren(graph, rank, child.enqueued, parent, children[1..], changed || child.changed)
  }

  /** When every observation in the graph is bound, `updateChildrenAndSelf` never throws. */
  lemma {:induction false} AllBoundNeverThrows(graph: map<Id, Node>, rank: map<Id, nat>, enqueued: set<Id>, o: Id)
    requires Ranked(graph, rank) && o in graph
    requires forall x :: x in graph && graph[x].Derived? ==> graph[x].bound
    ensures UpdateChildrenAndSelf(graph, rank, enqueued, o).Returned?
    decreases rank[o], 1, 0
  {
    match graph[o]
    case Plain =>
    case Derived(bound, children) =>
      if o !in enqueued {
        ChildrenNeverThrow(graph, rank, enqueued, o, children, false);
      }
  }

  lemma {:induction false} ChildrenNeverThrow(graph: map<Id, Node>, rank: map<Id, nat>, enqueued: set<Id>, parent: Id,
                                              children: seq<Id>, changed: bool)
    requires Ranked(graph, rank) && parent in rank
    requires forall i :: 0 <= i < |children| ==> children[i] in graph && rank[children[i]] < rank[parent]
    requires forall x :: x in graph && graph[x].Derived? ==> graph[x].bound
    ensures UpdateChildren(graph, rank, enqueued, parent, children, changed).Returned?
    decreases rank[parent], 0, |children|
  {
    if children != [] {
      AllBoundNeverThrows(graph, rank, enqueued, children[0]);
      var child := UpdateChildrenAndSelf(graph, rank, enqueued, children[0]).value;
      ChildrenNeverThrow(graph, rank, child.enqueued, parent, children[1..], changed || child.changed);
    }
  }
}
