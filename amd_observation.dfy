/**
 * The `Observation` of the `dist/amd/can-observation.js` bundle, for the
 * parts in which it differs from the `dist/global` one: a `needsUpdate` flag
 * that `registerUpdate` raises and `update` lowers, an `oldValue` kept from
 * `update` to `notify`, a `dependencyChange` with no `ready` check and no
 * synchronous branch, and a `get` that first runs a pending update through
 * the static `Observation.update`.
 *
 * Recording and rebinding (`start`'s pushes, `updateBindings`, `stop`'s edge
 * removal, `getDepth`, `addEdge`, `removeEdge`) are the same text as in
 * `dist/global` and are modelled by `DistObservation.Observation`; here
 * `start` is taken by its effect on `bound` and `value`, and the depth
 * `getDepth()` returns is a parameter.
 *
 * The state the methods change is also given as a value, `ObsState`, with one
 * function per method; the lemmas state what those functions promise.
 */
module AmdObservation {
  import opened Common
  import UpdateOrder
  import AmdScheduler
  import DistObservation

  /** The fields the methods below change. `oldValue` is `None` for `null`. */
  datatype ObsState = ObsState(bound: bool, value: Value, oldValue: Option<Value>, needsUpdate: bool, batchNum: Option<nat>)

  /** What `notify` hands to `compute.updater(newValue, oldValue, batchNum)`. */
  datatype UpdaterCall = UpdaterCall(newValue: Value, oldValue: Option<Value>, batchNum: Option<nat>)

  /** `start()`, with `v` the value of `func.call(context)`. */
  function Started(s: ObsState, v: Value): ObsState
  {
    s.(bound := true, value := v)
  }

  /** `stop()`. */
  function Stopped(s: ObsState): ObsState
  {
    s.(bound := false)
  }

  /** `update(batchNum)`: lower `needsUpdate`; when bound, keep the value as
      `oldValue` and recompute (`v`). */
  function Updated(s: ObsState, v: Value): ObsState
  {
    if s.bound then s.(needsUpdate := false, oldValue := Some(s.value), value := v)
    else s.(needsUpdate := false)
  }

  /** `notify(batchNum)`: the call to the updater, and the state once `oldValue` is cleared. */
  function Notified(s: ObsState, batchNum: Option<nat>): (ObsState, UpdaterCall)
  {
    (s.(oldValue := None), UpdaterCall(s.value, s.oldValue, batchNum))
  }

  /** `dependencyChange(ev)` with `ev.batchNum` as `ev`: the new state and
      whether `Observation.registerUpdate` was called. */
  function Changed(s: ObsState, ev: Option<nat>): (ObsState, bool)
  {
    if s.bound && ev != s.batchNum then (s.(needsUpdate := true, batchNum := ev), true)
    else (s, false)
  }

  /** `get()`: `queued` says whether the observation waits in its cell's
      `updates`, `v` is what a recompute gives and `cold` what an unbound
      `func.call(context)` gives. */
  function Read(s: ObsState, queued: bool, v: Value, cold: Value): (ObsState, Value)
  {
    if !s.bound then (s, cold)
    else if s.needsUpdate && queued then (Updated(s, v), v)
    else (s, s.value)
  }

  /** `update` always clears `needsUpdate`, and changes the value only when bound. */
  lemma UpdateClears(s: ObsState, v: Value)
    ensures !Updated(s, v).needsUpdate
    ensures s.bound ==> Updated(s, v).value == v && Updated(s, v).oldValue == Some(s.value)
    ensures !s.bound ==> Updated(s, v) == s.(needsUpdate := false)
  {
  }

  /** After a bound `update`, `notify` hands the updater the new value and
      the one from before the update, and clears `oldValue`; a second `notify`
      hands it `null`. */
  lemma UpdateThenNotify(s: ObsState, v: Value, b: Option<nat>)
    requires s.bound
    ensures Notified(Updated(s, v), b).1 == UpdaterCall(v, Some(s.value), b)
    ensures Notified(Updated(s, v), b).0.oldValue == None
    ensures Notified(Notified(Updated(s, v), b).0, b).1.oldValue == None
  {
  }

  /** `dependencyChange` registers only when bound and the batch number is
      new, and then remembers it, so a second event of the same batch
      registers nothing. */
  lemma ChangeOncePerBatch(s: ObsState, ev: Option<nat>)
    ensures Changed(s, ev).1 <==> s.bound && ev != s.batchNum
    ensures Changed(s, ev).1 ==> Changed(s, ev).0.needsUpdate && Changed(s, ev).0.batchNum == ev
    ensures !Changed(Changed(s, ev).0, ev).1
  {
  }

  /** A bound `get` with a queued pending update runs it first and returns
      its value; a bound `get` otherwise returns the cached value, and an
      unbound one the cold value, changing nothing. */
  lemma ReadRunsPendingUpdate(s: ObsState, queued: bool, v: Value, cold: Value)
    ensures s.bound && s.needsUpdate && queued ==>
              Read(s, queued, v, cold).1 == v && !Read(s, queued, v, cold).0.needsUpdate &&
              Read(s, queued, v, cold).0.oldValue == Some(s.value)
    ensures s.bound && !(s.needsUpdate && queued) ==> Read(s, queued, v, cold) == (s, s.value)
    ensures !s.bound ==> Read(s, queued, v, cold) == (s, cold)
  {
  }

  class Observation {
    /** `this._cid`. */
    const cid: Id
    /** `getPrimaryDepth()`: `compute._primaryDepth || 0`. */
    const primaryDepth: nat
    var bound: bool
    var value: Value
    var oldValue: Option<Value>
    var needsUpdate: bool
    /** The last batch this observation registered for; `undefined` as `None`. */
    var batchNum: Option<nat>

    function State(): ObsState
      reads this
    {
      ObsState(bound, value, oldValue, needsUpdate, batchNum)
    }

    /** `new Observation(func, context, compute)`: `needsUpdate` false; `bound`,
        `value`, `oldValue` and `batchNum` not yet set (`undefined`). */
    constructor (cid: Id, primaryDepth: nat)
      ensures this.cid == cid && this.primaryDepth == primaryDepth
      ensures State() == ObsState(false, Undefined, Some(Undefined), false, None)
    {
      this.cid := cid;
      this.primaryDepth := primaryDepth;
      bound := false;
      value := Undefined;
      oldValue := Some(Undefined);
      needsUpdate := false;
      batchNum := None;
    }

    /** The cell `registerUpdate` and the static `update` use: `(primaryDepth, getDepth() - 1)`. */
    function CellAt(depth: DistObservation.Level): UpdateOrder.Cell
      reads this
    {
      (primaryDepth, depth - 1)
    }

    /** `start()`, as far as `bound` and `value` go. */
    method Start(v: Value)
      modifies this`bound, this`value
      ensures State() == Started(old(State()), v)
    {
      bound := true;
      value := v;
    }

    /** `stop()`, as far as `bound` goes. */
    method Stop()
      modifies this`bound
      ensures State() == Stopped(old(State()))
    {
      bound := false;
    }

    /** `update(batchNum)`; `v` is the value the `start` call recomputes. */
    method Update(v: Value)
      modifies this`needsUpdate, this`oldValue, this`value, this`bound
      ensures State() == Updated(old(State()), v)
    {
      needsUpdate := false;
      if bound {
        oldValue := Some(value);
        Start(v);
      }
    }

    /** `notify(batchNum)`. */
    method Notify(batchNum: Option<nat>) returns (call: UpdaterCall)
      modifies this`oldValue
      ensures (State(), call) == Notified(old(State()), batchNum)
    {
      var previous := oldValue;
      oldValue := None;
      call := UpdaterCall(value, previous, batchNum);
    }

    /** `Observation.registerUpdate(this, batchNum)`: raise `needsUpdate` and
        push onto the `updates` of cell `(primaryDepth, getDepth() - 1)`. */
    method RegisterUpdate(sched: AmdScheduler.Scheduler, depth: DistObservation.Level)
      requires sched.Valid()
      modifies this`needsUpdate, sched`rows, sched`updates, sched`curPrimaryDepth, sched`maxPrimaryDepth
      ensures sched.Valid() && needsUpdate
      ensures sched.updates == old(sched.updates)[CellAt(depth) := UpdateOrder.StackOf(old(sched.updates), CellAt(depth)) + [cid]]
      ensures UpdateOrder.QueuedOne(old(sched.updates), sched.updates, cid)
    {
      needsUpdate := true;
      sched.Register(UpdateOrder.Registration(cid, primaryDepth, depth - 1));
    }

    /** `dependencyChange(ev)`, with `ev.batchNum` as `ev`. */
    method DependencyChange(ev: Option<nat>, sched: AmdScheduler.Scheduler, depth: DistObservation.Level)
      returns (registered: bool)
      requires sched.Valid()
      modifies this`needsUpdate, this`batchNum, sched`rows, sched`updates, sched`curPrimaryDepth, sched`maxPrimaryDepth
      ensures sched.Valid()
      ensures (State(), registered) == Changed(old(State()), ev)
      ensures registered ==> UpdateOrder.QueuedOne(old(sched.updates), sched.updates, cid)
      ensures !registered ==> sched.updates == old(sched.updates) && sched.rows == old(sched.rows)
    {
      registered := false;
      if bound {
        if ev != batchNum {
          RegisterUpdate(sched, depth);
          batchNum := ev;
          registered := true;
        }
      }
    }

    /** `get()`: bound, run a pending update through the static
        `Observation.update(this)` and return the value; unbound, return the
        cold value `cold`. `v` is the value a recompute gives. */
    method Get(sched: AmdScheduler.Scheduler, depth: DistObservation.Level, v: Value, cold: Value) returns (r: Value)
      requires sched.Valid()
      modifies this`needsUpdate, this`oldValue, this`value, this`bound, sched`updates, sched`notifications, sched`log
      ensures sched.Valid()
      ensures (State(), r) == Read(old(State()), cid in UpdateOrder.StackOf(old(sched.updates), CellAt(depth)), v, cold)
      ensures var c := CellAt(depth);
        old(bound && needsUpdate) && cid in UpdateOrder.StackOf(old(sched.updates), c) ==>
          sched.updates == old(sched.updates)[c := AmdScheduler.Splice(old(sched.updates)[c], AmdScheduler.IndexOf(old(sched.updates)[c], cid))] &&
          sched.notifications == old(sched.notifications)[c := UpdateOrder.StackOf(old(sched.notifications), c) + [cid]] &&
          sched.log == old(sched.log) + [AmdScheduler.Act.Updated(cid, sched.currentBatchNum)]
      ensures !(old(bound && needsUpdate) && cid in UpdateOrder.StackOf(old(sched.updates), CellAt(depth))) ==>
          sched.updates == old(sched.updates) && sched.notifications == old(sched.notifications) && sched.log == old(sched.log)
    {
      if bound {
        if needsUpdate {
          var hit := sched.StaticUpdate(cid, CellAt(depth));
          if hit {
            Update(v);
          }
        }
        r := value;
      } else {
        r := cold;
      }
    }
  }
}
