/**
 * The `Observation` of `can-observation` 3.0 as bundled in
 * `dist/global/can-observation.js` (and, under the name `ObservedInfo`, in
 * `dist/amd/can-observe-info.js`, whose methods are the same text).
 *
 * An observation records the reads its compute makes as edges named
 * `cid|event` in `newObserved`; `updateBindings` binds the new-only edges and
 * unbinds the old-only ones. Each edge on an object that is itself backed by
 * an observation also records that object's depth in `childDepths`, and the
 * observation's own depth (`1 + max(childDepths)`) is cached in `depth` until
 * such an edge is added or removed.
 *
 * The module-level `observationStack` and the statics `add`, `addAll`,
 * `ignore`, `trap`, `trapsCount` and `isRecording` form the `Recorder` class.
 */
module DistObservation {
  import opened Common
  import opened Subscriptions
  import DependencyHelpers
  import UpdateOrder

  /** One edge `{obj, event}`; its name `obj._cid + '|' + event` is the pair itself. */
  datatype ObEv = ObEv(obj: Id, event: Key)

  /** The subscription an edge stands for (`obj.addEventListener(event, …)`). */
  function DepOf(e: ObEv): Dep
  {
    KeyDep(e.obj, e.event)
  }

  ghost function DepsOf(s: set<ObEv>): set<Dep>
  {
    set e | e in s :: DepOf(e)
  }

  /** The objects a set of edges reads. */
  function Objs(s: set<ObEv>): set<Id>
  {
    set e | e in s :: e.obj
  }

  lemma ObjsAdd(s: set<ObEv>, e: ObEv)
    ensures Objs(s + {e}) == Objs(s) + {e.obj}
  {
  }

  /** The edges of a list of reads, without repeats. */
  function ReadSet(rs: seq<ObEv>): set<ObEv>
  {
    set e | e in rs
  }

  /** A depth: at least 1. */
  type Level = d: nat | 1 <= d witness 1

  /** What `updateUntil`'s callers hand to `compute.updater(newValue, oldValue, batchNum)`. */
  datatype UpdaterCall = UpdaterCall(newValue: Value, oldValue: Value, batchNum: Option<nat>)

  // ---------------------------------------------------------------------
  // Depth

  /** `d` is one more than the largest child depth, and at least 1. */
  ghost predicate IsDepth(children: map<Id, nat>, d: nat)
  {
    d >= 1 &&
    (forall c :: c in children ==> children[c] < d) &&
    (d == 1 || exists c :: c in children && children[c] + 1 == d)
  }

  /** The depth of a set of child depths is unique. */
  lemma DepthUnique(children: map<Id, nat>, d1: nat, d2: nat)
    requires IsDepth(children, d1) && IsDepth(children, d2)
    ensures d1 == d2
  {
  }

  // ---------------------------------------------------------------------
  // Child depths across `updateBindings`

  /** `childDepths[obj._cid] = obj.observation.getDepth()` for each observation-backed object in `objs`. */
  function Attach(children: map<Id, nat>, backed: map<Id, nat>, objs: set<Id>): map<Id, nat>
  {
    map x | x in children.Keys + objs * backed.Keys :: if x in objs * backed.Keys then backed[x] else children[x]
  }

  /** `delete childDepths[obj._cid]` for each object in `objs`. */
  function Detach(children: map<Id, nat>, objs: set<Id>): map<Id, nat>
  {
    map x | x in children.Keys - objs :: children[x]
  }

  /** `childDepths` holds an entry for exactly the observation-backed objects the edges read. */
  ghost predicate Tracks(children: map<Id, nat>, backed: map<Id, nat>, edges: set<ObEv>)
  {
    children.Keys == Objs(edges) * backed.Keys
  }

  /**
   * `childDepths` after `updateBindings` as written: the first loop attaches
   * the objects of new-only edges, then the second deletes the object of
   * every old-only edge, even one that a kept or new edge still reads.
   */
  function ChildrenAsWritten(children: map<Id, nat>, backed: map<Id, nat>, was: set<ObEv>, now: set<ObEv>): map<Id, nat>
  {
    Detach(Attach(children, backed, Objs(now - was)), Objs(was - now) * backed.Keys)
  }

  /** `childDepths` after `updateBindings` when an object's entry is deleted only once no edge reads it. */
  function Children(children: map<Id, nat>, backed: map<Id, nat>, was: set<ObEv>, now: set<ObEv>): map<Id, nat>
  {
    Detach(Attach(children, backed, Objs(now - was)), (Objs(was - now) - Objs(now)) * backed.Keys)
  }

  /**
   * Switching an observation-backed child from one event to another loses
   * the child as written: before, `childDepths` tracked the edges; after,
   * the child is still read but has no entry, so it no longer counts
   * towards the depth.
   */
  lemma ChildrenAsWrittenDropsChild()
    ensures var was, now, backed := {ObEv(7, "a")}, {ObEv(7, "b")}, map[7 := 2];
            Tracks(map[7 := 2], backed, was) &&
            7 in Objs(now) * backed.Keys &&
            !Tracks(ChildrenAsWritten(map[7 := 2], backed, was, now), backed, now)
  {
    var was, now, backed := {ObEv(7, "a")}, {ObEv(7, "b")}, map[7 := 2];
    assert ObEv(7, "a") in was;
    assert ObEv(7, "b") in now;
    assert ObEv(7, "b") in now - was;
    assert ObEv(7, "a") in was - now;
    assert 7 in Objs(was - now);
    assert 7 !in ChildrenAsWritten(map[7 := 2], backed, was, now);
  }

  /** With deletion only of objects no edge reads any more, `childDepths` keeps tracking the edges. */
  lemma ChildrenTrack(children: map<Id, nat>, backed: map<Id, nat>, was: set<ObEv>, now: set<ObEv>)
    requires Tracks(children, backed, was)
    ensures Tracks(Children(children, backed, was, now), backed, now)
  {
    var after := Children(children, backed, was, now);
    forall x | x in Objs(now) * backed.Keys ensures x in after {
      var e :| e in now && e.obj == x;
      if e !in was {
        assert x in Objs(now - was);
      } else {
        assert x in Objs(was);
      }
    }
    forall x | x in after ensures x in Objs(now) * backed.Keys {
      if x !in Objs(now - was) {
        assert x in Objs(was);
        var e :| e in was && e.obj == x;
        if e !in now {
          assert x in Objs(was - now);
        }
      }
    }
  }

  /** An observation-backed object's entry in `childDepths` is its depth when the edge was added. */
  lemma ChildrenRecordNewDepths(children: map<Id, nat>, backed: map<Id, nat>, was: set<ObEv>, now: set<ObEv>, x: Id)
    requires x in Objs(now - was) * backed.Keys
    ensures x in Children(children, backed, was, now) && Children(children, backed, was, now)[x] == backed[x]
  {
  }

  // ---------------------------------------------------------------------
  // The recorder's view of a frame

  /** What the top observation holds for the recorder: its edges, its trap list if any, and its ignore counter. */
  datatype FrameView = FrameView(observed: set<ObEv>, trapped: Option<seq<ObEv>>, ignore: nat)

  /** Reads reach the top frame: there is one and its ignore counter is 0. */
  predicate Observing(v: Option<FrameView>)
  {
    v.Some? && v.value.ignore == 0
  }

  /** `Observation.add(obj, event)` on the top frame: trapped, recorded once by name, or dropped. */
  function Added(v: Option<FrameView>, e: ObEv): Option<FrameView>
  {
    if !Observing(v) then v
    else match v.value.trapped
      case Some(items) => Some(v.value.(trapped := Some(items + [e])))
      case None => Some(v.value.(observed := v.value.observed + {e}))
  }

  /** `add` for each read in turn. */
  function AddedEach(v: Option<FrameView>, rs: seq<ObEv>): Option<FrameView>
    decreases |rs|
  {
    if rs == [] then v else AddedEach(Added(v, rs[0]), rs[1..])
  }

  /**
   * `Observation.addAll(observes)`: an active trap takes the whole list,
   * otherwise each edge is recorded once by name. Unlike `add`, the ignore
   * counter is not consulted.
   */
  function AddedAll(v: Option<FrameView>, rs: seq<ObEv>): Option<FrameView>
  {
    if v.None? then v
    else match v.value.trapped
      case Some(items) => Some(v.value.(trapped := Some(items + rs)))
      case None => Some(v.value.(observed := v.value.observed + ReadSet(rs)))
  }

  /**
   * Reads made while the top frame observes land in its trap list, in
   * order, when a trap is active, and among its edges otherwise; reads made
   * while it does not observe change nothing.
   */
  lemma {:induction false} AddedEachKeeps(v: Option<FrameView>, rs: seq<ObEv>)
    ensures !Observing(v) ==> AddedEach(v, rs) == v
    ensures Observing(v) && v.value.trapped.Some? ==>
              AddedEach(v, rs) == Some(v.value.(trapped := Some(v.value.trapped.value + rs)))
    ensures Observing(v) && v.value.trapped.None? ==>
              AddedEach(v, rs) == Some(v.value.(observed := v.value.observed + ReadSet(rs)))
    decreases |rs|
  {
    if rs == [] {
      assert ReadSet(rs) == {};
      if v.Some? && v.value.trapped.Some? {
        assert v.value.trapped.value + rs == v.value.trapped.value;
      } else if v.Some? {
        assert v.value.observed + ReadSet(rs) == v.value.observed;
      }
    } else {
      AddedEachKeeps(Added(v, rs[0]), rs[1..]);
      assert rs == [rs[0]] + rs[1..];
      assert ReadSet(rs) == {rs[0]} + ReadSet(rs[1..]);
      if Observing(v) && v.value.trapped.Some? {
        assert v.value.trapped.value + [rs[0]] + rs[1..] == v.value.trapped.value + rs;
      } else if Observing(v) {
        assert v.value.observed + {rs[0]} + ReadSet(rs[1..]) == v.value.observed + ReadSet(rs);
      }
    }
  }

  /** When the top frame observes, `addAll` does what `add` on each edge would. */
  lemma AddedAllIsEachAdded(v: Option<FrameView>, rs: seq<ObEv>)
    requires Observing(v)
    ensures AddedAll(v, rs) == AddedEach(v, rs)
  {
    AddedEachKeeps(v, rs);
  }

  /** While the top frame ignores reads, `add` drops them but `addAll` still records them. */
  lemma AddedAllWhileIgnoring(v: Option<FrameView>, rs: seq<ObEv>)
    requires v.Some? && v.value.ignore > 0 && v.value.trapped.None?
    ensures AddedEach(v, rs) == v
    ensures AddedAll(v, rs).value.observed == v.value.observed + ReadSet(rs)
  {
    AddedEachKeeps(v, rs);
  }

  /** Adding the same edge twice records it once. */
  lemma AddedIdempotent(v: Option<FrameView>, e: ObEv)
    requires v.Some? ==> v.value.trapped.None?
    ensures Added(Added(v, e), e) == Added(v, e)
  {
    if Observing(v) {
      assert v.value.observed + {e} + {e} == v.value.observed + {e};
    }
  }

  // ---------------------------------------------------------------------
  // Subscriptions of edges

  /** Some edge of a non-empty set, the same one each time. */
  ghost function AnEdge(s: set<ObEv>): (e: ObEv)
    requires s != {}
    ensures e in s
  {
    var e :| e in s; e
  }

  /** One subscription of the observation to each edge of `s`, one edge at a time. */
  ghost function EdgeSubs(cid: Id, s: set<ObEv>): multiset<Subscription>
    decreases |s|
  {
    if s == {} then multiset{}
    else EdgeSubs(cid, s - {AnEdge(s)}) + multiset{Subscription(cid, DepOf(AnEdge(s)))}
  }

  /** The edges `s` make one subscription to each of their edges, whatever order they are taken in, and no other. */
  lemma {:induction false} EdgeSubsCount(cid: Id, s: set<ObEv>, sub: Subscription)
    ensures EdgeSubs(cid, s)[sub] == if sub.handler == cid && sub.dep.KeyDep? && ObEv(sub.dep.obj, sub.dep.key) in s then 1 else 0
    decreases |s|
  {
    if s != {} {
      EdgeSubsCount(cid, s - {AnEdge(s)}, sub);
    }
  }

  lemma EdgeSubsIsSubs(cid: Id, s: set<ObEv>)
    ensures EdgeSubs(cid, s) == Subs(cid, DepsOf(s))
  {
    forall sub ensures EdgeSubs(cid, s)[sub] == Subs(cid, DepsOf(s))[sub] {
      EdgeSubsCount(cid, s, sub);
      SubsCount(cid, DepsOf(s), sub);
      if sub.dep in DepsOf(s) {
        var e :| e in s && DepOf(e) == sub.dep;
        assert ObEv(sub.dep.obj, sub.dep.key) == e;
      } else if sub.dep.KeyDep? && ObEv(sub.dep.obj, sub.dep.key) in s {
        assert DepOf(ObEv(sub.dep.obj, sub.dep.key)) in DepsOf(s);
      }
    }
  }

  /** Binding one more edge adds one subscription. */
  lemma EdgeSubsStep(cid: Id, a: set<ObEv>, e: ObEv)
    requires e !in a
    ensures EdgeSubs(cid, a + {e}) == EdgeSubs(cid, a) + multiset{Subscription(cid, DepOf(e))}
  {
    forall sub ensures EdgeSubs(cid, a + {e})[sub] == (EdgeSubs(cid, a) + multiset{Subscription(cid, DepOf(e))})[sub] {
      EdgeSubsCount(cid, a + {e}, sub);
      EdgeSubsCount(cid, a, sub);
    }
  }

  /** The subscriptions of a subset of the edges are among those of the edges. */
  lemma EdgeSubsSubset(cid: Id, a: set<ObEv>, b: set<ObEv>)
    requires a <= b
    ensures EdgeSubs(cid, a) <= EdgeSubs(cid, b)
  {
    forall sub ensures EdgeSubs(cid, a)[sub] <= EdgeSubs(cid, b)[sub] {
      EdgeSubsCount(cid, a, sub);
      EdgeSubsCount(cid, b, sub);
    }
  }

  /** `live` is `live0` with the observation's subscriptions to the edges `was` swapped for subscriptions to the edges `now`. */
  ghost predicate Swapped(live0: multiset<Subscription>, live: multiset<Subscription>, cid: Id, was: set<ObEv>, now: set<ObEv>)
  {
    live + EdgeSubs(cid, was) == live0 + EdgeSubs(cid, now)
  }

  /**
   * `updateBindings` and `stop`: an observation bound once to each edge of
   * `was` whose subscriptions to `was` are swapped for subscriptions to
   * `now` is bound once to each edge of `now` and to nothing else, and no
   * other handler's subscriptions change.
   */
  lemma BindingsExact(live0: multiset<Subscription>, live: multiset<Subscription>, cid: Id, was: set<ObEv>, now: set<ObEv>)
    requires Of(live0, cid) == EdgeSubs(cid, was)
    requires Swapped(live0, live, cid, was, now)
    ensures Of(live, cid) == EdgeSubs(cid, now)
    ensures forall h | h != cid :: Of(live, h) == Of(live0, h)
  {
    OfCount(live0, cid);
    OfCount(live, cid);
    forall sub ensures Of(live, cid)[sub] == EdgeSubs(cid, now)[sub] {
      EdgeSubsCount(cid, was, sub);
      EdgeSubsCount(cid, now, sub);
      assert (live + EdgeSubs(cid, was))[sub] == (live0 + EdgeSubs(cid, now))[sub];
    }
    forall h | h != cid ensures Of(live, h) == Of(live0, h) {
      OfCount(live0, h);
      OfCount(live, h);
      forall sub ensures Of(live, h)[sub] == Of(live0, h)[sub] {
        EdgeSubsCount(cid, was, sub);
        EdgeSubsCount(cid, now, sub);
        assert (live + EdgeSubs(cid, was))[sub] == (live0 + EdgeSubs(cid, now))[sub];
      }
    }
  }

  /** An observation bound exactly to the edges `was` holds a live subscription to each of them. */
  lemma {:induction false} ExactCovers(live: multiset<Subscription>, cid: Id, was: set<ObEv>)
    requires Of(live, cid) == EdgeSubs(cid, was)
    ensures EdgeSubs(cid, was) <= live
  {
    OfCount(live, cid);
    forall sub ensures EdgeSubs(cid, was)[sub] <= live[sub] {
      EdgeSubsCount(cid, was, sub);
    }
  }

  /**
   * The two loops of `updateBindings` together: binding the new-only edges
   * and then unbinding the old-only ones swaps the subscriptions to `was`
   * for subscriptions to `now`.
   */
  lemma SwapComposes(live0: multiset<Subscription>, live1: multiset<Subscription>, live2: multiset<Subscription>,
                     cid: Id, was: set<ObEv>, now: set<ObEv>)
    requires live1 == live0 + EdgeSubs(cid, now - was)
    requires live2 + EdgeSubs(cid, was - now) == live1
    ensures Swapped(live0, live2, cid, was, now)
  {
    forall sub ensures (live2 + EdgeSubs(cid, was))[sub] == (live0 + EdgeSubs(cid, now))[sub] {
      EdgeSubsCount(cid, was, sub);
      EdgeSubsCount(cid, now, sub);
      EdgeSubsCount(cid, was - now, sub);
      EdgeSubsCount(cid, now - was, sub);
      assert (live2 + EdgeSubs(cid, was - now))[sub] == live1[sub];
    }
  }

  /** `stop` after binding: the observation is bound to nothing. */
  lemma StopExact(live0: multiset<Subscription>, live: multiset<Subscription>, cid: Id, edges: set<ObEv>)
    requires Of(live0, cid) == EdgeSubs(cid, edges)
    requires live + EdgeSubs(cid, edges) == live0
    ensures Of(live, cid) == multiset{}
  {
    BindingsExact(live0, live, cid, edges, {});
  }

  /** The state the first loop of `updateBindings` keeps while it walks the new edges. */
  ghost predicate Binding(live0: multiset<Subscription>, live: multiset<Subscription>, cid: Id,
                          children0: map<Id, nat>, children: map<Id, nat>, backed: map<Id, nat>,
                          was: set<ObEv>, now: set<ObEv>, done: set<ObEv>, todo: set<ObEv>, remaining: set<ObEv>)
  {
    done !! todo && done + todo == now &&
    remaining == was - done &&
    live == live0 + EdgeSubs(cid, done - was) &&
    children == Attach(children0, backed, Objs(done - was))
  }

  lemma BindingStart(live0: multiset<Subscription>, cid: Id, children0: map<Id, nat>, backed: map<Id, nat>,
                     was: set<ObEv>, now: set<ObEv>)
    ensures Binding(live0, live0, cid, children0, children0, backed, was, now, {}, now, was)
  {
    assert {} - was == {};
    assert Objs({}) == {};
    assert Attach(children0, backed, {}) == children0;
  }

  /** A new-only edge: bound, and its object attached when observation-backed. */
  lemma BindingAdd(live0: multiset<Subscription>, live: multiset<Subscription>, cid: Id,
                   children0: map<Id, nat>, children: map<Id, nat>, backed: map<Id, nat>,
                   was: set<ObEv>, now: set<ObEv>, done: set<ObEv>, todo: set<ObEv>, remaining: set<ObEv>, e: ObEv)
    requires Binding(live0, live, cid, children0, children, backed, was, now, done, todo, remaining)
    requires e in todo && e !in remaining
    ensures Binding(live0, live + multiset{Subscription(cid, DepOf(e))}, cid, children0,
                    if e.obj in backed then children[e.obj := backed[e.obj]] else children, backed,
                    was, now, done + {e}, todo - {e}, remaining)
  {
    MoveOne(done, todo, now, e);
    assert e !in was;
    assert (done + {e}) - was == (done - was) + {e};
    EdgeSubsStep(cid, done - was, e);
    ObjsAdd(done - was, e);
    AttachOne(children0, backed, Objs(done - was), e.obj);
  }

  /** Attaching one more object: its entry is set when it is observation-backed. */
  lemma AttachOne(children0: map<Id, nat>, backed: map<Id, nat>, objs: set<Id>, x: Id)
    ensures Attach(children0, backed, objs + {x}) ==
            if x in backed then Attach(children0, backed, objs)[x := backed[x]] else Attach(children0, backed, objs)
  {
  }

  /** An edge both sets hold: cleared from the old set instead of being bound. */
  lemma BindingKeep(live0: multiset<Subscription>, live: multiset<Subscription>, cid: Id,
                    children0: map<Id, nat>, children: map<Id, nat>, backed: map<Id, nat>,
                    was: set<ObEv>, now: set<ObEv>, done: set<ObEv>, todo: set<ObEv>, remaining: set<ObEv>, e: ObEv)
    requires Binding(live0, live, cid, children0, children, backed, was, now, done, todo, remaining)
    requires e in todo && e in remaining
    ensures Binding(live0, live, cid, children0, children, backed, was, now, done + {e}, todo - {e}, remaining - {e})
  {
    MoveOne(done, todo, now, e);
    assert (done + {e}) - was == done - was;
  }

  /**
   * The state an unbinding loop (the second loop of `updateBindings`, or
   * `stop`) keeps while it walks the edges `stale`: the observation-backed
   * objects of the edges done so far are deleted, except those in `kept`.
   */
  ghost predicate Unbinding(live0: multiset<Subscription>, live: multiset<Subscription>, cid: Id,
                            children0: map<Id, nat>, children: map<Id, nat>, backed: set<Id>,
                            stale: set<ObEv>, kept: set<Id>, done: set<ObEv>, todo: set<ObEv>)
  {
    done !! todo && done + todo == stale &&
    live + EdgeSubs(cid, done) == live0 &&
    children == Detach(children0, (Objs(done) - kept) * backed)
  }

  lemma UnbindingStart(live0: multiset<Subscription>, cid: Id, children0: map<Id, nat>, backed: set<Id>,
                       stale: set<ObEv>, kept: set<Id>)
    ensures Unbinding(live0, live0, cid, children0, children0, backed, stale, kept, {}, stale)
  {
    assert EdgeSubs(cid, {}) == multiset{};
    assert Objs({}) == {};
    assert Detach(children0, {}) == children0;
  }

  lemma UnbindingRemove(live0: multiset<Subscription>, live: multiset<Subscription>, cid: Id,
                        children0: map<Id, nat>, children: map<Id, nat>, backed: set<Id>,
                        stale: set<ObEv>, kept: set<Id>, done: set<ObEv>, todo: set<ObEv>, e: ObEv)
    requires Unbinding(live0, live, cid, children0, children, backed, stale, kept, done, todo)
    requires e in todo && EdgeSubs(cid, stale) <= live0
    ensures Unbinding(live0, live - multiset{Subscription(cid, DepOf(e))}, cid, children0,
                      if e.obj in backed && e.obj !in kept then children - {e.obj} else children, backed,
                      stale, kept, done + {e}, todo - {e})
  {
    MoveOne(done, todo, stale, e);
    UnbindOne(live0, live, cid, stale, done, e);
    DetachOne(children0, done, e, backed, kept);
  }

  /** Unbinding one more edge of `stale`: its subscription was live and is taken away. */
  lemma UnbindOne(live0: multiset<Subscription>, live: multiset<Subscription>, cid: Id, stale: set<ObEv>, done: set<ObEv>, e: ObEv)
    requires live + EdgeSubs(cid, done) == live0 && EdgeSubs(cid, stale) <= live0
    requires e in stale && e !in done
    ensures (live - multiset{Subscription(cid, DepOf(e))}) + EdgeSubs(cid, done + {e}) == live0
  {
    var s := Subscription(cid, DepOf(e));
    var rest := live - multiset{s};
    forall x ensures (rest + EdgeSubs(cid, done + {e}))[x] == live0[x] {
      EdgeSubsCount(cid, stale, x);
      EdgeSubsCount(cid, done, x);
      EdgeSubsCount(cid, done + {e}, x);
      assert live0[x] == live[x] + EdgeSubs(cid, done)[x];
      if x == s {
        assert rest[x] == live[x] - 1;
      } else {
        assert rest[x] == live[x];
      }
    }
  }

  /** Detaching the objects of one more edge: its object goes unless it is kept or not observation-backed. */
  lemma DetachOne(children0: map<Id, nat>, done: set<ObEv>, e: ObEv, backed: set<Id>, kept: set<Id>)
    ensures Detach(children0, (Objs(done + {e}) - kept) * backed) ==
            if e.obj in backed && e.obj !in kept then Detach(children0, (Objs(done) - kept) * backed) - {e.obj}
            else Detach(children0, (Objs(done) - kept) * backed)
  {
    ObjsAdd(done, e);
  }

  // ---------------------------------------------------------------------
  // The observation

  /** A trap list; the untrap function and the observation share it. */
  class TrapBuffer {
    var items: seq<ObEv>

    constructor ()
      ensures items == []
    {
      items := [];
    }
  }

  /** How `dependencyChange` reacted to an event. */
  datatype Reaction = Ignored | Registered(at: UpdateOrder.Registration) | Recomputed(call: Option<UpdaterCall>)

  class Observation {
    /** `this._cid`, the name other observations know this one by. */
    const cid: Id
    /** `getPrimaryDepth()`: `compute._primaryDepth || 0`. */
    const primaryDepth: nat
    var newObserved: set<ObEv>
    /** `oldObserved`, `null` as `None`; an entry nulled by `updateBindings` is removed. */
    var oldObserved: Option<set<ObEv>>
    /** The cached depth, `null` as `None`. */
    var depth: Option<Level>
    var childDepths: map<Id, nat>
    var ignore: nat
    var traps: TrapBuffer?
    var bound: bool
    var ready: bool
    /** The last batch this observation registered for; `undefined` as `None`. */
    var batchNum: Option<nat>
    var value: Value

    /** `new Observation(func, context, compute)`: nothing recorded, unbound, not ready. */
    constructor (cid: Id, primaryDepth: nat)
      ensures this.cid == cid && this.primaryDepth == primaryDepth
      ensures newObserved == {} && oldObserved == None && depth == None && childDepths == map[]
      ensures ignore == 0 && traps == null && !bound && !ready && batchNum == None && value == Undefined
    {
      this.cid := cid;
      this.primaryDepth := primaryDepth;
      newObserved := {};
      oldObserved := None;
      depth := None;
      childDepths := map[];
      ignore := 0;
      traps := null;
      bound := false;
      ready := false;
      batchNum := None;
      value := Undefined;
    }

    /** The cached depth, when there is one, is the depth of the child depths. */
    ghost predicate DepthCached()
      reads this`depth, this`childDepths
    {
      depth.Some? ==> IsDepth(childDepths, depth.value)
    }

    /** The trap list, if one is installed. */
    function Trapping(): set<TrapBuffer>
      reads this`traps
    {
      if traps == null then {} else {traps}
    }

    /** What this observation holds when it is the recorder's top frame. */
    function View(): FrameView
      reads this`newObserved, this`traps, this`ignore, Trapping()`items
    {
      FrameView(newObserved, if traps == null then None else Some(traps.items), ignore)
    }

    /** `_getDepth()`: one more than the largest child depth. */
    method ComputeDepth() returns (d: Level)
      ensures IsDepth(childDepths, d)
    {
      var max := 0;
      var todo := childDepths.Keys;
      while todo != {}
        invariant todo <= childDepths.Keys
        invariant forall c :: c in childDepths && c !in todo ==> childDepths[c] <= max
        invariant max == 0 || exists c :: c in childDepths && c !in todo && childDepths[c] == max
        decreases todo
      {
        var c :| c in todo;
        if childDepths[c] > max {
          max := childDepths[c];
        }
        todo := todo - {c};
      }
      d := max + 1;
    }

    /** `getDepth()`: the cached depth, else the computed one, which is then cached. */
    method GetDepth() returns (d: Level)
      modifies this`depth
      ensures depth == Some(d)
      ensures old(depth).Some? ==> d == old(depth).value
      ensures old(depth).None? || old(DepthCached()) ==> IsDepth(childDepths, d)
      ensures old(DepthCached()) ==> DepthCached()
    {
      if depth.Some? {
        d := depth.value;
      } else {
        d := ComputeDepth();
        depth := Some(d);
      }
    }

    /**
     * `addEdge(objEv)`: binds to the edge; `backing` is the depth of the
     * observation behind the edge's object, when there is one, which is
     * recorded as a child depth and drops the cached depth.
     */
    method AddEdge(e: ObEv, em: Emitter, backing: Option<nat>)
      modifies em, this`childDepths, this`depth
      ensures em.live == old(em.live) + multiset{Subscription(cid, DepOf(e))}
      ensures backing.Some? ==> childDepths == old(childDepths)[e.obj := backing.value] && depth == None
      ensures backing.None? ==> childDepths == old(childDepths) && depth == old(depth)
    {
      em.On(Subscription(cid, DepOf(e)));
      if backing.Some? {
        childDepths := childDepths[e.obj := backing.value];
        depth := None;
      }
    }

    /**
     * `removeEdge(objEv)`: unbinds from the edge; when the edge's object is
     * observation-backed the cached depth is dropped and the object's child
     * depth deleted, unless `stillRead` says another edge still reads it.
     */
    method RemoveEdge(e: ObEv, em: Emitter, backed: bool, stillRead: bool)
      modifies em, this`childDepths, this`depth
      ensures em.live == old(em.live) - multiset{Subscription(cid, DepOf(e))}
      ensures childDepths == if backed && !stillRead then old(childDepths) - {e.obj} else old(childDepths)
      ensures depth == if backed then None else old(depth)
    {
      em.Off(Subscription(cid, DepOf(e)));
      if backed {
        if !stillRead {
          childDepths := childDepths - {e.obj};
        }
        depth := None;
      }
    }

    /**
     * `updateBindings()`: binds the edges only `newObserved` holds and
     * unbinds the ones only `oldObserved` holds; the edges both hold are
     * cleared from `oldObserved` and left bound. `backed` gives, for each
     * observation-backed object, the depth of its observation.
     */
    method UpdateBindings(em: Emitter, backed: map<Id, nat>)
      requires oldObserved.Some? && Of(em.live, cid) == EdgeSubs(cid, oldObserved.value)
      modifies em, this`oldObserved, this`childDepths, this`depth
      ensures Swapped(old(em.live), em.live, cid, old(oldObserved.value), newObserved)
      ensures var was, now := old(oldObserved.value), newObserved;
        oldObserved == Some(was - now) &&
        childDepths == Children(old(childDepths), backed, was, now)
      ensures depth.Some? ==> depth == old(depth) && childDepths == old(childDepths)
    {
      ghost var was, now, live0 := oldObserved.value, newObserved, em.live;
      ExactCovers(live0, cid, was);
      EdgeSubsSubset(cid, was - now, was);
      BindNew(em, backed);
      ghost var live1 := em.live;
      Unbind(em, oldObserved.value, backed.Keys, Objs(newObserved));
      SwapComposes(live0, live1, em.live, cid, was, now);
    }

    /** The first loop of `updateBindings`: bind each new edge the old set lacks, clear the others from it. */
    method BindNew(em: Emitter, backed: map<Id, nat>)
      requires oldObserved.Some?
      modifies em, this`oldObserved, this`childDepths, this`depth
      ensures var was, now := old(oldObserved.value), newObserved;
        em.live == old(em.live) + EdgeSubs(cid, now - was) &&
        oldObserved == Some(was - now) &&
        childDepths == Attach(old(childDepths), backed, Objs(now - was))
      ensures depth.Some? ==> depth == old(depth) && childDepths == old(childDepths)
    {
      ghost var was, now := oldObserved.value, newObserved;
      var todo := newObserved;
      ghost var done: set<ObEv> := {};
      BindingStart(em.live, cid, childDepths, backed, was, now);
      while todo != {}
        invariant oldObserved.Some?
        invariant Binding(old(em.live), em.live, cid, old(childDepths), childDepths, backed, was, now, done, todo, oldObserved.value)
        invariant depth.Some? ==> depth == old(depth) && childDepths == old(childDepths)
        decreases todo
      {
        var e :| e in todo;
        if e !in oldObserved.value {
          BindingAdd(old(em.live), em.live, cid, old(childDepths), childDepths, backed, was, now, done, todo, oldObserved.value, e);
          AddEdge(e, em, if e.obj in backed then Some(backed[e.obj]) else None);
        } else {
          BindingKeep(old(em.live), em.live, cid, old(childDepths), childDepths, backed, was, now, done, todo, oldObserved.value, e);
          oldObserved := Some(oldObserved.value - {e});
        }
        done := done + {e};
        todo := todo - {e};
      }
    }

    /**
     * `removeEdge` on each edge of `stale`; the child depth of an
     * observation-backed object (one in `backed`) is deleted unless `kept`
     * says a remaining edge still reads it.
     */
    method Unbind(em: Emitter, stale: set<ObEv>, backed: set<Id>, kept: set<Id>)
      requires EdgeSubs(cid, stale) <= em.live
      modifies em, this`childDepths, this`depth
      ensures em.live + EdgeSubs(cid, stale) == old(em.live)
      ensures childDepths == Detach(old(childDepths), (Objs(stale) - kept) * backed)
      ensures depth.Some? ==> depth == old(depth) && childDepths == old(childDepths)
    {
      var todo := stale;
      ghost var done: set<ObEv> := {};
      UnbindingStart(em.live, cid, childDepths, backed, stale, kept);
      while todo != {}
        invariant Unbinding(old(em.live), em.live, cid, old(childDepths), childDepths, backed, stale, kept, done, todo)
        invariant EdgeSubs(cid, stale) <= old(em.live)
        invariant depth.Some? ==> depth == old(depth) && childDepths == old(childDepths)
        decreases todo
      {
        var e :| e in todo;
        UnbindingRemove(old(em.live), em.live, cid, old(childDepths), childDepths, backed, stale, kept, done, todo, e);
        RemoveEdge(e, em, e.obj in backed, e.obj in kept);
        done := done + {e};
        todo := todo - {e};
      }
    }

    /** `stop()`: unbinds every edge, deleting every observation-backed child, and forgets the edges. */
    method Stop(em: Emitter, backed: set<Id>)
      requires Of(em.live, cid) == EdgeSubs(cid, newObserved)
      modifies this`bound, this`newObserved, this`childDepths, this`depth, em
      ensures !bound && newObserved == {}
      ensures em.live + EdgeSubs(cid, old(newObserved)) == old(em.live)
      ensures childDepths == Detach(old(childDepths), Objs(old(newObserved)) * backed)
      ensures depth.Some? ==> depth == old(depth) && childDepths == old(childDepths)
    {
      bound := false;
      ExactCovers(em.live, cid, newObserved);
      Unbind(em, newObserved, backed, {});
      assert Objs(old(newObserved)) - {} == Objs(old(newObserved));
      newObserved := {};
    }

    /**
     * `start()`: binds, moves the edges to `oldObserved`, and runs the
     * compute with this observation on top of the recorder stack. The
     * compute makes the reads `rs` through `add` and returns `v`. Then
     * `updateBindings`. `readyNow` stands for
     * `canBatch.afterPreviousEvents(setReady)` calling back before
     * `start` returns (no earlier events waiting).
     */
    method Start(rec: Recorder, em: Emitter, backed: map<Id, nat>, rs: seq<ObEv>, v: Value, readyNow: bool)
      requires Of(em.live, cid) == EdgeSubs(cid, newObserved)
      modifies this`bound, this`oldObserved, this`ignore, this`newObserved, this`ready, this`value, this`childDepths, this`depth
      modifies Trapping()`items, rec`stack, em
      ensures bound && ignore == 0 && value == v && ready == readyNow && batchNum == old(batchNum)
      ensures rec.stack == old(rec.stack) && traps == old(traps)
      ensures traps == null ==> newObserved == ReadSet(rs)
      ensures traps != null ==> newObserved == {} && traps.items == old(traps.items) + rs
      ensures oldObserved == Some(old(newObserved) - newObserved)
      ensures Swapped(old(em.live), em.live, cid, old(newObserved), newObserved)
      ensures childDepths == Children(old(childDepths), backed, old(newObserved), newObserved)
      ensures depth.Some? ==> depth == old(depth) && childDepths == old(childDepths)
    {
      Prepare();
      Recompute(rec, em, backed, rs, v, readyNow);
    }

    /** The rest of `start`: the compute, `updateBindings`, and `setReady` when it runs before `start` returns. */
    method Recompute(rec: Recorder, em: Emitter, backed: map<Id, nat>, rs: seq<ObEv>, v: Value, readyNow: bool)
      requires oldObserved.Some? && ignore == 0 && newObserved == {}
      requires Of(em.live, cid) == EdgeSubs(cid, oldObserved.value)
      modifies this`oldObserved, this`newObserved, this`ready, this`value, this`childDepths, this`depth
      modifies Trapping()`items, rec`stack, em
      ensures value == v && ready == readyNow && rec.stack == old(rec.stack)
      ensures traps == null ==> newObserved == ReadSet(rs)
      ensures traps != null ==> newObserved == {} && traps.items == old(traps.items) + rs
      ensures oldObserved == Some(old(oldObserved.value) - newObserved)
      ensures Swapped(old(em.live), em.live, cid, old(oldObserved.value), newObserved)
      ensures childDepths == Children(old(childDepths), backed, old(oldObserved.value), newObserved)
      ensures depth.Some? ==> depth == old(depth) && childDepths == old(childDepths)
    {
      Compute(rec, rs, v);
      UpdateBindings(em, backed);
      ready := readyNow;
    }

    /** The assignments that open `start`: bound, the edges moved to `oldObserved`, not ready. */
    method Prepare()
      modifies this`bound, this`oldObserved, this`ignore, this`newObserved, this`ready
      ensures bound && oldObserved == Some(old(newObserved)) && ignore == 0 && newObserved == {} && !ready
    {
      bound := true;
      oldObserved := Some(newObserved);
      ignore := 0;
      newObserved := {};
      ready := false;
    }

    /**
     * The compute's reads, made with this observation pushed on the
     * recorder stack; the compute returns `v`, stored before the pop.
     */
    method Compute(rec: Recorder, rs: seq<ObEv>, v: Value)
      requires ignore == 0 && newObserved == {}
      modifies this`newObserved, this`value, Trapping()`items, rec`stack
      ensures rec.stack == old(rec.stack) && ignore == old(ignore) && value == v
      ensures traps == null ==> newObserved == ReadSet(rs)
      ensures traps != null ==> newObserved == {} && traps.items == old(traps.items) + rs
    {
      rec.Push(this);
      assert rec.TopSet() == {this} && rec.TrapSet() == Trapping();
      ghost var before := rec.View();
      rec.AddEach(rs);
      AddedEachKeeps(before, rs);
      value := v;
      rec.Pop();
    }

    /**
     * `updateCompute(batchNum)`: when bound, recompute (as `start` does) and
     * hand the new and the previous value to the updater.
     */
    method UpdateCompute(batch: Option<nat>, rec: Recorder, em: Emitter, backed: map<Id, nat>,
                         rs: seq<ObEv>, v: Value, readyNow: bool) returns (call: Option<UpdaterCall>)
      requires Of(em.live, cid) == EdgeSubs(cid, newObserved)
      modifies this`bound, this`oldObserved, this`ignore, this`newObserved, this`ready, this`value, this`childDepths, this`depth
      modifies Trapping()`items, rec`stack, em
      ensures !old(bound) ==> call == None && unchanged(this) && em.live == old(em.live)
      ensures old(bound) ==> call == Some(UpdaterCall(v, old(value), batch)) && value == v && ready == readyNow
      ensures old(bound) ==> Swapped(old(em.live), em.live, cid, old(newObserved), newObserved)
      ensures rec.stack == old(rec.stack) && traps == old(traps)
      ensures depth.Some? ==> depth == old(depth) && childDepths == old(childDepths)
    {
      if bound {
        var oldValue := value;
        Start(rec, em, backed, rs, v, readyNow);
        call := Some(UpdaterCall(value, oldValue, batch));
      } else {
        call := None;
      }
    }

    /**
     * `dependencyChange(ev)`: ignored unless bound and ready; an event of a
     * batch registers this observation with the scheduler once per batch
     * number; an event outside any batch recomputes at once.
     */
    method DependencyChange(ev: Option<nat>, sched: UpdateOrder.Scheduler, rec: Recorder, em: Emitter,
                            backed: map<Id, nat>, rs: seq<ObEv>, v: Value, readyNow: bool) returns (r: Reaction)
      requires sched.Valid() && Of(em.live, cid) == EdgeSubs(cid, newObserved)
      modifies this`bound, this`oldObserved, this`ignore, this`newObserved, this`ready, this`value, this`childDepths, this`depth
      modifies this`batchNum, Trapping()`items, rec`stack, em, sched`rows, sched`cells, sched`curPrimaryDepth, sched`maxPrimaryDepth
      ensures sched.Valid()
      ensures r.Registered? <==> old(bound && ready) && ev.Some? && ev != old(batchNum)
      ensures r.Recomputed? <==> old(bound && ready) && ev.None?
      ensures old(bound && ready) && ev.Some? ==> batchNum == ev
      ensures r.Registered? ==>
        r.at.observation == cid && r.at.primaryDepth == primaryDepth && depth == Some(r.at.depth + 1) &&
        sched.cells == old(sched.cells)[r.at.Cell() := UpdateOrder.StackOf(old(sched.cells), r.at.Cell()) + [cid]] &&
        UpdateOrder.QueuedOne(old(sched.cells), sched.cells, cid)
      ensures !r.Registered? ==> sched.cells == old(sched.cells)
      ensures r.Recomputed? ==> r.call == Some(UpdaterCall(v, old(value), None))
      ensures r.Recomputed? ==> Swapped(old(em.live), em.live, cid, old(newObserved), newObserved)
      ensures !r.Recomputed? ==> em.live == old(em.live) && newObserved == old(newObserved)
      ensures old(DepthCached()) ==> DepthCached()
    {
      r := Ignored;
      if bound && ready {
        if ev.Some? {
          if ev != batchNum {
            var at := RegisterUpdate(ev, sched);
            r := Registered(at);
          }
        } else {
          var call := UpdateCompute(ev, rec, em, backed, rs, v, readyNow);
          r := Recomputed(call);
        }
      }
    }

    /**
     * The batched branch of `dependencyChange`: remember the batch number
     * and queue this observation at its primary depth and its depth less one.
     */
    method RegisterUpdate(ev: Option<nat>, sched: UpdateOrder.Scheduler) returns (at: UpdateOrder.Registration)
      requires sched.Valid()
      modifies this`depth, this`batchNum, sched`rows, sched`cells, sched`curPrimaryDepth, sched`maxPrimaryDepth
      ensures sched.Valid() && batchNum == ev
      ensures at.observation == cid && at.primaryDepth == primaryDepth && depth == Some(at.depth + 1)
      ensures sched.cells == old(sched.cells)[at.Cell() := UpdateOrder.StackOf(old(sched.cells), at.Cell()) + [cid]]
      ensures sched.curPrimaryDepth == old(sched.curPrimaryDepth).MinWith(primaryDepth)
      ensures sched.maxPrimaryDepth == Max(primaryDepth, old(sched.maxPrimaryDepth))
      ensures var row := UpdateOrder.RowOf(old(sched.rows), primaryDepth);
        sched.rows == old(sched.rows)[primaryDepth := UpdateOrder.Row(row.current.MinWith(at.depth), Max(at.depth, row.max))]
      ensures UpdateOrder.QueuedOne(old(sched.cells), sched.cells, cid)
      ensures old(depth).Some? ==> depth == old(depth)
      ensures old(DepthCached()) ==> DepthCached()
    {
      var d := GetDepth();
      at := UpdateOrder.Registration(cid, primaryDepth, d as nat - 1);
      sched.Register(at);
      batchNum := ev;
    }

    /**
     * `get()`: unbound, the compute runs cold, making the reads `rs` under
     * whichever observation is recording, and its value `cold` is returned; bound, the cached value is returned, after first catching up
     * on queued updates (`updateUntil(this)`) when the observation that is
     * recording is no deeper than this one.
     */
    method Get(rec: Recorder, sched: UpdateOrder.Scheduler, reactions: seq<seq<UpdateOrder.Registration>>, cold: Value, rs: seq<ObEv>)
      returns (r: Value, caughtUp: bool)
      requires sched.Valid()
      modifies this`depth, rec.TopSet()`depth, rec.TopSet()`newObserved, rec.TrapSet()`items
      modifies sched`rows, sched`cells, sched`curPrimaryDepth, sched`maxPrimaryDepth, sched`log
      ensures sched.Valid() && bound == old(bound) && value == old(value)
      ensures !bound ==> r == cold && !caughtUp
      ensures bound ==> r == value
      ensures caughtUp <==> bound && old(rec.IsRecording()) != null &&
                            depth.Some? && rec.Top().depth.Some? && depth.value >= rec.Top().depth.value
      ensures caughtUp ==> UpdateOrder.Before(old(sched.log), sched.log, cid) &&
                           (UpdateOrder.Until(old(sched.log), sched.log, cid) || !sched.curPrimaryDepth.NotAfter(sched.maxPrimaryDepth))
      ensures !caughtUp ==> sched.log == old(sched.log) && sched.cells == old(sched.cells)
      ensures rec.View() == if bound then old(rec.View()) else AddedEach(old(rec.View()), rs)
    {
      caughtUp := false;
      if bound {
        var recording := rec.IsRecording();
        if recording != null {
          var mine := GetDepth();
          var theirs := recording.GetDepth();
          if mine >= theirs {
            sched.UpdateUntil(cid, reactions);
            caughtUp := true;
          }
        }
        r := value;
      } else {
        rec.AddEach(rs);
        r := cold;
      }
    }
  }

  // ---------------------------------------------------------------------
  // The recorder statics

  /** The closure `trap` returns: nothing to restore on an empty stack, else the frame, its previous trap list and the new one. */
  datatype Untrapper = NoFrame | Restore(frame: Observation, saved: TrapBuffer?, captured: TrapBuffer)

  /** The module-level `observationStack`. */
  class Recorder {
    var stack: seq<Observation>

    constructor ()
      ensures stack == []
    {
      stack := [];
    }

    function Top(): Observation
      reads this`stack
      requires stack != []
    {
      stack[|stack| - 1]
    }

    /** The top observation, if any. */
    function TopSet(): set<Observation>
      reads this`stack
    {
      if stack == [] then {} else {Top()}
    }

    /** The top observation's trap list, if any. */
    function TrapSet(): set<TrapBuffer>
      reads this`stack, TopSet()`traps
    {
      if stack == [] || Top().traps == null then {} else {Top().traps}
    }

    /** The objects `add` may change: the top observation and its trap list. */
    function Scope(): set<object>
      reads this`stack, TopSet()`traps
    {
      TopSet() + TrapSet()
    }

    /** What the top observation holds, or `None` on an empty stack. */
    function View(): Option<FrameView>
      reads this`stack, TopSet()`newObserved, TopSet()`traps, TopSet()`ignore, TrapSet()`items
    {
      if stack == [] then None else Some(Top().View())
    }

    /** `observationStack.push(o)`. */
    method Push(o: Observation)
      modifies this`stack
      ensures stack == old(stack) + [o]
    {
      stack := stack + [o];
    }

    /** `observationStack.pop()` after a push. */
    method Pop()
      requires stack != []
      modifies this`stack
      ensures stack == old(stack[..|stack| - 1])
    {
      stack := stack[..|stack| - 1];
    }

    /** `Observation.add(obj, event)`. */
    method Add(e: ObEv)
      modifies TopSet()`newObserved, TrapSet()`items
      ensures Scope() == old(Scope())
      ensures View() == Added(old(View()), e)
    {
      if stack != [] {
        var top := stack[|stack| - 1];
        if top.ignore == 0 {
          if top.traps != null {
            top.traps.items := top.traps.items + [e];
          } else if e !in top.newObserved {
            top.newObserved := top.newObserved + {e};
          } else {
            assert top.newObserved + {e} == top.newObserved;
          }
        }
      }
    }

    /** A compute's reads, each through `add`. */
    method AddEach(rs: seq<ObEv>)
      modifies TopSet()`newObserved, TrapSet()`items
      ensures Scope() == old(Scope())
      ensures View() == AddedEach(old(View()), rs)
    {
      for i := 0 to |rs|
        invariant Scope() == old(Scope())
        invariant AddedEach(old(View()), rs) == AddedEach(View(), rs[i..])
      {
        Add(rs[i]);
        assert rs[i..][1..] == rs[i + 1..];
      }
    }

    /** `Observation.addAll(observes)`: forwards an inner trap's edges. */
    method AddAll(rs: seq<ObEv>)
      modifies TopSet()`newObserved, TrapSet()`items
      ensures Scope() == old(Scope())
      ensures View() == AddedAll(old(View()), rs)
    {
      if stack != [] {
        var top := stack[|stack| - 1];
        if top.traps != null {
          top.traps.items := top.traps.items + rs;
        } else {
          for i := 0 to |rs|
            invariant top.newObserved == old(top.newObserved) + ReadSet(rs[..i])
          {
            if rs[i] !in top.newObserved {
              top.newObserved := top.newObserved + {rs[i]};
            }
            assert ReadSet(rs[..i + 1]) == ReadSet(rs[..i]) + {rs[i]} by {
              assert rs[..i + 1] == rs[..i] + [rs[i]];
            }
          }
          assert rs[..|rs|] == rs;
        }
      }
    }

    /**
     * Calling the function `Observation.ignore(fn)` returns, where `fn`
     * makes the reads `rs`: the top counter is raised while they run and
     * lowered afterwards, so none of them is recorded or trapped.
     */
    method RunIgnored(rs: seq<ObEv>)
      modifies TopSet()`newObserved, TopSet()`ignore, TrapSet()`items
      ensures Scope() == old(Scope())
      ensures View() == old(View())
    {
      if stack != [] {
        var top := stack[|stack| - 1];
        top.ignore := top.ignore + 1;
        ghost var during := View();
        for i := 0 to |rs|
          invariant Scope() == old(Scope())
          invariant View() == during
        {
          Add(rs[i]);
        }
        top.ignore := top.ignore - 1;
      } else {
        for i := 0 to |rs|
          invariant stack == []
        {
          Add(rs[i]);
        }
      }
    }

    /** `Observation.trap()`: installs a fresh, empty trap list on the top observation. */
    method Trap() returns (u: Untrapper)
      modifies TopSet()`traps
      ensures old(stack) == [] ==> u == NoFrame
      ensures old(stack) != [] ==>
                Top().traps != null && u == Restore(Top(), old(Top().traps), Top().traps) && fresh(Top().traps) &&
                View() == Some(old(View()).value.(trapped := Some([])))
    {
      if stack == [] {
        u := NoFrame;
      } else {
        var top := stack[|stack| - 1];
        var oldTraps := top.traps;
        var traps := new TrapBuffer();
        top.traps := traps;
        u := Restore(top, oldTraps, traps);
      }
    }

    /** `trapsCount()` as written: `top.traps.length` throws when no trap is installed. */
    function TrapsCountAsWritten(): (r: Outcome<nat>)
      reads this, Scope()
      ensures stack == [] ==> r == Returned(0)
      ensures r == TypeError <==> stack != [] && Top().traps == null
      ensures View().Some? && View().value.trapped.Some? ==> r == Returned(|View().value.trapped.value|)
    {
      if stack == [] then Returned(0)
      else if Top().traps == null then TypeError
      else Returned(|Top().traps.items|)
    }

    /** `trapsCount()` counting nothing when nothing is trapping. */
    function TrapsCount(): (n: nat)
      reads this, Scope()
      ensures n > 0 ==> View().Some? && View().value.trapped.Some?
      ensures View().Some? && View().value.trapped.Some? ==> n == |View().value.trapped.value|
    {
      if stack == [] || Top().traps == null then 0 else |Top().traps.items|
    }

    /** `Observation.isRecording()`: the top observation when its counter is 0, otherwise falsy (`null`). */
    function IsRecording(): (o: Observation?)
      reads this, Scope()
      ensures o != null <==> Observing(View())
      ensures o != null ==> o == Top()
    {
      if stack != [] && Top().ignore == 0 then Top() else null
    }

    /** `ObservedInfo.isRecording()`: the same test as a truth value. */
    function IsRecordingFlag(): (b: bool)
      reads this, Scope()
      ensures b <==> Observing(View())
      ensures b <==> IsRecording() != null
    {
      stack != [] && Top().ignore == 0
    }
  }

  /** Calling the untrap function: puts the previous trap list back and returns the captured edges. */
  method Untrap(u: Untrapper) returns (captured: seq<ObEv>)
    modifies (if u.Restore? then {u.frame} else {})`traps
    ensures u.NoFrame? ==> captured == []
    ensures u.Restore? ==> u.frame.traps == u.saved && captured == u.captured.items
  {
    if u.NoFrame? {
      captured := [];
    } else {
      u.frame.traps := u.saved;
      captured := u.captured.items;
    }
  }

  /** Outside any trap `trapsCount` throws as written, while the corrected version counts nothing. */
  method TrapsCountOutsideTrap() returns (asWritten: Outcome<nat>, corrected: nat)
    ensures asWritten == TypeError && corrected == 0
  {
    var rec := new Recorder();
    var o := new Observation(1, 0);
    rec.Push(o);
    asWritten := rec.TrapsCountAsWritten();
    corrected := rec.TrapsCount();
  }
}
