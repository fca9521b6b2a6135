/**
 * The event-binding collaborator that the dependency recorder talks to
 * (`canReflect.onKeyValue`/`offKeyValue`/`onValue`/`offValue`): an emitter
 * that keeps the live subscriptions as a multiset, so that binding the same
 * handler twice to the same dependency shows up as a count of two.
 */
module Subscriptions {
  import opened Common

  /** A dependency: one key of an observable, or the observable's whole value. */
  datatype Dep = KeyDep(obj: Id, key: Key) | ValueDep(obj: Id)

  /** `handler` is bound to `dep`. */
  datatype Subscription = Subscription(handler: Id, dep: Dep)

  /** One subscription of `handler` to each dependency in `deps`. */
  ghost function Subs(handler: Id, deps: set<Dep>): multiset<Subscription>
  {
    multiset(set d | d in deps :: Subscription(handler, d))
  }

  /** Some subscription of a non-empty multiset. */
  ghost function Pick(live: multiset<Subscription>): (s: Subscription)
    requires live != multiset{}
    ensures s in live
  {
    var s :| s in live; s
  }

  /** The subscriptions in `live` that belong to `handler`. */
  ghost function Of(live: multiset<Subscription>, handler: Id): multiset<Subscription>
    decreases |live|
  {
    if live == multiset{} then multiset{}
    else
      var s := Pick(live);
      var rest := Of(live - multiset{s}, handler);
      if s.handler == handler then rest + multiset{s} else rest
  }

  /** `Of` keeps every subscription of `handler`, with its count, and no other. */
  lemma {:induction false} OfCount(live: multiset<Subscription>, handler: Id)
    ensures forall s :: Of(live, handler)[s] == if s.handler == handler then live[s] else 0
    decreases |live|
  {
    if live != multiset{} {
      var p := Pick(live);
      OfCount(live - multiset{p}, handler);
    }
  }

  /** The abstract event system: which handlers are bound to which dependencies. */
  class Emitter {
    var live: multiset<Subscription>

    constructor ()
      ensures live == multiset{}
    {
      live := multiset{};
    }

    /** `canReflect.onKeyValue`/`onValue`: one more binding. */
    method On(s: Subscription)
      modifies this
      ensures live == old(live) + multiset{s}
    {
      live := live + multiset{s};
    }

    /** `canReflect.offKeyValue`/`offValue`: one binding fewer, nothing if there was none. */
    method Off(s: Subscription)
      modifies this
      ensures live == old(live) - multiset{s}
    {
      live := live - multiset{s};
    }
  }

  /** `handler` holds exactly one subscription to each dependency in `deps` and no other. */
  lemma SubsCount(handler: Id, deps: set<Dep>, s: Subscription)
    ensures Subs(handler, deps)[s] == if s.handler == handler && s.dep in deps then 1 else 0
  {
    if s.handler == handler && s.dep in deps {
      assert s in (set d | d in deps :: Subscription(handler, d));
    }
  }

  /** Subscriptions to disjoint sets of dependencies add up. */
  lemma SubsUnion(handler: Id, a: set<Dep>, b: set<Dep>)
    requires a !! b
    ensures Subs(handler, a + b) == Subs(handler, a) + Subs(handler, b)
  {
    forall s: Subscription ensures Subs(handler, a + b)[s] == (Subs(handler, a) + Subs(handler, b))[s] {
      SubsCount(handler, a + b, s);
      SubsCount(handler, a, s);
      SubsCount(handler, b, s);
    }
  }

  /**
   * A handler bound once to each of `oldDeps` that binds to the new-only
   * dependencies and unbinds from the old-only ones ends up bound once to each
   * of `newDeps` and to nothing else; other handlers' bindings are untouched.
   */
  lemma {:induction false} SubsMove(live: multiset<Subscription>, handler: Id, oldDeps: set<Dep>, newDeps: set<Dep>)
    requires Of(live, handler) == Subs(handler, oldDeps)
    ensures var after := live + Subs(handler, newDeps - oldDeps) - Subs(handler, oldDeps - newDeps);
            Of(after, handler) == Subs(handler, newDeps) &&
            forall s: Subscription :: s.handler != handler ==> after[s] == live[s]
  {
    var after := live + Subs(handler, newDeps - oldDeps) - Subs(handler, oldDeps - newDeps);
    OfCount(live, handler);
    OfCount(after, handler);
    forall s: Subscription ensures Of(after, handler)[s] == Subs(handler, newDeps)[s] && (s.handler != handler ==> after[s] == live[s]) {
      SubsCount(handler, newDeps - oldDeps, s);
      SubsCount(handler, oldDeps - newDeps, s);
      SubsCount(handler, oldDeps, s);
      SubsCount(handler, newDeps, s);
      assert Of(live, handler)[s] == Subs(handler, oldDeps)[s];
    }
  }
}
