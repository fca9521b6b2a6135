/**
 * Subscription diffing (recorder-dependency-helpers.js, and the same helpers
 * in observation-stack.js): `updateObservations` binds the handler to the
 * dependencies only the new recorder holds, deleting from the old recorder
 * the ones both hold, and then unbinds whatever the old recorder still holds;
 * `stopObserving` unbinds everything a recorder holds.
 */
module DependencyHelpers {
  import opened Common
  import opened Subscriptions
  import opened ObservationStack

  /** `keys.get(o)`, with a missing entry read as the empty set. */
  function KeysOf(keys: map<Id, set<Key>>, o: Id): set<Key>
  {
    if o in keys then keys[o] else {}
  }

  /** The key dependencies a key map holds. */
  ghost function KeyPairs(keys: map<Id, set<Key>>): set<Dep>
  {
    set o, k | o in keys && k in keys[o] :: KeyDep(o, k)
  }

  /** The value dependencies a value set holds. */
  ghost function ValuePairs(values: set<Id>): set<Dep>
  {
    set o | o in values :: ValueDep(o)
  }

  /** What is left of an old key map once every key the new one also holds is deleted. */
  function KeysMinus(before: map<Id, set<Key>>, after: map<Id, set<Key>>): map<Id, set<Key>>
  {
    map o | o in before :: before[o] - KeysOf(after, o)
  }

  /** The entries of `keys` for the observables in `objs`. */
  function Restrict(keys: map<Id, set<Key>>, objs: set<Id>): map<Id, set<Key>>
  {
    map o | o in keys && o in objs :: keys[o]
  }

  /** The key dependencies of `obj` for the events in `events`. */
  ghost function Pairs(obj: Id, events: set<Key>): set<Dep>
  {
    set e | e in events :: KeyDep(obj, e)
  }

  // ---------------------------------------------------------------------
  // Helpers (recorder-dependency-helpers.js:4-30)

  /** `removeEdges(oldEventSet, observable)`: unbinds the handler from each event of the set. */
  method RemoveEdges(eventSet: set<Key>, obj: Id, handler: Id, em: Emitter)
    modifies em
    ensures em.live == old(em.live) - Subs(handler, Pairs(obj, eventSet))
  {
    var todo := eventSet;
    ghost var done: set<Key> := {};
    RemovingEdgesStart(em.live, handler, obj, eventSet);
    while todo != {}
      invariant RemovingEdges(old(em.live), em.live, handler, obj, eventSet, done, todo)
      decreases todo
    {
      var event :| event in todo;
      RemovingEdgesStep(old(em.live), em.live, handler, obj, eventSet, done, todo, event);
      em.Off(Subscription(handler, KeyDep(obj, event)));
      done := done + {event};
      todo := todo - {event};
    }
  }

  /** The state `removeEdges` keeps while it walks the event set. */
  ghost predicate RemovingEdges(live0: multiset<Subscription>, live: multiset<Subscription>, handler: Id, obj: Id,
                                eventSet: set<Key>, done: set<Key>, todo: set<Key>)
  {
    done !! todo && done + todo == eventSet && live == live0 - Subs(handler, Pairs(obj, done))
  }

  lemma RemovingEdgesStart(live0: multiset<Subscription>, handler: Id, obj: Id, eventSet: set<Key>)
    ensures RemovingEdges(live0, live0, handler, obj, eventSet, {}, eventSet)
  {
    assert Pairs(obj, {}) == {};
    SubsEmpty(handler);
  }

  lemma RemovingEdgesStep(live0: multiset<Subscription>, live: multiset<Subscription>, handler: Id, obj: Id,
                          eventSet: set<Key>, done: set<Key>, todo: set<Key>, event: Key)
    requires RemovingEdges(live0, live, handler, obj, eventSet, done, todo) && event in todo
    ensures RemovingEdges(live0, live - multiset{Subscription(handler, KeyDep(obj, event))}, handler, obj, eventSet,
                          done + {event}, todo - {event})
  {
    MoveOne(done, todo, eventSet, event);
    UnbindStep(live0, handler, Pairs(obj, done), KeyDep(obj, event));
    PairsStep(obj, done, event);
  }

  /**
   * `addEdges(eventSet, observable)` with `addEdgeIfNotInOldSet`: an event the
   * old recorder also holds for `obj` is deleted from the old set instead of
   * being bound; every other event is bound.
   */
  method AddEdges(eventSet: set<Key>, obj: Id, handler: Id, oldDependencies: Frame, em: Emitter)
    modifies oldDependencies, em
    ensures em.live == old(em.live) + Subs(handler, Pairs(obj, eventSet - KeysOf(old(oldDependencies.keyDependencies), obj)))
    ensures oldDependencies.keyDependencies ==
              if obj in old(oldDependencies.keyDependencies)
              then old(oldDependencies.keyDependencies)[obj := old(oldDependencies.keyDependencies)[obj] - eventSet]
              else old(oldDependencies.keyDependencies)
    ensures oldDependencies.valueDependencies == old(oldDependencies.valueDependencies)
    ensures oldDependencies.traps == old(oldDependencies.traps) && oldDependencies.ignore == old(oldDependencies.ignore)
  {
    ghost var keys0 := oldDependencies.keyDependencies;
    var todo := eventSet;
    ghost var done: set<Key> := {};
    AddingEdgesStart(em.live, handler, obj, eventSet, keys0);
    while todo != {}
      invariant AddingEdges(old(em.live), em.live, handler, obj, eventSet, keys0, done, todo, oldDependencies.keyDependencies)
      invariant oldDependencies.valueDependencies == old(oldDependencies.valueDependencies)
      invariant oldDependencies.traps == old(oldDependencies.traps) && oldDependencies.ignore == old(oldDependencies.ignore)
      decreases todo
    {
      var event :| event in todo;
      if obj !in oldDependencies.keyDependencies || event !in oldDependencies.keyDependencies[obj] {
        AddEdgeBind(old(em.live), em.live, handler, obj, eventSet, keys0, done, todo, oldDependencies.keyDependencies, event);
        em.On(Subscription(handler, KeyDep(obj, event)));
      } else {
        AddEdgeKeep(old(em.live), em.live, handler, obj, eventSet, keys0, done, todo, oldDependencies.keyDependencies, event);
        oldDependencies.keyDependencies := oldDependencies.keyDependencies[obj := oldDependencies.keyDependencies[obj] - {event}];
      }
      done := done + {event};
      todo := todo - {event};
    }
  }

  /** The state `addEdges` keeps while it walks the event set. */
  ghost predicate AddingEdges(live0: multiset<Subscription>, live: multiset<Subscription>, handler: Id, obj: Id, eventSet: set<Key>,
                              keys0: map<Id, set<Key>>, done: set<Key>, todo: set<Key>, keys: map<Id, set<Key>>)
  {
    done !! todo && done + todo == eventSet
    && live == live0 + Subs(handler, Pairs(obj, done - KeysOf(keys0, obj)))
    && keys == if obj in keys0 then keys0[obj := keys0[obj] - done] else keys0
  }

  lemma AddingEdgesStart(live0: multiset<Subscription>, handler: Id, obj: Id, eventSet: set<Key>, keys0: map<Id, set<Key>>)
    ensures AddingEdges(live0, live0, handler, obj, eventSet, keys0, {}, eventSet, keys0)
  {
    assert Pairs(obj, {} - KeysOf(keys0, obj)) == {};
    SubsEmpty(handler);
    if obj in keys0 {
      assert keys0[obj] - {} == keys0[obj];
      assert keys0[obj := keys0[obj] - {}] == keys0;
    }
  }

  lemma AddEdgeBind(live0: multiset<Subscription>, live: multiset<Subscription>, handler: Id, obj: Id, eventSet: set<Key>,
                    keys0: map<Id, set<Key>>, done: set<Key>, todo: set<Key>, keys: map<Id, set<Key>>, event: Key)
    requires AddingEdges(live0, live, handler, obj, eventSet, keys0, done, todo, keys)
    requires event in todo && (obj !in keys || event !in keys[obj])
    ensures AddingEdges(live0, live + multiset{Subscription(handler, KeyDep(obj, event))}, handler, obj, eventSet, keys0,
                        done + {event}, todo - {event}, keys)
  {
    var old0 := KeysOf(keys0, obj);
    assert event !in old0;
    assert done + {event} - old0 == (done - old0) + {event};
    PairsStep(obj, done - old0, event);
    BindStep(live0, handler, Pairs(obj, done - old0), KeyDep(obj, event));
    if obj in keys0 {
      assert keys0[obj] - (done + {event}) == keys0[obj] - done;
    }
  }

  lemma AddEdgeKeep(live0: multiset<Subscription>, live: multiset<Subscription>, handler: Id, obj: Id, eventSet: set<Key>,
                    keys0: map<Id, set<Key>>, done: set<Key>, todo: set<Key>, keys: map<Id, set<Key>>, event: Key)
    requires AddingEdges(live0, live, handler, obj, eventSet, keys0, done, todo, keys)
    requires event in todo && obj in keys && event in keys[obj]
    ensures AddingEdges(live0, live, handler, obj, eventSet, keys0, done + {event}, todo - {event}, keys[obj := keys[obj] - {event}])
  {
    var old0 := KeysOf(keys0, obj);
    assert obj in keys0 && event in old0;
    assert done + {event} - old0 == done - old0;
    assert keys0[obj] - done - {event} == keys0[obj] - (done + {event});
  }

  /**
   * `addValueDependencies` over a value set: an observable the old recorder
   * also holds is deleted from the old set instead of being bound.
   */
  method AddValueDependencies(values: set<Id>, handler: Id, oldDependencies: Frame, em: Emitter)
    modifies oldDependencies, em
    ensures em.live == old(em.live) + Subs(handler, ValuePairs(values - old(oldDependencies.valueDependencies)))
    ensures oldDependencies.valueDependencies == old(oldDependencies.valueDependencies) - values
    ensures oldDependencies.keyDependencies == old(oldDependencies.keyDependencies)
    ensures oldDependencies.traps == old(oldDependencies.traps) && oldDependencies.ignore == old(oldDependencies.ignore)
  {
    ghost var values0 := oldDependencies.valueDependencies;
    var todo := values;
    ghost var done: set<Id> := {};
    AddingValuesStart(em.live, handler, values, values0);
    while todo != {}
      invariant AddingValues(old(em.live), em.live, handler, values, values0, done, todo, oldDependencies.valueDependencies)
      invariant oldDependencies.keyDependencies == old(oldDependencies.keyDependencies)
      invariant oldDependencies.traps == old(oldDependencies.traps) && oldDependencies.ignore == old(oldDependencies.ignore)
      decreases todo
    {
      var observable :| observable in todo;
      if observable in oldDependencies.valueDependencies {
        AddValueKeep(old(em.live), em.live, handler, values, values0, done, todo, oldDependencies.valueDependencies, observable);
        oldDependencies.valueDependencies := oldDependencies.valueDependencies - {observable};
      } else {
        AddValueBind(old(em.live), em.live, handler, values, values0, done, todo, oldDependencies.valueDependencies, observable);
        em.On(Subscription(handler, ValueDep(observable)));
      }
      done := done + {observable};
      todo := todo - {observable};
    }
  }

  /** The state `addValueDependencies` keeps while it walks the value set. */
  ghost predicate AddingValues(live0: multiset<Subscription>, live: multiset<Subscription>, handler: Id, values: set<Id>,
                               values0: set<Id>, done: set<Id>, todo: set<Id>, current: set<Id>)
  {
    done !! todo && done + todo == values
    && live == live0 + Subs(handler, ValuePairs(done - values0))
    && current == values0 - done
  }

  lemma AddingValuesStart(live0: multiset<Subscription>, handler: Id, values: set<Id>, values0: set<Id>)
    ensures AddingValues(live0, live0, handler, values, values0, {}, values, values0)
  {
    assert ValuePairs({} - values0) == {};
    SubsEmpty(handler);
  }

  lemma AddValueBind(live0: multiset<Subscription>, live: multiset<Subscription>, handler: Id, values: set<Id>,
                     values0: set<Id>, done: set<Id>, todo: set<Id>, current: set<Id>, o: Id)
    requires AddingValues(live0, live, handler, values, values0, done, todo, current)
    requires o in todo && o !in current
    ensures AddingValues(live0, live + multiset{Subscription(handler, ValueDep(o))}, handler, values, values0,
                         done + {o}, todo - {o}, current)
  {
    assert done + {o} - values0 == (done - values0) + {o};
    ValuePairsStep(done - values0, o);
    BindStep(live0, handler, ValuePairs(done - values0), ValueDep(o));
  }

  lemma AddValueKeep(live0: multiset<Subscription>, live: multiset<Subscription>, handler: Id, values: set<Id>,
                     values0: set<Id>, done: set<Id>, todo: set<Id>, current: set<Id>, o: Id)
    requires AddingValues(live0, live, handler, values, values0, done, todo, current)
    requires o in todo && o in current
    ensures AddingValues(live0, live, handler, values, values0, done + {o}, todo - {o}, current - {o})
  {
    assert done + {o} - values0 == done - values0;
  }

  /** `removeValueDependencies` over a value set: unbinds the handler from each observable's value. */
  method RemoveValueDependencies(values: set<Id>, handler: Id, em: Emitter)
    modifies em
    ensures em.live == old(em.live) - Subs(handler, ValuePairs(values))
  {
    var todo := values;
    ghost var done: set<Id> := {};
    RemovingValuesStart(em.live, handler, values);
    while todo != {}
      invariant RemovingValues(old(em.live), em.live, handler, values, done, todo)
      decreases todo
    {
      var observable :| observable in todo;
      RemovingValuesStep(old(em.live), em.live, handler, values, done, todo, observable);
      em.Off(Subscription(handler, ValueDep(observable)));
      done := done + {observable};
      todo := todo - {observable};
    }
  }

  /** The state `removeValueDependencies` keeps while it walks the value set. */
  ghost predicate RemovingValues(live0: multiset<Subscription>, live: multiset<Subscription>, handler: Id,
                                 values: set<Id>, done: set<Id>, todo: set<Id>)
  {
    done !! todo && done + todo == values && live == live0 - Subs(handler, ValuePairs(done))
  }

  lemma RemovingValuesStart(live0: multiset<Subscription>, handler: Id, values: set<Id>)
    ensures RemovingValues(live0, live0, handler, values, {}, values)
  {
    assert ValuePairs({}) == {};
    SubsEmpty(handler);
  }

  lemma RemovingValuesStep(live0: multiset<Subscription>, live: multiset<Subscription>, handler: Id,
                           values: set<Id>, done: set<Id>, todo: set<Id>, o: Id)
    requires RemovingValues(live0, live, handler, values, done, todo) && o in todo
    ensures RemovingValues(live0, live - multiset{Subscription(handler, ValueDep(o))}, handler, values,
                           done + {o}, todo - {o})
  {
    MoveOne(done, todo, values, o);
    UnbindStep(live0, handler, ValuePairs(done), ValueDep(o));
    ValuePairsStep(done, o);
  }

  // ---------------------------------------------------------------------
  // updateObservations / stopObserving (recorder-dependency-helpers.js:37-46)

  /**
   * `newDependencies.keyDependencies.forEach(addEdges)`: every key dependency
   * only the new recorder holds is bound, and the old recorder's key map loses
   * every key the new one holds.
   */
  method AddKeyDependencies(newKeys: map<Id, set<Key>>, handler: Id, oldDependencies: Frame, em: Emitter)
    modifies oldDependencies, em
    ensures em.live == old(em.live) + Subs(handler, KeyPairs(newKeys) - KeyPairs(old(oldDependencies.keyDependencies)))
    ensures oldDependencies.keyDependencies == KeysMinus(old(oldDependencies.keyDependencies), newKeys)
    ensures oldDependencies.valueDependencies == old(oldDependencies.valueDependencies)
    ensures oldDependencies.traps == old(oldDependencies.traps) && oldDependencies.ignore == old(oldDependencies.ignore)
  {
    ghost var oldKeys := oldDependencies.keyDependencies;
    var todo := newKeys.Keys;
    AddingKeysStart(em.live, handler, newKeys, oldKeys);
    while todo != {}
      invariant AddingKeys(old(em.live), em.live, handler, newKeys, oldKeys, todo, oldDependencies.keyDependencies)
      invariant oldDependencies.valueDependencies == old(oldDependencies.valueDependencies)
      invariant oldDependencies.traps == old(oldDependencies.traps) && oldDependencies.ignore == old(oldDependencies.ignore)
      decreases todo
    {
      var observable :| observable in todo;
      ghost var live, keys := em.live, oldDependencies.keyDependencies;
      AddEdges(newKeys[observable], observable, handler, oldDependencies, em);
      AddingKeysStep(old(em.live), live, em.live, handler, newKeys, oldKeys, todo, keys, oldDependencies.keyDependencies, observable);
      todo := todo - {observable};
    }
    AddingKeysEnd(old(em.live), em.live, handler, newKeys, oldKeys, oldDependencies.keyDependencies);
  }

  /** The state the `addEdges` pass keeps: the observables done so far are the ones no longer in `todo`. */
  ghost predicate AddingKeys(live0: multiset<Subscription>, live: multiset<Subscription>, handler: Id,
                             newKeys: map<Id, set<Key>>, oldKeys: map<Id, set<Key>>, todo: set<Id>, keys: map<Id, set<Key>>)
  {
    todo <= newKeys.Keys
    && live == live0 + Subs(handler, KeyPairs(Restrict(newKeys, newKeys.Keys - todo)) - KeyPairs(oldKeys))
    && keys == KeysMinus(oldKeys, Restrict(newKeys, newKeys.Keys - todo))
  }

  lemma AddingKeysStart(live0: multiset<Subscription>, handler: Id, newKeys: map<Id, set<Key>>, oldKeys: map<Id, set<Key>>)
    ensures AddingKeys(live0, live0, handler, newKeys, oldKeys, newKeys.Keys, oldKeys)
  {
    var none := Restrict(newKeys, newKeys.Keys - newKeys.Keys);
    assert none == map[];
    assert KeyPairs(none) == {};
    assert KeyPairs(none) - KeyPairs(oldKeys) == {};
    SubsEmpty(handler);
    forall p | p in oldKeys ensures KeysMinus(oldKeys, none)[p] == oldKeys[p] {
      assert KeysOf(none, p) == {};
    }
    assert KeysMinus(oldKeys, none) == oldKeys;
  }

  lemma AddingKeysStep(live0: multiset<Subscription>, live: multiset<Subscription>, live': multiset<Subscription>, handler: Id,
                       newKeys: map<Id, set<Key>>, oldKeys: map<Id, set<Key>>, todo: set<Id>,
                       keys: map<Id, set<Key>>, keys': map<Id, set<Key>>, o: Id)
    requires AddingKeys(live0, live, handler, newKeys, oldKeys, todo, keys)
    requires o in todo
    requires live' == live + Subs(handler, Pairs(o, newKeys[o] - KeysOf(keys, o)))
    requires keys' == if o in keys then keys[o := keys[o] - newKeys[o]] else keys
    ensures AddingKeys(live0, live', handler, newKeys, oldKeys, todo - {o}, keys')
  {
    var done := newKeys.Keys - todo;
    assert newKeys.Keys - (todo - {o}) == done + {o};
    assert KeysOf(Restrict(newKeys, done), o) == {};
    assert KeysOf(keys, o) == KeysOf(oldKeys, o);
    var a := KeyPairs(Restrict(newKeys, done)) - KeyPairs(oldKeys);
    var b := Pairs(o, newKeys[o] - KeysOf(oldKeys, o));
    AddEdgesStep(newKeys, oldKeys, done, o);
    SubsUnion(handler, a, b);
    KeysMinusStep(oldKeys, newKeys, done, o);
    assert live' == live0 + (Subs(handler, a) + Subs(handler, b));
  }

  lemma AddingKeysEnd(live0: multiset<Subscription>, live: multiset<Subscription>, handler: Id,
                      newKeys: map<Id, set<Key>>, oldKeys: map<Id, set<Key>>, keys: map<Id, set<Key>>)
    requires AddingKeys(live0, live, handler, newKeys, oldKeys, {}, keys)
    ensures live == live0 + Subs(handler, KeyPairs(newKeys) - KeyPairs(oldKeys))
    ensures keys == KeysMinus(oldKeys, newKeys)
  {
    assert Restrict(newKeys, newKeys.Keys - {}) == newKeys;
  }

  /** `keys.forEach(removeEdges)`: unbinds the handler from every key dependency of the map. */
  method RemoveKeyDependencies(keys: map<Id, set<Key>>, handler: Id, em: Emitter)
    modifies em
    ensures em.live == old(em.live) - Subs(handler, KeyPairs(keys))
  {
    var todo := keys.Keys;
    RemovingKeysStart(em.live, handler, keys);
    while todo != {}
      invariant RemovingKeys(old(em.live), em.live, handler, keys, todo)
      decreases todo
    {
      var observable :| observable in todo;
      ghost var live := em.live;
      RemoveEdges(keys[observable], observable, handler, em);
      RemovingKeysStep(old(em.live), live, handler, keys, todo, observable);
      todo := todo - {observable};
    }
    assert Restrict(keys, keys.Keys - {}) == keys;
  }

  /** The state the `removeEdges` pass keeps. */
  ghost predicate RemovingKeys(live0: multiset<Subscription>, live: multiset<Subscription>, handler: Id,
                               keys: map<Id, set<Key>>, todo: set<Id>)
  {
    todo <= keys.Keys && live == live0 - Subs(handler, KeyPairs(Restrict(keys, keys.Keys - todo)))
  }

  lemma RemovingKeysStart(live0: multiset<Subscription>, handler: Id, keys: map<Id, set<Key>>)
    ensures RemovingKeys(live0, live0, handler, keys, keys.Keys)
  {
    var none := Restrict(keys, keys.Keys - keys.Keys);
    assert none == map[];
    assert KeyPairs(none) == {};
    SubsEmpty(handler);
  }

  lemma RemovingKeysStep(live0: multiset<Subscription>, live: multiset<Subscription>, handler: Id,
                         keys: map<Id, set<Key>>, todo: set<Id>, o: Id)
    requires RemovingKeys(live0, live, handler, keys, todo)
    requires o in todo
    ensures RemovingKeys(live0, live - Subs(handler, Pairs(o, keys[o])), handler, keys, todo - {o})
  {
    var done := keys.Keys - todo;
    assert keys.Keys - (todo - {o}) == done + {o};
    RemoveEdgesStep(keys, done, o);
    SubsUnion(handler, KeyPairs(Restrict(keys, done)), Pairs(o, keys[o]));
    MinusMinus(live0, Subs(handler, KeyPairs(Restrict(keys, done))), Subs(handler, Pairs(o, keys[o])));
  }

  /**
   * `updateObservations({newDependencies, oldDependencies, onDependencyChange})`:
   * binds the handler to every dependency only the new recorder holds and
   * unbinds it from every dependency only the old recorder held; a dependency
   * both hold is neither bound nor unbound. The old recorder is left holding
   * the old-only dependencies.
   */
  method UpdateObservations(newDependencies: Frame, oldDependencies: Frame, handler: Id, em: Emitter)
    requires newDependencies != oldDependencies
    modifies oldDependencies, em
    ensures em.live == old(em.live) + Subs(handler, DepSet(newDependencies.Recorded()) - DepSet(old(oldDependencies.Recorded())))
                                    - Subs(handler, DepSet(old(oldDependencies.Recorded())) - DepSet(newDependencies.Recorded()))
    ensures oldDependencies.keyDependencies == KeysMinus(old(oldDependencies.keyDependencies), newDependencies.keyDependencies)
    ensures oldDependencies.valueDependencies == old(oldDependencies.valueDependencies) - newDependencies.valueDependencies
    ensures oldDependencies.traps == old(oldDependencies.traps) && oldDependencies.ignore == old(oldDependencies.ignore)
  {
    AddKeyDependencies(newDependencies.keyDependencies, handler, oldDependencies, em);
    KeysMinusPairs(old(oldDependencies.keyDependencies), newDependencies.keyDependencies);
    RemoveKeyDependencies(oldDependencies.keyDependencies, handler, em);
    AddValueDependencies(newDependencies.valueDependencies, handler, oldDependencies, em);
    RemoveValueDependencies(oldDependencies.valueDependencies, handler, em);
    UpdateTotal(old(em.live), handler, newDependencies.keyDependencies, old(oldDependencies.keyDependencies),
                newDependencies.valueDependencies, old(oldDependencies.valueDependencies));
  }

  /** `stopObserving(recorder, onDependencyChange)`: unbinds the handler from everything the recorder holds. */
  method StopObserving(recorder: Frame, handler: Id, em: Emitter)
    modifies em
    ensures em.live == old(em.live) - Subs(handler, DepSet(recorder.Recorded()))
  {
    RemoveKeyDependencies(recorder.keyDependencies, handler, em);
    RemoveValueDependencies(recorder.valueDependencies, handler, em);
    DepSetSplit(recorder.Recorded());
    SubsUnion(handler, KeyPairs(recorder.keyDependencies), ValuePairs(recorder.valueDependencies));
    MinusMinus(old(em.live), Subs(handler, KeyPairs(recorder.keyDependencies)), Subs(handler, ValuePairs(recorder.valueDependencies)));
  }

  // ---------------------------------------------------------------------
  // The diffing theorem

  /**
   * When the handler was bound exactly once to each dependency of the old
   * recorder, `updateObservations` leaves it bound exactly once to each
   * dependency of the new recorder and to nothing else, and every other
   * handler's bindings unchanged.
   */
  lemma UpdateObservationsExact(live: multiset<Subscription>, after: multiset<Subscription>, handler: Id, oldDeps: Deps, newDeps: Deps)
    requires Of(live, handler) == Subs(handler, DepSet(oldDeps))
    requires after == live + Subs(handler, DepSet(newDeps) - DepSet(oldDeps)) - Subs(handler, DepSet(oldDeps) - DepSet(newDeps))
    ensures Of(after, handler) == Subs(handler, DepSet(newDeps))
    ensures forall s: Subscription :: s.handler != handler ==> after[s] == live[s]
  {
    SubsMove(live, handler, DepSet(oldDeps), DepSet(newDeps));
  }

  /** `stopObserving` after binding: the handler is left bound to nothing. */
  lemma StopObservingExact(live: multiset<Subscription>, handler: Id, deps: Deps)
    requires Of(live, handler) == Subs(handler, DepSet(deps))
    ensures Of(live - Subs(handler, DepSet(deps)), handler) == multiset{}
  {
    var after := live - Subs(handler, DepSet(deps));
    OfCount(live, handler);
    OfCount(after, handler);
    forall s: Subscription ensures Of(after, handler)[s] == 0 {
      SubsCount(handler, DepSet(deps), s);
      assert Of(live, handler)[s] == Subs(handler, DepSet(deps))[s];
    }
  }

  // ---------------------------------------------------------------------
  // Set and multiset facts the loops use

  lemma SubsAddOne(handler: Id, a: set<Dep>, d: Dep)
    requires d !in a
    ensures Subs(handler, a + {d}) == Subs(handler, a) + multiset{Subscription(handler, d)}
  {
    SubsUnion(handler, a, {d});
    assert (set x | x in {d} :: Subscription(handler, x)) == {Subscription(handler, d)};
  }

  /** Binding one more dependency extends the handler's subscriptions by one. */
  lemma BindStep(live0: multiset<Subscription>, handler: Id, a: set<Dep>, d: Dep)
    requires d !in a
    ensures live0 + Subs(handler, a) + multiset{Subscription(handler, d)} == live0 + Subs(handler, a + {d})
  {
    SubsAddOne(handler, a, d);
  }

  /** Unbinding one more dependency removes one more subscription. */
  lemma UnbindStep(live0: multiset<Subscription>, handler: Id, a: set<Dep>, d: Dep)
    requires d !in a
    ensures live0 - Subs(handler, a) - multiset{Subscription(handler, d)} == live0 - Subs(handler, a + {d})
  {
    SubsAddOne(handler, a, d);
    MinusMinus(live0, Subs(handler, a), multiset{Subscription(handler, d)});
  }

  lemma PairsStep(obj: Id, a: set<Key>, e: Key)
    requires e !in a
    ensures Pairs(obj, a + {e}) == Pairs(obj, a) + {KeyDep(obj, e)} && KeyDep(obj, e) !in Pairs(obj, a)
  {
  }

  lemma ValuePairsStep(a: set<Id>, o: Id)
    requires o !in a
    ensures ValuePairs(a + {o}) == ValuePairs(a) + {ValueDep(o)} && ValueDep(o) !in ValuePairs(a)
  {
  }

  lemma MinusMinus<T>(a: multiset<T>, b: multiset<T>, c: multiset<T>)
    ensures a - b - c == a - (b + c)
  {
    forall x ensures (a - b - c)[x] == (a - (b + c))[x] {
    }
  }

  lemma AddEdgesStep(newKeys: map<Id, set<Key>>, oldKeys: map<Id, set<Key>>, done: set<Id>, o: Id)
    requires o in newKeys && o !in done
    ensures KeyPairs(Restrict(newKeys, done + {o})) - KeyPairs(oldKeys) ==
              (KeyPairs(Restrict(newKeys, done)) - KeyPairs(oldKeys)) + Pairs(o, newKeys[o] - KeysOf(oldKeys, o))
    ensures (KeyPairs(Restrict(newKeys, done)) - KeyPairs(oldKeys)) !! Pairs(o, newKeys[o] - KeysOf(oldKeys, o))
  {
    var lhs := KeyPairs(Restrict(newKeys, done + {o})) - KeyPairs(oldKeys);
    var rhs := (KeyPairs(Restrict(newKeys, done)) - KeyPairs(oldKeys)) + Pairs(o, newKeys[o] - KeysOf(oldKeys, o));
    forall x | x in lhs ensures x in rhs {
      var p, k :| p in Restrict(newKeys, done + {o}) && k in Restrict(newKeys, done + {o})[p] && x == KeyDep(p, k);
      if p != o {
        assert p in Restrict(newKeys, done);
      }
    }
    forall x | x in rhs ensures x in lhs {
      if x in Pairs(o, newKeys[o] - KeysOf(oldKeys, o)) {
        assert x.obj in Restrict(newKeys, done + {o});
      } else {
        assert x.obj in Restrict(newKeys, done + {o});
      }
    }
  }

  lemma KeysMinusStep(oldKeys: map<Id, set<Key>>, newKeys: map<Id, set<Key>>, done: set<Id>, o: Id)
    requires o in newKeys && o !in done
    ensures var m := KeysMinus(oldKeys, Restrict(newKeys, done));
            (if o in m then m[o := m[o] - newKeys[o]] else m) == KeysMinus(oldKeys, Restrict(newKeys, done + {o}))
  {
    var m := KeysMinus(oldKeys, Restrict(newKeys, done));
    var m' := KeysMinus(oldKeys, Restrict(newKeys, done + {o}));
    var lhs := if o in m then m[o := m[o] - newKeys[o]] else m;
    forall p | p in oldKeys ensures lhs[p] == m'[p] {
      if p == o {
        assert KeysOf(Restrict(newKeys, done), o) == {};
        assert m[o] == oldKeys[o];
      } else {
        assert KeysOf(Restrict(newKeys, done + {o}), p) == KeysOf(Restrict(newKeys, done), p);
      }
    }
    assert lhs.Keys == m'.Keys;
  }

  lemma SubsEmpty(handler: Id)
    ensures Subs(handler, {}) == multiset{}
  {
    assert (set d: Dep | d in {} :: Subscription(handler, d)) == {};
  }

  lemma RemoveEdgesStep(keys: map<Id, set<Key>>, done: set<Id>, o: Id)
    requires o in keys && o !in done
    ensures KeyPairs(Restrict(keys, done + {o})) == KeyPairs(Restrict(keys, done)) + Pairs(o, keys[o])
    ensures KeyPairs(Restrict(keys, done)) !! Pairs(o, keys[o])
  {
    forall x | x in KeyPairs(Restrict(keys, done + {o})) ensures x in KeyPairs(Restrict(keys, done)) + Pairs(o, keys[o]) {
      var p, k :| p in Restrict(keys, done + {o}) && k in Restrict(keys, done + {o})[p] && x == KeyDep(p, k);
      if p != o {
        assert p in Restrict(keys, done);
      }
    }
    forall x | x in KeyPairs(Restrict(keys, done)) + Pairs(o, keys[o]) ensures x in KeyPairs(Restrict(keys, done + {o})) {
      assert x.obj in Restrict(keys, done + {o});
    }
  }

  /** Deleting the new keys from the old key map leaves exactly the old-only key dependencies. */
  lemma KeysMinusPairs(before: map<Id, set<Key>>, after: map<Id, set<Key>>)
    ensures KeyPairs(KeysMinus(before, after)) == KeyPairs(before) - KeyPairs(after)
  {
    forall x | x in KeyPairs(before) - KeyPairs(after) ensures x in KeyPairs(KeysMinus(before, after)) {
      assert x.obj in before && x.key in before[x.obj];
      if x.obj in after {
        assert x.key !in after[x.obj];
      }
    }
  }

  lemma DepSetSplit(d: Deps)
    ensures DepSet(d) == KeyPairs(d.keys) + ValuePairs(d.values)
    ensures KeyPairs(d.keys) !! ValuePairs(d.values)
  {
  }

  /** The four passes of `updateObservations` add up to the two differences of the dependency sets. */
  lemma UpdateTotal(live0: multiset<Subscription>, handler: Id, newKeys: map<Id, set<Key>>, oldKeys: map<Id, set<Key>>,
                    newValues: set<Id>, oldValues: set<Id>)
    ensures var newDeps, oldDeps := DepSet(Deps(newKeys, newValues)), DepSet(Deps(oldKeys, oldValues));
            live0 + Subs(handler, KeyPairs(newKeys) - KeyPairs(oldKeys))
                  - Subs(handler, KeyPairs(KeysMinus(oldKeys, newKeys)))
                  + Subs(handler, ValuePairs(newValues - oldValues))
                  - Subs(handler, ValuePairs(oldValues - newValues))
            == live0 + Subs(handler, newDeps - oldDeps) - Subs(handler, oldDeps - newDeps)
  {
    var newDeps, oldDeps := DepSet(Deps(newKeys, newValues)), DepSet(Deps(oldKeys, oldValues));
    KeysMinusPairs(oldKeys, newKeys);
    DepSetSplit(Deps(newKeys, newValues));
    DepSetSplit(Deps(oldKeys, oldValues));
    var addK, addV := KeyPairs(newKeys) - KeyPairs(oldKeys), ValuePairs(newValues - oldValues);
    var dropK, dropV := KeyPairs(oldKeys) - KeyPairs(newKeys), ValuePairs(oldValues - newValues);
    assert newDeps - oldDeps == addK + addV;
    assert oldDeps - newDeps == dropK + dropV;
    SubsUnion(handler, addK, addV);
    SubsUnion(handler, dropK, dropV);
    forall s: Subscription
      ensures (live0 + Subs(handler, addK) - Subs(handler, dropK) + Subs(handler, addV) - Subs(handler, dropV))[s]
              == (live0 + Subs(handler, newDeps - oldDeps) - Subs(handler, oldDeps - newDeps))[s]
    {
      SubsCount(handler, addK, s);
      SubsCount(handler, addV, s);
      SubsCount(handler, dropK, s);
      SubsCount(handler, dropV, s);
    }
  }
}
