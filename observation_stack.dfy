/**
 * The dependency recorder of observation-stack.js: a stack of recorder frames.
 * `start`/`stop` push and pop a frame, `observe` records a read into the top
 * frame (or into its trap list when a trap is active), `ignore` suppresses
 * recording through the frame's counter, and `trap` redirects reads into a
 * fresh list that the returned untrap function hands back.
 */
module ObservationStack {
  import opened Common
  import opened Subscriptions

  /** One `[obj, event]` read; `event` is `None` for a read of the whole value. */
  datatype Read = Read(obj: Id, event: Option<Key>)

  /** The dependency a read stands for. */
  function DepOf(r: Read): Dep
  {
    match r.event
    case None => ValueDep(r.obj)
    case Some(k) => KeyDep(r.obj, k)
  }

  /** The `keyDependencies` map and the `valueDependencies` set of a recorder. */
  datatype Deps = Deps(keys: map<Id, set<Key>>, values: set<Id>)

  const NoDeps := Deps(map[], {})

  /** Every dependency a recorder holds. */
  ghost function DepSet(d: Deps): set<Dep>
  {
    (set o, k | o in d.keys && k in d.keys[o] :: KeyDep(o, k)) + (set o | o in d.values :: ValueDep(o))
  }

  /**
   * The recording branch of `observe` (no trap active): a value read adds the
   * observable to the value set, a key read adds the key to the observable's
   * key set, creating that set when it is missing.
   */
  function Record(d: Deps, r: Read): Deps
  {
    match r.event
    case None => d.(values := d.values + {r.obj})
    case Some(k) => d.(keys := d.keys[r.obj := (if r.obj in d.keys then d.keys[r.obj] else {}) + {k}])
  }

  /** `Record` applied to each read in turn. */
  function RecordAll(d: Deps, rs: seq<Read>): Deps
    decreases |rs|
  {
    if rs == [] then d else RecordAll(Record(d, rs[0]), rs[1..])
  }

  /** The dependencies of a list of reads. */
  ghost function DepsOfReads(rs: seq<Read>): set<Dep>
  {
    set i | 0 <= i < |rs| :: DepOf(rs[i])
  }

  /** What a frame holds: its dependencies, its trap list if one is installed, and its ignore counter. */
  datatype FrameView = FrameView(deps: Deps, trapped: Option<seq<Read>>, ignore: nat)

  /** Reads reach the top frame: there is one and its ignore counter is 0. */
  predicate Observing(v: Option<FrameView>)
  {
    v.Some? && v.value.ignore == 0
  }

  /** `observe(obj, event)` on the top frame `v`: trapped, recorded, or dropped. */
  function Observed(v: Option<FrameView>, r: Read): Option<FrameView>
  {
    if !Observing(v) then v
    else match v.value.trapped
      case Some(items) => Some(v.value.(trapped := Some(items + [r])))
      case None => Some(v.value.(deps := Record(v.value.deps, r)))
  }

  /** `observe` for each read in turn, as the reads of a function called under the top frame reach it. */
  function ObservedEach(v: Option<FrameView>, rs: seq<Read>): Option<FrameView>
    decreases |rs|
  {
    if rs == [] then v else ObservedEach(Observed(v, rs[0]), rs[1..])
  }

  /**
   * `observeMany(reads)` on the top frame `v`: an active trap takes the whole
   * list (whatever the ignore counter says); otherwise each read is observed.
   */
  function ObservedMany(v: Option<FrameView>, rs: seq<Read>): Option<FrameView>
  {
    if v.None? then v
    else match v.value.trapped
      case Some(items) => Some(v.value.(trapped := Some(items + rs)))
      case None => if v.value.ignore == 0 then Some(v.value.(deps := RecordAll(v.value.deps, rs))) else v
  }

  /** A trap list; the untrap function and the frame share it. */
  class TrapList {
    var items: seq<Read>

    constructor ()
      ensures items == []
    {
      items := [];
    }
  }

  /** A recorder frame (`makeDependenciesRecorder`). */
  class Frame {
    var traps: TrapList?
    var keyDependencies: map<Id, set<Key>>
    var valueDependencies: set<Id>
    var ignore: nat

    /** `makeDependenciesRecorder()`: no trap, nothing recorded, not ignoring. */
    constructor ()
      ensures traps == null && ignore == 0
      ensures keyDependencies == map[] && valueDependencies == {}
    {
      traps := null;
      keyDependencies := map[];
      valueDependencies := {};
      ignore := 0;
    }

    function Recorded(): Deps
      reads this
    {
      Deps(keyDependencies, valueDependencies)
    }

    function View(): FrameView
      reads this, traps
    {
      FrameView(Recorded(), if traps == null then None else Some(traps.items), ignore)
    }
  }

  /** The closure `trap` returns: nothing to restore on an empty stack, else the frame, its previous trap list and the new one. */
  datatype Untrapper = NoFrame | Restore(frame: Frame, saved: TrapList?, captured: TrapList)

  /** The module-level `stack` of recorder frames. */
  class Recorder {
    var stack: seq<Frame>

    constructor ()
      ensures stack == []
    {
      stack := [];
    }

    function Top(): Frame
      reads this
      requires stack != []
    {
      stack[|stack| - 1]
    }

    /** The objects `observe` may change: the top frame and its trap list. */
    function Scope(): set<object>
      reads this, if stack == [] then {} else {Top()}
    {
      if stack == [] then {}
      else if Top().traps == null then {Top()}
      else {Top(), Top().traps}
    }

    /** What the top frame holds, or `None` on an empty stack. */
    function View(): Option<FrameView>
      reads this, Scope()
    {
      if stack == [] then None else Some(Top().View())
    }

    /** `start()`: pushes a fresh frame. */
    method Start()
      modifies this
      ensures |stack| == |old(stack)| + 1 && stack[..|old(stack)|] == old(stack)
      ensures fresh(Top()) && Top().View() == FrameView(NoDeps, None, 0)
    {
      var f := new Frame();
      stack := stack + [f];
    }

    /** `stop()`: pops and returns the top frame; `undefined` (here `null`) on an empty stack. */
    method Stop() returns (f: Frame?)
      modifies this
      ensures old(stack) == [] ==> f == null && stack == []
      ensures old(stack) != [] ==> f == old(Top()) && stack == old(stack[..|stack| - 1])
    {
      if stack == [] {
        f := null;
      } else {
        f := stack[|stack| - 1];
        stack := stack[..|stack| - 1];
      }
    }

    /** `observe(obj, event)`. */
    method Observe(r: Read)
      modifies Scope()
      ensures stack == old(stack) && Scope() == old(Scope())
      ensures View() == Observed(old(View()), r)
      ensures stack != [] && Top().ignore == 0 && Top().traps != null ==>
                Top().traps == old(Top().traps) && Top().traps.items == old(Top().traps.items) + [r]
    {
      if stack != [] {
        var top := stack[|stack| - 1];
        if top.ignore == 0 {
          if top.traps != null {
            top.traps.items := top.traps.items + [r];
          } else {
            match r.event
            case None =>
              top.valueDependencies := top.valueDependencies + {r.obj};
            case Some(k) =>
              var eventSet := if r.obj in top.keyDependencies then top.keyDependencies[r.obj] else {};
              top.keyDependencies := top.keyDependencies[r.obj := eventSet + {k}];
          }
        }
      }
    }

    /** `observeMany(observes)`. */
    method ObserveMany(rs: seq<Read>)
      modifies Scope()
      ensures stack == old(stack) && Scope() == old(Scope())
      ensures View() == ObservedMany(old(View()), rs)
      ensures stack != [] && Top().traps != null ==>
                Top().traps == old(Top().traps) && Top().traps.items == old(Top().traps.items) + rs
    {
      if stack != [] {
        var top := stack[|stack| - 1];
        if top.traps != null {
          top.traps.items := top.traps.items + rs;
        } else {
          ghost var start := View();
          for i := 0 to |rs|
            invariant stack == old(stack) && Scope() == old(Scope())
            invariant View() == if top.ignore == 0 then Some(start.value.(deps := RecordAll(start.value.deps, rs[..i]))) else start
          {
            Observe(rs[i]);
            RecordAllSnoc(start.value.deps, rs[..i], rs[i]);
            assert rs[..i + 1] == rs[..i] + [rs[i]];
          }
          assert rs[..|rs|] == rs;
        }
      }
    }

    /** The reads a function makes while this stack's top frame is the one observing, one `observe` each. */
    method ObserveEach(rs: seq<Read>)
      modifies Scope()
      ensures stack == old(stack) && Scope() == old(Scope())
      ensures View() == ObservedEach(old(View()), rs)
    {
      for i := 0 to |rs|
        invariant stack == old(stack) && Scope() == old(Scope())
        invariant ObservedEach(old(View()), rs) == ObservedEach(View(), rs[i..])
      {
        Observe(rs[i]);
        assert rs[i..][1..] == rs[i + 1..];
      }
    }

    /**
     * `Observation.addAll(observes)` as written: `observeMany` runs with
     * `this` bound to `Observation`, which has no `observe`, so on a frame
     * without a trap the first read throws before anything is recorded.
     */
    method ObserveManyAsWritten(rs: seq<Read>) returns (r: Outcome<Value>)
      modifies Scope()
      ensures stack == old(stack) && Scope() == old(Scope())
      ensures r == TypeError <==> old(stack != [] && Top().traps == null) && rs != []
      ensures r == TypeError ==> View() == old(View())
      ensures r != TypeError ==> View() == ObservedMany(old(View()), rs)
    {
      r := Returned(Undefined);
      if stack != [] {
        var top := stack[|stack| - 1];
        if top.traps != null {
          top.traps.items := top.traps.items + rs;
        } else if rs != [] {
          r := TypeError;
        }
      }
    }

    /**
     * Calling the function `ignore(fn)` returns, where `fn` makes the reads
     * `rs`: the top frame's counter is raised while they run and lowered
     * afterwards, so none of them is recorded or trapped.
     */
    method RunIgnored(rs: seq<Read>)
      modifies Scope()
      ensures stack == old(stack) && Scope() == old(Scope())
      ensures View() == old(View())
    {
      if stack != [] {
        var top := stack[|stack| - 1];
        top.ignore := top.ignore + 1;
        ghost var during := View();
        for i := 0 to |rs|
          invariant stack == old(stack) && Scope() == old(Scope())
          invariant View() == during
        {
          Observe(rs[i]);
        }
        top.ignore := top.ignore - 1;
      } else {
        for i := 0 to |rs|
          invariant stack == []
        {
          Observe(rs[i]);
        }
      }
    }

    /** `trap()`: installs a fresh, empty trap list on the top frame. */
    method Trap() returns (u: Untrapper)
      modifies if stack == [] then {} else {Top()}
      ensures stack == old(stack)
      ensures old(stack) == [] ==> u == NoFrame
      ensures old(stack) != [] ==>
                Top().traps != null && u == Restore(Top(), old(Top().traps), Top().traps) && fresh(Top().traps) &&
                View() == Some(old(View()).value.(trapped := Some([])))
    {
      if stack == [] {
        u := NoFrame;
      } else {
        var top := stack[|stack| - 1];
        var oldTraps := top.traps;
        var traps := new TrapList();
        top.traps := traps;
        u := Restore(top, oldTraps, traps);
      }
    }

    /**
     * `trapsCount()` as written: on a non-empty stack it reads
     * `top.traps.length`, which throws when no trap is installed.
     */
    function TrapsCountAsWritten(): (r: Outcome<nat>)
      reads this, Scope()
      ensures stack == [] ==> r == Returned(0)
      ensures r == TypeError <==> stack != [] && Top().traps == null
      ensures View().Some? && View().value.trapped.Some? ==> r == Returned(|View().value.trapped.value|)
    {
      if stack == [] then Returned(0)
      else if Top().traps == null then TypeError
      else Returned(|Top().traps.items|)
    }

    /** `trapsCount()` as its documentation uses it: the number of trapped reads, 0 when nothing is trapping. */
    function TrapsCount(): (n: nat)
      reads this, Scope()
      ensures n > 0 ==> View().Some? && View().value.trapped.Some?
      ensures View().Some? && View().value.trapped.Some? ==> n == |View().value.trapped.value|
    {
      if stack == [] || Top().traps == null then 0 else |Top().traps.items|
    }

    /** `isObserving()`: the top frame when it records reads, otherwise a falsy value (here `null`). */
    function IsObserving(): (f: Frame?)
      reads this, Scope()
      ensures f != null <==> Observing(View())
      ensures f != null ==> f == Top()
    {
      if stack != [] && Top().ignore == 0 then Top() else null
    }
  }

  /** Calling the untrap function: puts the previous trap list back and returns the captured reads. */
  method Untrap(u: Untrapper) returns (captured: seq<Read>)
    modifies if u.Restore? then {u.frame} else {}
    ensures u.NoFrame? ==> captured == []
    ensures u.Restore? ==> u.frame.traps == u.saved && captured == u.captured.items
    ensures u.Restore? ==> u.frame.ignore == old(u.frame.ignore) && u.frame.Recorded() == old(u.frame.Recorded())
  {
    if u.NoFrame? {
      captured := [];
    } else {
      u.frame.traps := u.saved;
      captured := u.captured.items;
    }
  }

  /**
   * The nested-trap example of can-observation_test.js: an inner trap's reads,
   * handed back to the outer trap with `observeMany`, follow the outer trap's
   * own read, and the frame records nothing while trapped.
   */
  method NestedTraps(r1: Read, r2: Read) returns (outer: seq<Read>, inner: seq<Read>)
    ensures inner == [r2] && outer == [r1, r2]
  {
    var rec := new Recorder();
    rec.Start();
    var frame := rec.Top();
    var u1 := rec.Trap();
    rec.Observe(r1);
    inner := InnerTrap(rec, r2);
    rec.ObserveMany(inner);
    outer := Untrap(u1);
  }

  /** The inner half of the nested-trap example: trap, read, untrap, with the outer trap untouched. */
  method InnerTrap(rec: Recorder, r: Read) returns (inner: seq<Read>)
    requires rec.stack != [] && rec.Top().ignore == 0 && rec.Top().traps != null
    modifies rec.Top()
    ensures rec.stack == old(rec.stack) && rec.Top().ignore == 0 && rec.Top().traps == old(rec.Top().traps)
    ensures inner == [r]
  {
    var u := rec.Trap();
    rec.Observe(r);
    inner := Untrap(u);
  }

  /** Outside any trap `trapsCount` throws as written, while the corrected version counts nothing. */
  method TrapsCountOutsideTrap() returns (asWritten: Outcome<nat>, corrected: nat)
    ensures asWritten == TypeError && corrected == 0
  {
    var rec := new Recorder();
    rec.Start();
    asWritten := rec.TrapsCountAsWritten();
    corrected := rec.TrapsCount();
  }

  /** Outside a trap `Observation.addAll` throws as written, while `observeMany` records the read. */
  method AddAllOutsideTrap(r: Read) returns (asWritten: Outcome<Value>, corrected: Option<FrameView>)
    ensures asWritten == TypeError
    ensures corrected == Some(FrameView(Record(NoDeps, r), None, 0))
  {
    var rec := new Recorder();
    rec.Start();
    asWritten := rec.ObserveManyAsWritten([r]);
    rec.ObserveMany([r]);
    assert RecordAll(NoDeps, [r]) == RecordAll(Record(NoDeps, r), []);
    corrected := rec.View();
  }

  /** A recorder holds some dependency iff it holds a value dependency or a non-empty key set. */
  lemma DepSetNonEmpty(d: Deps)
    ensures DepSet(d) != {} <==> d.values != {} || exists o :: o in d.keys && d.keys[o] != {}
  {
    if d.values != {} {
      var o :| o in d.values;
      assert ValueDep(o) in DepSet(d);
    } else if exists o :: o in d.keys && d.keys[o] != {} {
      var o :| o in d.keys && d.keys[o] != {};
      var k :| k in d.keys[o];
      assert KeyDep(o, k) in DepSet(d);
    }
  }

  lemma RecordAllSnoc(d: Deps, rs: seq<Read>, r: Read)
    ensures RecordAll(d, rs + [r]) == Record(RecordAll(d, rs), r)
    decreases |rs|
  {
    if rs != [] {
      assert (rs + [r])[1..] == rs[1..] + [r];
      RecordAllSnoc(Record(d, rs[0]), rs[1..], r);
    }
  }

  /** A read adds exactly its own dependency to what a frame holds. */
  lemma RecordDeps(d: Deps, r: Read)
    ensures DepSet(Record(d, r)) == DepSet(d) + {DepOf(r)}
  {
    var e := Record(d, r);
    forall x | x in DepSet(e) ensures x in DepSet(d) + {DepOf(r)} {
      if x.KeyDep? {
        assert x.obj in e.keys && x.key in e.keys[x.obj];
      }
    }
    forall x | x in DepSet(d) + {DepOf(r)} ensures x in DepSet(e) {
      if x.KeyDep? {
        assert x.obj in e.keys && x.key in e.keys[x.obj];
      }
    }
  }

  /** Reads observed one after another add exactly their dependencies. */
  lemma {:induction false} RecordAllDeps(d: Deps, rs: seq<Read>)
    ensures DepSet(RecordAll(d, rs)) == DepSet(d) + DepsOfReads(rs)
    decreases |rs|
  {
    if rs == [] {
      assert DepsOfReads(rs) == {};
    } else {
      RecordDeps(d, rs[0]);
      RecordAllDeps(Record(d, rs[0]), rs[1..]);
      assert DepsOfReads(rs) == {DepOf(rs[0])} + DepsOfReads(rs[1..]) by {
        forall x | x in DepsOfReads(rs) ensures x in {DepOf(rs[0])} + DepsOfReads(rs[1..]) {
          var i :| 0 <= i < |rs| && x == DepOf(rs[i]);
          if i > 0 {
            assert x == DepOf(rs[1..][i - 1]);
          }
        }
        forall x | x in DepsOfReads(rs[1..]) ensures x in DepsOfReads(rs) {
          var i :| 0 <= i < |rs[1..]| && x == DepOf(rs[1..][i]);
          assert x == DepOf(rs[i + 1]);
        }
      }
    }
  }

  /** Recording the same read twice records it once. */
  lemma RecordIdempotent(d: Deps, r: Read)
    ensures Record(Record(d, r), r) == Record(d, r)
  {
    match r.event
    case None =>
    case Some(k) =>
      var e := Record(d, r);
      assert e.keys[r.obj] + {k} == e.keys[r.obj];
  }

  /** The order of two reads does not matter to what is recorded. */
  lemma RecordCommutes(d: Deps, a: Read, b: Read)
    ensures Record(Record(d, a), b) == Record(Record(d, b), a)
  {
    var ab, ba := Record(Record(d, a), b), Record(Record(d, b), a);
    if a.event.Some? && b.event.Some? {
      assert ab.values == ba.values;
      forall o | o in ab.keys ensures o in ba.keys && ab.keys[o] == ba.keys[o] {
      }
      assert ab.keys == ba.keys;
    }
  }

  /**
   * Observing while the top frame records (non-empty stack, ignore 0) keeps
   * the read: in the trap list when a trap is active, otherwise among the
   * frame's dependencies, which grow by that read alone; in every other state
   * it changes nothing.
   */
  lemma ObservedKeeps(v: Option<FrameView>, r: Read)
    ensures !Observing(v) ==> Observed(v, r) == v
    ensures Observing(v) && v.value.trapped.Some? ==>
              Observed(v, r).value.deps == v.value.deps && Observed(v, r).value.trapped.value == v.value.trapped.value + [r]
    ensures Observing(v) && v.value.trapped.None? ==>
              Observed(v, r).value.trapped.None? && DepSet(Observed(v, r).value.deps) == DepSet(v.value.deps) + {DepOf(r)}
  {
    if Observing(v) && v.value.trapped.None? {
      RecordDeps(v.value.deps, r);
    }
  }

  /** Observing the same read twice is the same as observing it once when nothing traps it. */
  lemma ObservedIdempotent(v: Option<FrameView>, r: Read)
    requires v.Some? ==> v.value.trapped.None?
    ensures Observed(Observed(v, r), r) == Observed(v, r)
  {
    if Observing(v) {
      RecordIdempotent(v.value.deps, r);
    }
  }

  /** Without a trap, `observeMany` records the union of its reads' dependencies. */
  lemma ObservedManyDeps(v: Option<FrameView>, rs: seq<Read>)
    requires Observing(v) && v.value.trapped.None?
    ensures ObservedMany(v, rs).value.trapped.None?
    ensures DepSet(ObservedMany(v, rs).value.deps) == DepSet(v.value.deps) + DepsOfReads(rs)
  {
    RecordAllDeps(v.value.deps, rs);
  }

  /**
   * A function's reads, observed one by one, leave the top frame as one
   * `observeMany` of them would while it observes, and unchanged otherwise.
   */
  lemma {:induction false} ObservedEachIsMany(v: Option<FrameView>, rs: seq<Read>)
    ensures !Observing(v) ==> ObservedEach(v, rs) == v
    ensures Observing(v) ==> ObservedEach(v, rs) == ObservedMany(v, rs)
    decreases |rs|
  {
    if rs == [] {
      if v.Some? && v.value.trapped.Some? {
        assert v.value.trapped.value + rs == v.value.trapped.value;
      }
    } else {
      ObservedEachIsMany(Observed(v, rs[0]), rs[1..]);
      assert rs == [rs[0]] + rs[1..];
      if Observing(v) && v.value.trapped.Some? {
        assert v.value.trapped.value + [rs[0]] + rs[1..] == v.value.trapped.value + rs;
      } else if Observing(v) {
        assert RecordAll(v.value.deps, rs) == RecordAll(Record(v.value.deps, rs[0]), rs[1..]);
      }
    }
  }
}
