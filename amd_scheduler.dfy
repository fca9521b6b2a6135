/**
 * The two-phase scheduler of `can-observation` as bundled in
 * `dist/amd/can-observation.js`: `registerUpdate`, `updateAndNotify`,
 * `afterUpdateAndNotify` and the static `Observation.update`. The bundle's
 * `Observation` methods that talk to it (`get`, `update`, `notify`,
 * `dependencyChange`) are in `AmdObservation`.
 *
 * Each cell of the `updateOrder` table holds two stacks, `updates` and
 * `notifications`; the model keeps them in two maps over the same cells and
 * reuses the rows, cursors and counting of `UpdateOrder`. A drain pops an
 * observation from the cell under the cursors, moves it to that cell's
 * `notifications` and updates it; only once the cell has no updates left does
 * it pop and notify. An `isUpdating` flag makes a nested `updateAndNotify`
 * return at once, and callbacks handed to `afterUpdateAndNotify` during a
 * drain run, in order, once it has finished.
 *
 * What an update or a notification sets off before control returns to the
 * loop is a script, as in `UpdateOrder`: the k-th one makes the
 * registrations and defers the callback of `script[k]`.
 */
module AmdScheduler {
  import opened Common
  import opened UpdateOrder

  /** What the scheduler did, in order: `update` or `notify` on an
      observation with the current batch number, or an after-callback run. */
  datatype Act = Updated(observation: Id, batchNum: Option<nat>) | Notified(observation: Id, batchNum: Option<nat>) | Ran(callback: Id)

  /** What the k-th `update` or `notify` of a drain sets off: the
      observations whose dependencies it changes register, and the callback
      it hands to `afterUpdateAndNotify`, if any. */
  datatype Reaction = Reaction(registers: seq<Registration>, defer: Option<Id>)

  /** One turn of the `while (true)` loop. */
  datatype Move = Advanced | Updating(observation: Id) | Notifying(observation: Id)

  /** The multiset of a sequence, element by element from the back. It is
      `multiset(s)` (`BagIsMultiset`); the drain's books are kept with it
      because its snoc and append lemmas need no reasoning about sequence
      indices, and `Settle` converts back to `multiset` for `Flushed`. */
  ghost function Bag(s: seq<Id>): multiset<Id>
  {
    if s == [] then multiset{} else Bag(s[..|s| - 1]) + multiset{s[|s| - 1]}
  }

  lemma {:induction false} BagSize(s: seq<Id>)
    ensures |Bag(s)| == |s|
    decreases |s|
  {
    if s != [] {
      BagSize(s[..|s| - 1]);
    }
  }

  lemma BagSnoc(s: seq<Id>, x: Id)
    ensures Bag(s + [x]) == Bag(s) + multiset{x}
  {
    assert (s + [x])[..|s|] == s;
  }

  lemma {:induction false} BagAppend(a: seq<Id>, b: seq<Id>)
    ensures Bag(a + b) == Bag(a) + Bag(b)
    decreases |b|
  {
    if b != [] {
      var b' := b[..|b| - 1];
      assert a + b == (a + b') + [b[|b| - 1]];
      assert b == b' + [b[|b| - 1]];
      BagAppend(a, b');
      BagSnoc(a + b', b[|b| - 1]);
      BagSnoc(b', b[|b| - 1]);
    } else {
      assert a + b == a;
    }
  }

  lemma {:induction false} BagIsMultiset(s: seq<Id>)
    ensures Bag(s) == multiset(s)
    decreases |s|
  {
    if s != [] {
      assert s == s[..|s| - 1] + [s[|s| - 1]];
      BagIsMultiset(s[..|s| - 1]);
    }
  }

  /** The observations whose `update` the log records, in order. */
  function UpdatedIn(log: seq<Act>): seq<Id>
  {
    if log == [] then []
    else UpdatedIn(log[..|log| - 1]) + (if log[|log| - 1].Updated? then [log[|log| - 1].observation] else [])
  }

  /** The observations whose `notify` the log records, in order. */
  function NotifiedIn(log: seq<Act>): seq<Id>
  {
    if log == [] then []
    else NotifiedIn(log[..|log| - 1]) + (if log[|log| - 1].Notified? then [log[|log| - 1].observation] else [])
  }

  /** `afterCB.forEach(cb => cb())`, as logged. */
  function Runs(cbs: seq<Id>): seq<Act>
  {
    seq(|cbs|, i requires 0 <= i < |cbs| => Ran(cbs[i]))
  }

  /** The registrations of the script, step by step. */
  function Registrations(script: seq<Reaction>): seq<seq<Registration>>
  {
    seq(|script|, i requires 0 <= i < |script| => script[i].registers)
  }

  /** The registrations the k-th step makes. */
  function Adds(script: seq<Reaction>, k: nat): seq<Registration>
  {
    if k < |script| then script[k].registers else []
  }

  /** The callback the k-th step defers, if any. */
  function Defers(script: seq<Reaction>, k: nat): seq<Id>
  {
    if k < |script| && script[k].defer.Some? then [script[k].defer.value] else []
  }

  /** The callbacks the first k steps defer, in order. */
  function Deferred(script: seq<Reaction>, k: nat): seq<Id>
  {
    if k == 0 then [] else Deferred(script, k - 1) + Defers(script, k - 1)
  }

  /** The table after pushing each registration's observation onto its
      cell's `updates`, in order. */
  function PushAll(cells: map<Cell, seq<Id>>, regs: seq<Registration>): map<Cell, seq<Id>>
    decreases |regs|
  {
    if regs == [] then cells
    else
      var r := regs[0];
      PushAll(cells[r.Cell() := StackOf(cells, r.Cell()) + [r.observation]], regs[1..])
  }

  /** Pushing a list of registrations queues exactly their observations. */
  lemma {:induction false} PushAllContents(cells: map<Cell, seq<Id>>, regs: seq<Registration>)
    ensures Contents(PushAll(cells, regs)) == Contents(cells) + Bag(Observations(regs))
    decreases |regs|
  {
    if regs != [] {
      var r := regs[0];
      var pushed := cells[r.Cell() := StackOf(cells, r.Cell()) + [r.observation]];
      PushAllContents(pushed, regs[1..]);
      ContentsPush(cells, r.Cell(), r.observation);
      BagAppend([r.observation], Observations(regs[1..]));
      assert Bag([r.observation]) == multiset{r.observation} by {
        assert [r.observation][..0] == [];
      }
    }
  }

  /** `updates.indexOf(o)`: the position of the first `o` in `s`, or -1 when there is none. */
  function IndexOf(s: seq<Id>, o: Id): (i: int)
    ensures -1 <= i < |s|
    ensures i == -1 <==> o !in s
    ensures 0 <= i ==> s[i] == o && o !in s[..i]
  {
    if s == [] then -1
    else if s[0] == o then 0
    else
      var j := IndexOf(s[1..], o);
      if j == -1 then -1
      else
        assert s[..j + 1] == [s[0]] + s[1..][..j];
        j + 1
  }

  /** `s.splice(i, 1)`: `s` without its `i`-th element. */
  function Splice(s: seq<Id>, i: nat): (r: seq<Id>)
    requires i < |s|
    ensures |r| == |s| - 1
  {
    s[..i] + s[i + 1..]
  }

  /** Splicing out the `i`-th observation of cell `c` takes exactly that one out of the table. */
  lemma SpliceContents(cells: map<Cell, seq<Id>>, c: Cell, i: nat)
    requires c in cells && i < |cells[c]|
    ensures QueuedOne(cells[c := Splice(cells[c], i)], cells, cells[c][i])
  {
    var s := cells[c];
    ContentsBeside(cells, c, Splice(s, i));
    assert s == s[..i] + [s[i]] + s[i + 1..];
    assert multiset(s) == multiset(s[..i] + s[i + 1..]) + multiset{s[i]};
  }

  /** The cell both cursors stand on, when the primary cursor is on a row whose cursor is not `Infinity`. */
  function UnderCursor(rows: map<nat, Row>, cur: Depth): Option<Cell>
  {
    if cur.Finite? && cur.n in rows && rows[cur.n].current.Finite? then Some((cur.n, rows[cur.n].current.n)) else None
  }

  /** No non-empty cell comes before `c` in primary-depth-then-depth order. */
  ghost predicate First(cells: map<Cell, seq<Id>>, c: Cell)
  {
    forall c': Cell :: c' in cells && cells[c'] != [] ==> c.0 < c'.0 || (c.0 == c'.0 && c.1 <= c'.1)
  }

  /** No cell before `c` holds an update or a notification. */
  ghost predicate Front(updates: map<Cell, seq<Id>>, notifications: map<Cell, seq<Id>>, c: Cell)
  {
    First(updates, c) && First(notifications, c)
  }

  /** `after` is `before` with the top of cell `c`, which is `o`, popped. */
  ghost predicate Popped(before: map<Cell, seq<Id>>, after: map<Cell, seq<Id>>, c: Cell, o: Id)
  {
    c in before && before[c] != [] && o == before[c][|before[c]| - 1] &&
    after == before[c := before[c][..|before[c]| - 1]]
  }

  /** The drain's bookkeeping since it started with `u0` waiting for update
      and `n0` for notification: what waits for update plus what was
      `updated` is `u0` plus what was `registered`; what waits for
      notification plus what was `notified` is `n0` plus what was updated. */
  ghost predicate Books(updates: multiset<Id>, notifications: multiset<Id>, updated: multiset<Id>, notified: multiset<Id>,
                        u0: multiset<Id>, n0: multiset<Id>, registered: multiset<Id>)
  {
    updates + updated == u0 + registered && notifications + notified == n0 + updated
  }

  /** A finished drain: every observation waiting for update at the start
      or registered during the drain was updated once, and every one updated,
      together with every one waiting for notification at the start, was
      notified once. */
  ghost predicate Flushed(done: seq<Act>, u0: multiset<Id>, n0: multiset<Id>, script: seq<Reaction>)
  {
    multiset(UpdatedIn(done)) == u0 + multiset(Registered(Registrations(script), |done|)) &&
    multiset(NotifiedIn(done)) == n0 + multiset(UpdatedIn(done))
  }

  /** The drain's bookkeeping (see `Books`) for a drain that started at
      `log0` and whose first `k` steps have set off their registrations. */
  ghost predicate Ledger(log0: seq<Act>, log: seq<Act>, updates: map<Cell, seq<Id>>, notifications: map<Cell, seq<Id>>,
                         u0: multiset<Id>, n0: multiset<Id>, script: seq<Reaction>, k: nat)
  {
    log0 <= log &&
    Books(Contents(updates), Contents(notifications), Bag(UpdatedIn(log[|log0|..])), Bag(NotifiedIn(log[|log0|..])),
          u0, n0, Bag(Registered(Registrations(script), k)))
  }

  /** What is left to do: each waiting update costs two turns (its update
      and its notification), each waiting notification one, and so does
      each registration the script still holds. */
  ghost function Weight(updates: map<Cell, seq<Id>>, notifications: map<Cell, seq<Id>>, script: seq<Reaction>, k: nat): nat
  {
    2 * |Contents(updates)| + |Contents(notifications)| + 2 * Pending(Registrations(script), k)
  }

  /** The module-level state of the bundle: `updateOrder`, the cursors,
      `currentBatchNum`, `isUpdating` and `afterCallbacks`. */
  class Scheduler {
    var rows: map<nat, Row>
    var updates: map<Cell, seq<Id>>
    var notifications: map<Cell, seq<Id>>
    var curPrimaryDepth: Depth
    var maxPrimaryDepth: nat
    var currentBatchNum: Option<nat>
    var isUpdating: bool
    var afterCallbacks: seq<Id>
    /** Every `update`, `notify` and after-callback, in order. */
    var log: seq<Act>

    /** Both stacks of every cell lie inside the cursors. */
    ghost predicate Valid()
      reads this`rows, this`updates, this`notifications, this`curPrimaryDepth, this`maxPrimaryDepth
    {
      Covered(rows, updates, curPrimaryDepth, maxPrimaryDepth) &&
      Covered(rows, notifications, curPrimaryDepth, maxPrimaryDepth)
    }

    constructor()
      ensures rows == map[] && updates == map[] && notifications == map[]
      ensures curPrimaryDepth == Infinity && maxPrimaryDepth == 0
      ensures currentBatchNum == None && !isUpdating && afterCallbacks == [] && log == []
      ensures Valid()
    {
      rows := map[];
      updates := map[];
      notifications := map[];
      curPrimaryDepth := Infinity;
      maxPrimaryDepth := 0;
      currentBatchNum := None;
      isUpdating := false;
      afterCallbacks := [];
      log := [];
    }

    /** The table part of `Observation.registerUpdate`: push onto the cell's
        `updates` and widen the cursors. */
    method Register(r: Registration)
      requires Valid()
      modifies this`rows, this`updates, this`curPrimaryDepth, this`maxPrimaryDepth
      ensures Valid()
      ensures updates == old(updates)[r.Cell() := StackOf(old(updates), r.Cell()) + [r.observation]]
      ensures curPrimaryDepth == old(curPrimaryDepth).MinWith(r.primaryDepth)
      ensures maxPrimaryDepth == Max(r.primaryDepth, old(maxPrimaryDepth))
      ensures var row := RowOf(old(rows), r.primaryDepth);
        rows == old(rows)[r.primaryDepth := Row(row.current.MinWith(r.depth), Max(r.depth, row.max))]
      ensures QueuedOne(old(updates), updates, r.observation)
    {
      var p, d := r.primaryDepth, r.depth;
      curPrimaryDepth := curPrimaryDepth.MinWith(p);
      maxPrimaryDepth := Max(p, maxPrimaryDepth);
      var row := RowOf(rows, p);
      var stack := StackOf(updates, (p, d));
      updates := updates[(p, d) := stack + [r.observation]];
      rows := rows[p := Row(row.current.MinWith(d), Max(d, row.max))];
      ContentsPush(old(updates), (p, d), r.observation);
      RegisterCovers(old(rows), old(updates), old(curPrimaryDepth), old(maxPrimaryDepth), r);
      WidenCovers(old(rows), notifications, old(curPrimaryDepth), old(maxPrimaryDepth), r);
    }

    /** The registrations one step sets off, in order. */
    method RegisterAll(regs: seq<Registration>)
      requires Valid()
      modifies this`rows, this`updates, this`curPrimaryDepth, this`maxPrimaryDepth
      ensures Valid()
      ensures updates == PushAll(old(updates), regs)
    {
      for i := 0 to |regs|
        invariant Valid()
        invariant PushAll(updates, regs[i..]) == PushAll(old(updates), regs)
      {
        assert regs[i..][1..] == regs[i + 1..];
        Register(regs[i]);
      }
    }

    /** The loop body of `updateAndNotify` while `curPrimaryDepth <= maxPrimaryDepth`,
        up to the `update` or `notify` call: pop an update and move it to the
        cell's notifications; else pop a notification; else advance a cursor. */
    method Step() returns (m: Move)
      requires Valid() && curPrimaryDepth.NotAfter(maxPrimaryDepth)
      modifies this`rows, this`updates, this`notifications, this`curPrimaryDepth
      ensures Valid()
      ensures !m.Advanced? ==> rows == old(rows) && curPrimaryDepth == old(curPrimaryDepth)
      ensures !m.Advanced? ==> UnderCursor(rows, curPrimaryDepth).Some? &&
                               Front(old(updates), old(notifications), UnderCursor(rows, curPrimaryDepth).value)
      ensures m.Updating? ==> var c := UnderCursor(rows, curPrimaryDepth).value;
        Popped(old(updates), updates, c, m.observation) &&
        notifications == old(notifications)[c := StackOf(old(notifications), c) + [m.observation]]
      ensures m.Notifying? ==> var c := UnderCursor(rows, curPrimaryDepth).value;
        StackOf(old(updates), c) == [] && Popped(old(notifications), notifications, c, m.observation) &&
        updates == old(updates)
      ensures m.Advanced? ==> updates == old(updates) && notifications == old(notifications)
      ensures m.Advanced? ==> Moved(old(rows), old(curPrimaryDepth), rows, curPrimaryDepth, maxPrimaryDepth)
    {
      var p := curPrimaryDepth.n;
      if p in rows && rows[p].current.NotAfter(rows[p].max) {
        var c := (p, rows[p].current.n);
        var ups := StackOf(updates, c);
        if ups != [] {
          CursorFirst(rows, updates, curPrimaryDepth, maxPrimaryDepth);
          CursorFirst(rows, notifications, curPrimaryDepth, maxPrimaryDepth);
          var o := MoveUpdate(c);
          m := Updating(o);
        } else {
          var notes := StackOf(notifications, c);
          if notes != [] {
            CursorFirst(rows, updates, curPrimaryDepth, maxPrimaryDepth);
            CursorFirst(rows, notifications, curPrimaryDepth, maxPrimaryDepth);
            var o := PopNotification(c);
            m := Notifying(o);
          } else {
            rows := rows[p := rows[p].(current := Finite(c.1 + 1))];
            RowAdvanceCovered(old(rows), updates, p, c.1, maxPrimaryDepth);
            RowAdvanceCovered(old(rows), notifications, p, c.1, maxPrimaryDepth);
            m := Advanced;
          }
        }
      } else {
        curPrimaryDepth := Finite(p + 1);
        PrimaryAdvanceCovered(rows, updates, p, maxPrimaryDepth);
        PrimaryAdvanceCovered(rows, notifications, p, maxPrimaryDepth);
        m := Advanced;
      }
    }

    /** `last.updates.pop()` and `last.notifications.push(lastUpdate)`. */
    method MoveUpdate(c: Cell) returns (o: Id)
      requires Valid() && UnderCursor(rows, curPrimaryDepth) == Some(c) && StackOf(updates, c) != []
      modifies this`updates, this`notifications
      ensures Valid()
      ensures Popped(old(updates), updates, c, o)
      ensures notifications == old(notifications)[c := StackOf(old(notifications), c) + [o]]
    {
      var ups := updates[c];
      o := ups[|ups| - 1];
      updates := updates[c := ups[..|ups| - 1]];
      notifications := notifications[c := StackOf(notifications, c) + [o]];
      Refill(rows, old(updates), old(updates), curPrimaryDepth, maxPrimaryDepth, c, ups[..|ups| - 1]);
      Refill(rows, old(notifications), old(updates), curPrimaryDepth, maxPrimaryDepth, c, StackOf(old(notifications), c) + [o]);
    }

    /** `last.notifications.pop()`. */
    method PopNotification(c: Cell) returns (o: Id)
      requires Valid() && StackOf(notifications, c) != []
      modifies this`notifications
      ensures Valid()
      ensures Popped(old(notifications), notifications, c, o)
    {
      var notes := notifications[c];
      o := notes[|notes| - 1];
      notifications := notifications[c := notes[..|notes| - 1]];
      Refill(rows, old(notifications), old(notifications), curPrimaryDepth, maxPrimaryDepth, c, notes[..|notes| - 1]);
    }

    /** One turn of the drain: a cursor move, or a pop followed by
        `lastUpdate.update(currentBatchNum)` or
        `lastNotify.notify(currentBatchNum)` and whatever that sets off. */
    method Turn(script: seq<Reaction>, k: nat, ghost log0: seq<Act>, ghost u0: multiset<Id>, ghost n0: multiset<Id>)
      returns (m: Move)
      requires Valid() && isUpdating && curPrimaryDepth.NotAfter(maxPrimaryDepth)
      requires k == |log| - |log0| && Ledger(log0, log, updates, notifications, u0, n0, script, k)
      modifies this`rows, this`updates, this`notifications, this`curPrimaryDepth, this`maxPrimaryDepth, this`afterCallbacks, this`log
      ensures Valid() && isUpdating
      ensures m.Advanced? ==> log == old(log) && afterCallbacks == old(afterCallbacks) &&
                              updates == old(updates) && notifications == old(notifications) &&
                              maxPrimaryDepth == old(maxPrimaryDepth) &&
                              Moved(old(rows), old(curPrimaryDepth), rows, curPrimaryDepth, maxPrimaryDepth)
      ensures !m.Advanced? ==> |log| == |old(log)| + 1 && afterCallbacks == old(afterCallbacks) + Defers(script, k)
      ensures !m.Advanced? ==> Ledger(log0, log, updates, notifications, u0, n0, script, k + 1)
      ensures !m.Advanced? ==> Weight(updates, notifications, script, k + 1) < Weight(old(updates), old(notifications), script, k)
    {
      m := Step();
      if m.Updating? {
        FollowUpdate(m.observation, UnderCursor(rows, curPrimaryDepth).value, old(updates), old(notifications), script, k, log0, u0, n0);
      } else if m.Notifying? {
        FollowNotify(m.observation, UnderCursor(rows, curPrimaryDepth).value, old(updates), old(notifications), script, k, log0, u0, n0);
      }
    }

    /** The rest of a turn that moved `o` from updates cell `c` of `u` to
        the notifications: `lastUpdate.update(currentBatchNum)` and whatever
        that sets off. */
    method FollowUpdate(o: Id, c: Cell, ghost u: map<Cell, seq<Id>>, ghost n: map<Cell, seq<Id>>,
                        script: seq<Reaction>, k: nat, ghost log0: seq<Act>, ghost u0: multiset<Id>, ghost n0: multiset<Id>)
      requires Valid() && isUpdating
      requires k == |log| - |log0| && Ledger(log0, log, u, n, u0, n0, script, k)
      requires Popped(u, updates, c, o) && notifications == n[c := StackOf(n, c) + [o]]
      modifies this`rows, this`updates, this`curPrimaryDepth, this`maxPrimaryDepth, this`afterCallbacks, this`log
      ensures Valid() && isUpdating
      ensures |log| == |old(log)| + 1 && afterCallbacks == old(afterCallbacks) + Defers(script, k)
      ensures Ledger(log0, log, updates, notifications, u0, n0, script, k + 1)
      ensures Weight(updates, notifications, script, k + 1) < Weight(u, n, script, k)
    {
      ghost var mid := updates;
      log := log + [Act.Updated(o, currentBatchNum)];
      React(k, script);
      UpdateTurn(log0, old(log), log, u, n, mid, updates, notifications, c, o, currentBatchNum, u0, n0, script, k);
    }

    /** The rest of a turn that popped `o` from notifications cell `c` of `n`, with `u` the updates:
        `lastNotify.notify(currentBatchNum)` and whatever that sets off. */
    method FollowNotify(o: Id, c: Cell, ghost u: map<Cell, seq<Id>>, ghost n: map<Cell, seq<Id>>,
                        script: seq<Reaction>, k: nat, ghost log0: seq<Act>, ghost u0: multiset<Id>, ghost n0: multiset<Id>)
      requires Valid() && isUpdating
      requires k == |log| - |log0| && Ledger(log0, log, u, n, u0, n0, script, k)
      requires updates == u && Popped(n, notifications, c, o)
      modifies this`rows, this`updates, this`curPrimaryDepth, this`maxPrimaryDepth, this`afterCallbacks, this`log
      ensures Valid() && isUpdating
      ensures |log| == |old(log)| + 1 && afterCallbacks == old(afterCallbacks) + Defers(script, k)
      ensures Ledger(log0, log, updates, notifications, u0, n0, script, k + 1)
      ensures Weight(updates, notifications, script, k + 1) < Weight(u, n, script, k)
    {
      log := log + [Notified(o, currentBatchNum)];
      React(k, script);
      NotifyTurn(log0, old(log), log, u, n, notifications, updates, c, o, currentBatchNum, u0, n0, script, k);
    }

    /** What the k-th `update` or `notify` sets off: its registrations and its deferred callback. */
    method React(k: nat, script: seq<Reaction>)
      requires Valid() && isUpdating
      modifies this`rows, this`updates, this`curPrimaryDepth, this`maxPrimaryDepth, this`afterCallbacks, this`log
      ensures Valid() && isUpdating && log == old(log)
      ensures updates == PushAll(old(updates), Adds(script, k))
      ensures afterCallbacks == old(afterCallbacks) + Defers(script, k)
    {
      if k < |script| {
        RegisterAll(script[k].registers);
        if script[k].defer.Some? {
          AfterUpdateAndNotify(script[k].defer.value);
        }
      }
    }

    /** The `while (true)` loop of `updateAndNotify` up to the point where
        the cursors have run past the end. */
    method Drain(script: seq<Reaction>)
      requires Valid() && isUpdating
      modifies this`rows, this`updates, this`notifications, this`curPrimaryDepth, this`maxPrimaryDepth, this`afterCallbacks, this`log
      ensures isUpdating && old(log) <= log
      ensures Flushed(log[|old(log)|..], old(Contents(updates)), old(Contents(notifications)), script)
      ensures afterCallbacks == old(afterCallbacks) + Deferred(script, |log| - |old(log)|)
    {
      ghost var log0, u0, n0, cb0 := log, Contents(updates), Contents(notifications), afterCallbacks;
      var k := 0;
      Opening(log, updates, notifications, script);
      while curPrimaryDepth.NotAfter(maxPrimaryDepth)
        invariant Valid() && isUpdating
        invariant k == |log| - |log0| && Ledger(log0, log, updates, notifications, u0, n0, script, k)
        invariant afterCallbacks == cb0 + Deferred(script, k)
        decreases Weight(updates, notifications, script, k), PrimaryLeft(curPrimaryDepth, maxPrimaryDepth), RowLeft(rows, curPrimaryDepth)
      {
        var m := Turn(script, k, log0, u0, n0);
        if !m.Advanced? {
          DeferredNext(cb0, script, k);
          k := k + 1;
        }
      }
      Settle(rows, updates, notifications, curPrimaryDepth, maxPrimaryDepth, log0, log, u0, n0, script);
    }

    /** `Observation.updateAndNotify(ev, batchNum)`, the `batchEnd`
        listener: record the batch number; unless a drain is already under
        way, drain the table, reset it, and run the after-callbacks
        gathered so far, in order, once each. `drained` is the part of the
        log the drain wrote. */
    method UpdateAndNotify(batchNum: nat, script: seq<Reaction>) returns (ghost drained: seq<Act>)
      requires Valid()
      modifies this
      ensures Valid() && currentBatchNum.Some?
      ensures old(isUpdating) ==> isUpdating && currentBatchNum == Some(batchNum) && drained == [] &&
                                  rows == old(rows) && updates == old(updates) && notifications == old(notifications) &&
                                  curPrimaryDepth == old(curPrimaryDepth) && maxPrimaryDepth == old(maxPrimaryDepth) &&
                                  afterCallbacks == old(afterCallbacks) && log == old(log)
      ensures !old(isUpdating) ==> !isUpdating && rows == map[] && updates == map[] && notifications == map[] &&
                                   curPrimaryDepth == Infinity && maxPrimaryDepth == 0 && afterCallbacks == []
      ensures !old(isUpdating) ==> Flushed(drained, old(Contents(updates)), old(Contents(notifications)), script)
      ensures !old(isUpdating) ==> log == old(log) + drained + Runs(old(afterCallbacks) + Deferred(script, |drained|))
    {
      currentBatchNum := Some(batchNum);
      if isUpdating {
        drained := [];
        return;
      }
      isUpdating := true;
      Drain(script);
      drained := log[|old(log)|..];
      Reset();
      isUpdating := false;
      var afterCB := afterCallbacks;
      afterCallbacks := [];
      RunAll(afterCB);
    }

    /** The static `Observation.update(observation)` for the observation
        `o` whose cell is `c`: when its row and cell exist and `o` is among
        the cell's `updates`, its first occurrence is spliced out, it is
        updated with `currentBatchNum` and pushed onto the cell's
        `notifications`; otherwise nothing happens. */
    method StaticUpdate(o: Id, c: Cell) returns (hit: bool)
      requires Valid()
      modifies this`updates, this`notifications, this`log
      ensures Valid()
      ensures hit <==> o in StackOf(old(updates), c)
      ensures hit ==>
        updates == old(updates)[c := Splice(old(updates)[c], IndexOf(old(updates)[c], o))] &&
        notifications == old(notifications)[c := StackOf(old(notifications), c) + [o]] &&
        log == old(log) + [Act.Updated(o, currentBatchNum)]
      ensures hit ==> QueuedOne(updates, old(updates), o) && QueuedOne(old(notifications), notifications, o)
      ensures !hit ==> updates == old(updates) && notifications == old(notifications) && log == old(log)
    {
      hit := false;
      assert o in StackOf(updates, c) ==> c.0 in rows;
      if c.0 in rows && c in updates {
        var ups := updates[c];
        var index := IndexOf(ups, o);
        if index != -1 {
          SpliceContents(updates, c, index);
          ContentsPush(notifications, c, o);
          Refill(rows, updates, updates, curPrimaryDepth, maxPrimaryDepth, c, Splice(ups, index));
          Refill(rows, notifications, updates, curPrimaryDepth, maxPrimaryDepth, c, StackOf(notifications, c) + [o]);
          updates := updates[c := Splice(ups, index)];
          log := log + [Act.Updated(o, currentBatchNum)];
          notifications := notifications[c := StackOf(notifications, c) + [o]];
          hit := true;
        }
      }
    }

    /** `updateOrder = []; curPrimaryDepth = Infinity; maxPrimaryDepth = 0`. */
    method Reset()
      modifies this`rows, this`updates, this`notifications, this`curPrimaryDepth, this`maxPrimaryDepth
      ensures rows == map[] && updates == map[] && notifications == map[]
      ensures curPrimaryDepth == Infinity && maxPrimaryDepth == 0 && Valid()
    {
      rows := map[];
      updates := map[];
      notifications := map[];
      curPrimaryDepth := Infinity;
      maxPrimaryDepth := 0;
    }

    /** `afterCB.forEach(function (cb) { cb(); })`. */
    method RunAll(cbs: seq<Id>)
      modifies this`log
      ensures log == old(log) + Runs(cbs)
    {
      for i := 0 to |cbs|
        invariant log == old(log) + Runs(cbs[..i])
      {
        log := log + [Ran(cbs[i])];
        assert Runs(cbs[..i + 1]) == Runs(cbs[..i]) + [Ran(cbs[i])];
      }
      assert cbs[..|cbs|] == cbs;
    }

    /** `Observation.afterUpdateAndNotify(callback)`, once `canBatch.after`
        calls back: queued while a drain is under way, else run at once. */
    method AfterUpdateAndNotify(cb: Id)
      modifies this`afterCallbacks, this`log
      ensures isUpdating ==> afterCallbacks == old(afterCallbacks) + [cb] && log == old(log)
      ensures !isUpdating ==> afterCallbacks == old(afterCallbacks) && log == old(log) + [Ran(cb)]
    {
      if isUpdating {
        afterCallbacks := afterCallbacks + [cb];
      } else {
        log := log + [Ran(cb)];
      }
    }
  }

  /** The cursors moved forward: the primary cursor, or the cursor of its row. */
  predicate Moved(rows0: map<nat, Row>, cur0: Depth, rows: map<nat, Row>, cur: Depth, maxP: nat)
  {
    PrimaryLeft(cur, maxP) < PrimaryLeft(cur0, maxP) ||
    (PrimaryLeft(cur, maxP) == PrimaryLeft(cur0, maxP) && RowLeft(rows, cur) < RowLeft(rows0, cur0))
  }

  lemma LogSnoc(log: seq<Act>, e: Act)
    ensures UpdatedIn(log + [e]) == UpdatedIn(log) + (if e.Updated? then [e.observation] else [])
    ensures NotifiedIn(log + [e]) == NotifiedIn(log) + (if e.Notified? then [e.observation] else [])
  {
    assert (log + [e])[..|log|] == log;
  }

  /** Moving an update to its cell's notifications takes one from the
      updates and adds one to the notifications. */
  lemma UpdateSizes(u: map<Cell, seq<Id>>, n: map<Cell, seq<Id>>, u': map<Cell, seq<Id>>, n': map<Cell, seq<Id>>, c: Cell, o: Id)
    requires Popped(u, u', c, o) && n' == n[c := StackOf(n, c) + [o]]
    ensures |Contents(u')| + 1 == |Contents(u)| && |Contents(n')| == |Contents(n)| + 1
  {
    ContentsPop(u, c);
    ContentsPush(n, c, o);
  }

  /** Logging one more act `e` extends the drain's log by `e`. */
  lemma LogStep(log0: seq<Act>, l: seq<Act>, e: Act, log: seq<Act>)
    requires log0 <= l && log == l + [e]
    ensures log0 <= log
    ensures UpdatedIn(log[|log0|..]) == UpdatedIn(l[|log0|..]) + (if e.Updated? then [e.observation] else [])
    ensures NotifiedIn(log[|log0|..]) == NotifiedIn(l[|log0|..]) + (if e.Notified? then [e.observation] else [])
  {
    assert log[|log0|..] == l[|log0|..] + [e];
    LogSnoc(l[|log0|..], e);
  }

  /** Popping an update `o` and moving it to its cell's notifications, while
      the log `done` grows to `grown` by its `update`, keeps the books; the
      work left drops by one. */
  lemma UpdateBooks(u: map<Cell, seq<Id>>, n: map<Cell, seq<Id>>, u': map<Cell, seq<Id>>, n': map<Cell, seq<Id>>,
                    c: Cell, o: Id, done: seq<Act>, grown: seq<Act>, u0: multiset<Id>, n0: multiset<Id>, registered: multiset<Id>)
    requires Books(Contents(u), Contents(n), Bag(UpdatedIn(done)), Bag(NotifiedIn(done)), u0, n0, registered)
    requires Popped(u, u', c, o) && n' == n[c := StackOf(n, c) + [o]]
    requires UpdatedIn(grown) == UpdatedIn(done) + [o] && NotifiedIn(grown) == NotifiedIn(done)
    ensures Books(Contents(u'), Contents(n'), Bag(UpdatedIn(grown)), Bag(NotifiedIn(grown)), u0, n0, registered)
  {
    ContentsPop(u, c);
    ContentsPush(n, c, o);
    BagSnoc(UpdatedIn(done), o);
    MoveToNotify(Contents(u), Contents(u'), Contents(n), Contents(n'), Bag(UpdatedIn(done)), Bag(UpdatedIn(grown)),
                 Bag(NotifiedIn(grown)), u0, n0, registered, o);
  }

  /** The multiset arithmetic of `UpdateBooks`. */
  lemma MoveToNotify(u: multiset<Id>, u': multiset<Id>, n: multiset<Id>, n': multiset<Id>, d: multiset<Id>, d': multiset<Id>,
                     notified: multiset<Id>, u0: multiset<Id>, n0: multiset<Id>, registered: multiset<Id>, o: Id)
    requires Books(u, n, d, notified, u0, n0, registered)
    requires u' + multiset{o} == u && n' == n + multiset{o} && d' == d + multiset{o}
    ensures Books(u', n', d', notified, u0, n0, registered)
  {
    assert u' + d' == u + d;
    assert n' + notified == (n + notified) + multiset{o};
  }

  /** Popping a notification `o` while the log `done` grows to `grown` by
      its `notify` keeps the books; the work left drops by one. */
  lemma NotifyBooks(u: map<Cell, seq<Id>>, n: map<Cell, seq<Id>>, n': map<Cell, seq<Id>>,
                    c: Cell, o: Id, done: seq<Act>, grown: seq<Act>, u0: multiset<Id>, n0: multiset<Id>, registered: multiset<Id>)
    requires Books(Contents(u), Contents(n), Bag(UpdatedIn(done)), Bag(NotifiedIn(done)), u0, n0, registered)
    requires Popped(n, n', c, o)
    requires UpdatedIn(grown) == UpdatedIn(done) && NotifiedIn(grown) == NotifiedIn(done) + [o]
    ensures Books(Contents(u), Contents(n'), Bag(UpdatedIn(grown)), Bag(NotifiedIn(grown)), u0, n0, registered)
    ensures |Contents(n')| + 1 == |Contents(n)|
  {
    ContentsPop(n, c);
    BagSnoc(NotifiedIn(done), o);
    SendNotice(Contents(u), Contents(n), Contents(n'), Bag(UpdatedIn(done)), Bag(NotifiedIn(done)),
               Bag(NotifiedIn(grown)), u0, n0, registered, o);
  }

  /** The multiset arithmetic of `NotifyBooks`. */
  lemma SendNotice(u: multiset<Id>, n: multiset<Id>, n': multiset<Id>, d: multiset<Id>, notified: multiset<Id>,
                   notified': multiset<Id>, u0: multiset<Id>, n0: multiset<Id>, registered: multiset<Id>, o: Id)
    requires Books(u, n, d, notified, u0, n0, registered)
    requires n' + multiset{o} == n && notified' == notified + multiset{o}
    ensures Books(u, n', d, notified', u0, n0, registered)
    ensures |n'| + 1 == |n|
  {
    assert n' + notified' == n + notified;
  }

  /** Queuing what the k-th step registers keeps the books and the work left. */
  lemma ReactBooks(mid: map<Cell, seq<Id>>, after: map<Cell, seq<Id>>, n: multiset<Id>, d: multiset<Id>, notified: multiset<Id>,
                   u0: multiset<Id>, n0: multiset<Id>, script: seq<Reaction>, k: nat)
    requires Books(Contents(mid), n, d, notified, u0, n0, Bag(Registered(Registrations(script), k)))
    requires after == PushAll(mid, Adds(script, k))
    ensures Books(Contents(after), n, d, notified, u0, n0, Bag(Registered(Registrations(script), k + 1)))
    ensures |Contents(after)| + Pending(Registrations(script), k + 1) == |Contents(mid)| + Pending(Registrations(script), k)
  {
    RegisteredNext(Registrations(script), k);
    PendingNext(Registrations(script), k);
    if k < |script| {
      var added := Observations(script[k].registers);
      PushAllContents(mid, script[k].registers);
      BagSize(added);
      assert Registrations(script)[k] == script[k].registers;
      BagAppend(Registered(Registrations(script), k), added);
      AddRegistered(Contents(mid), Contents(after), d, u0, Bag(Registered(Registrations(script), k)), Bag(added));
    }
  }

  /** The multiset arithmetic of `ReactBooks`. */
  lemma AddRegistered(mid: multiset<Id>, after: multiset<Id>, d: multiset<Id>, u0: multiset<Id>, registered: multiset<Id>, added: multiset<Id>)
    requires mid + d == u0 + registered && after == mid + added
    ensures after + d == u0 + (registered + added)
  {
    assert after + d == (mid + d) + added;
  }

  lemma DeferredNext(cbs: seq<Id>, script: seq<Reaction>, k: nat)
    ensures cbs + Deferred(script, k + 1) == cbs + Deferred(script, k) + Defers(script, k)
  {
  }

  /** At the start of a drain nothing has been logged or registered. */
  lemma Opening(log: seq<Act>, updates: map<Cell, seq<Id>>, notifications: map<Cell, seq<Id>>, script: seq<Reaction>)
    ensures Ledger(log, log, updates, notifications, Contents(updates), Contents(notifications), script, 0)
  {
    assert log[|log|..] == [];
  }

  /** Once the cursors have run past the end, both stacks of every cell are
      empty, so the books say the drain is complete. */
  lemma Settle(rows: map<nat, Row>, u: map<Cell, seq<Id>>, n: map<Cell, seq<Id>>, cur: Depth, maxP: nat,
               log0: seq<Act>, log: seq<Act>, u0: multiset<Id>, n0: multiset<Id>, script: seq<Reaction>)
    requires Covered(rows, u, cur, maxP) && Covered(rows, n, cur, maxP) && !cur.NotAfter(maxP)
    requires log0 <= log && Ledger(log0, log, u, n, u0, n0, script, |log| - |log0|)
    ensures Flushed(log[|log0|..], u0, n0, script)
  {
    var done := log[|log0|..];
    var reg := Registered(Registrations(script), |done|);
    assert Contents(u) == multiset{} && Contents(n) == multiset{} by {
      PastTheEndIsEmpty(rows, u, cur, maxP);
      PastTheEndIsEmpty(rows, n, cur, maxP);
      EmptyContents(u);
      EmptyContents(n);
    }
    Closing(Bag(UpdatedIn(done)), Bag(NotifiedIn(done)), u0, n0, Bag(reg));
    BagIsMultiset(UpdatedIn(done));
    BagIsMultiset(NotifiedIn(done));
    BagIsMultiset(reg);
  }

  /** The multiset arithmetic of `Settle`. */
  lemma Closing(d: multiset<Id>, notified: multiset<Id>, u0: multiset<Id>, n0: multiset<Id>, registered: multiset<Id>)
    requires Books(multiset{}, multiset{}, d, notified, u0, n0, registered)
    ensures d == u0 + registered && notified == n0 + d
  {
    assert multiset{} + d == d && multiset{} + notified == notified;
  }

  /** A turn that updates: the pop, the move to the cell's notifications,
      the logged `update` and the registrations it sets off keep the
      books, and the work left drops. */
  lemma UpdateTurn(log0: seq<Act>, l: seq<Act>, log: seq<Act>, u: map<Cell, seq<Id>>, n: map<Cell, seq<Id>>,
                   mid: map<Cell, seq<Id>>, after: map<Cell, seq<Id>>, n': map<Cell, seq<Id>>,
                   c: Cell, o: Id, b: Option<nat>, u0: multiset<Id>, n0: multiset<Id>, script: seq<Reaction>, k: nat)
    requires Ledger(log0, l, u, n, u0, n0, script, k)
    requires Popped(u, mid, c, o) && n' == n[c := StackOf(n, c) + [o]]
    requires after == PushAll(mid, Adds(script, k)) && log == l + [Act.Updated(o, b)]
    ensures Ledger(log0, log, after, n', u0, n0, script, k + 1)
    ensures Weight(after, n', script, k + 1) < Weight(u, n, script, k)
  {
    LogStep(log0, l, Act.Updated(o, b), log);
    UpdateSizes(u, n, mid, n', c, o);
    UpdateBooks(u, n, mid, n', c, o, l[|log0|..], log[|log0|..], u0, n0, Bag(Registered(Registrations(script), k)));
    ReactBooks(mid, after, Contents(n'), Bag(UpdatedIn(log[|log0|..])), Bag(NotifiedIn(log[|log0|..])), u0, n0, script, k);
  }

  /** A turn that notifies: the pop, the logged `notify` and the
      registrations it sets off keep the books, and the work left drops. */
  lemma NotifyTurn(log0: seq<Act>, l: seq<Act>, log: seq<Act>, u: map<Cell, seq<Id>>, n: map<Cell, seq<Id>>,
                   n': map<Cell, seq<Id>>, after: map<Cell, seq<Id>>,
                   c: Cell, o: Id, b: Option<nat>, u0: multiset<Id>, n0: multiset<Id>, script: seq<Reaction>, k: nat)
    requires Ledger(log0, l, u, n, u0, n0, script, k)
    requires Popped(n, n', c, o)
    requires after == PushAll(u, Adds(script, k)) && log == l + [Notified(o, b)]
    ensures Ledger(log0, log, after, n', u0, n0, script, k + 1)
    ensures Weight(after, n', script, k + 1) < Weight(u, n, script, k)
  {
    LogStep(log0, l, Notified(o, b), log);
    NotifyBooks(u, n, n', c, o, l[|log0|..], log[|log0|..], u0, n0, Bag(Registered(Registrations(script), k)));
    ReactBooks(u, after, Contents(n'), Bag(UpdatedIn(log[|log0|..])), Bag(NotifiedIn(log[|log0|..])), u0, n0, script, k);
  }

  /** Registering widens the cursors, so whatever they covered they still cover. */
  lemma WidenCovers(rows: map<nat, Row>, cells: map<Cell, seq<Id>>, cur: Depth, maxP: nat, r: Registration)
    requires Covered(rows, cells, cur, maxP)
    ensures var row := RowOf(rows, r.primaryDepth);
      Covered(rows[r.primaryDepth := Row(row.current.MinWith(r.depth), Max(r.depth, row.max))],
              cells, cur.MinWith(r.primaryDepth), Max(r.primaryDepth, maxP))
  {
  }

  /** A cell that holds something in a covered table lies inside the cursors,
      so any stack may be put there. */
  lemma Refill(rows: map<nat, Row>, cells: map<Cell, seq<Id>>, other: map<Cell, seq<Id>>, cur: Depth, maxP: nat,
               c: Cell, s: seq<Id>)
    requires Covered(rows, cells, cur, maxP) && Covered(rows, other, cur, maxP)
    requires c in other && other[c] != []
    ensures Covered(rows, cells[c := s], cur, maxP)
  {
  }

  /** Under covering cursors nothing comes before the cell they stand on. */
  lemma CursorFirst(rows: map<nat, Row>, cells: map<Cell, seq<Id>>, cur: Depth, maxP: nat)
    requires Covered(rows, cells, cur, maxP) && UnderCursor(rows, cur).Some?
    ensures First(cells, UnderCursor(rows, cur).value)
  {
    var c := UnderCursor(rows, cur).value;
    forall c': Cell | c' in cells && cells[c'] != []
      ensures c.0 < c'.0 || (c.0 == c'.0 && c.1 <= c'.1)
    {
      assert cur.NotAfter(c'.0);
      if c'.0 == c.0 {
        assert rows[c.0].current.NotAfter(c'.1);
      }
    }
  }
}
