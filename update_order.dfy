/**
 * The depth-ordered update scheduler of `can-observation` 3.0 as bundled in
 * `dist/global/can-observation.js` (`registerUpdate`, `updateUntil`,
 * `batchEnd`), which `can-observe-info` repeats without the
 * `currentBatchNum` variable.
 *
 * The module-level `updateOrder` table is a sparse array of rows indexed by
 * primary depth; each row holds a cursor `current`, a bound `max` and a
 * sparse array of stacks indexed by depth. The model keeps the rows and the
 * stacks in two maps. An observation is known here by its identity and the
 * two depths it is registered under.
 *
 * Updating an observation runs its compute, which may register further
 * observations before control returns to the loop. The model takes those
 * registrations as a script: the k-th update of a drain registers
 * `reactions[k]` (nothing once the script runs out).
 */
module UpdateOrder {
  import opened Common

  /** The cell an observation is registered in: `updateOrder[primaryDepth].observations[depth]`. */
  type Cell = (nat, nat)

  /** `registerUpdate(observation)`, with `depth == observation.getDepth() - 1` and
      `primaryDepth == observation.getPrimaryDepth()` already computed. */
  datatype Registration = Registration(observation: Id, primaryDepth: nat, depth: nat)
  {
    function Cell(): Cell { (primaryDepth, depth) }
  }

  /** One row's cursor: `{current, max}`. */
  datatype Row = Row(current: Depth, max: nat)

  /** `cur.updateCompute(batchNum)` was called. */
  datatype Effect = Updated(observation: Id, batchNum: Option<nat>)

  /** The row a registration finds or creates (`updateOrder[p] || {current: Infinity, max: 0}`). */
  function RowOf(rows: map<nat, Row>, p: nat): Row
  {
    if p in rows then rows[p] else Row(Infinity, 0)
  }

  /** The stack a registration finds or creates. */
  function StackOf(cells: map<Cell, seq<Id>>, c: Cell): seq<Id>
  {
    if c in cells then cells[c] else []
  }

  /** Every queued observation lies inside the cursors: its row is at or after
      `curPrimaryDepth` and at most `maxPrimaryDepth`, and its depth is at or
      after the row's `current` and at most the row's `max`. */
  ghost predicate Covered(rows: map<nat, Row>, cells: map<Cell, seq<Id>>, cur: Depth, maxP: nat)
  {
    forall c: Cell :: c in cells && cells[c] != [] ==>
      cur.NotAfter(c.0) && c.0 <= maxP && c.0 in rows &&
      rows[c.0].current.NotAfter(c.1) && c.1 <= rows[c.0].max
  }

  /** `c` is the lowest non-empty cell in primary-depth-then-depth order. */
  ghost predicate Lowest(cells: map<Cell, seq<Id>>, c: Cell)
  {
    c in cells && cells[c] != [] &&
    forall c': Cell :: c' in cells && cells[c'] != [] ==> c.0 < c'.0 || (c.0 == c'.0 && c.1 <= c'.1)
  }

  /** When the cursors are covering and both stand on a non-empty cell, that
      cell is the lowest one: the scheduler pops in depth order. */
  lemma CursorIsLowest(rows: map<nat, Row>, cells: map<Cell, seq<Id>>, cur: Depth, maxP: nat)
    requires Covered(rows, cells, cur, maxP)
    requires cur.Finite? && cur.n in rows && rows[cur.n].current.Finite?
    requires (cur.n, rows[cur.n].current.n) in cells && cells[(cur.n, rows[cur.n].current.n)] != []
    ensures Lowest(cells, (cur.n, rows[cur.n].current.n))
  {
    var c := (cur.n, rows[cur.n].current.n);
    forall c': Cell | c' in cells && cells[c'] != []
      ensures c.0 < c'.0 || (c.0 == c'.0 && c.1 <= c'.1)
    {
      assert cur.NotAfter(c'.0);
      if c'.0 == c.0 {
        assert rows[c.0].current.NotAfter(c'.1);
      }
    }
  }

  /** Registering widens the cursors just enough to cover the new cell. */
  lemma RegisterCovers(rows: map<nat, Row>, cells: map<Cell, seq<Id>>, cur: Depth, maxP: nat, r: Registration)
    requires Covered(rows, cells, cur, maxP)
    ensures var row := RowOf(rows, r.primaryDepth);
      Covered(rows[r.primaryDepth := Row(row.current.MinWith(r.depth), Max(r.depth, row.max))],
              cells[r.Cell() := StackOf(cells, r.Cell()) + [r.observation]],
              cur.MinWith(r.primaryDepth), Max(r.primaryDepth, maxP))
  {
  }

  /** Once the primary cursor is past `maxPrimaryDepth`, nothing is queued. */
  lemma PastTheEndIsEmpty(rows: map<nat, Row>, cells: map<Cell, seq<Id>>, cur: Depth, maxP: nat)
    requires Covered(rows, cells, cur, maxP)
    requires !cur.NotAfter(maxP)
    ensures forall c: Cell :: c in cells ==> cells[c] == []
  {
  }

  // ---- counting what is queued ----------------------------------------

  ghost function PickCell(cells: map<Cell, seq<Id>>): Cell
    requires cells != map[]
  {
    var c :| c in cells; c
  }

  /** Every observation queued in the table, with multiplicity. */
  ghost function Contents(cells: map<Cell, seq<Id>>): multiset<Id>
    decreases |cells|
  {
    if cells == map[] then multiset{}
    else
      var c := PickCell(cells);
      multiset(cells[c]) + Contents(cells - {c})
  }

  lemma {:induction false} ContentsRemove(cells: map<Cell, seq<Id>>, c: Cell)
    requires c in cells
    ensures Contents(cells) == multiset(cells[c]) + Contents(cells - {c})
    decreases |cells|
  {
    var p := PickCell(cells);
    if p != c {
      var rest := cells - {p};
      assert c in rest && rest[c] == cells[c];
      ContentsRemove(rest, c);
      var other := cells - {c};
      assert p in other && other[p] == cells[p];
      ContentsRemove(other, p);
      RemoveBoth(cells, p, c);
    }
  }

  lemma RemoveBoth(cells: map<Cell, seq<Id>>, p: Cell, c: Cell)
    ensures (cells - {p}) - {c} == (cells - {c}) - {p}
  {
    assert (cells - {p}) - {c} == cells - {p, c};
  }

  /** The rest of the table when one cell is set aside. */
  lemma ContentsBeside(cells: map<Cell, seq<Id>>, c: Cell, s: seq<Id>)
    ensures Contents(cells[c := s]) == multiset(s) + Contents(cells - {c})
    ensures Contents(cells) == multiset(StackOf(cells, c)) + Contents(cells - {c})
  {
    ContentsRemove(cells[c := s], c);
    assert cells[c := s] - {c} == cells - {c};
    if c in cells {
      ContentsRemove(cells, c);
    } else {
      assert cells - {c} == cells;
    }
  }

  /** A push adds exactly the pushed observation to what is queued. */
  lemma ContentsPush(cells: map<Cell, seq<Id>>, c: Cell, o: Id)
    ensures Contents(cells[c := StackOf(cells, c) + [o]]) == Contents(cells) + multiset{o}
  {
    ContentsBeside(cells, c, StackOf(cells, c) + [o]);
    assert multiset(StackOf(cells, c) + [o]) == multiset(StackOf(cells, c)) + multiset{o};
  }

  /** Popping a stack keeps every queued observation inside the cursors. */
  lemma PopCovered(rows: map<nat, Row>, cells: map<Cell, seq<Id>>, cur: Depth, maxP: nat, c: Cell)
    requires Covered(rows, cells, cur, maxP) && c in cells && cells[c] != []
    ensures Covered(rows, cells[c := cells[c][..|cells[c]| - 1]], cur, maxP)
  {
  }

  /** Moving a row's cursor past an empty cell keeps the queue covered. */
  lemma RowAdvanceCovered(rows: map<nat, Row>, cells: map<Cell, seq<Id>>, p: nat, d: nat, maxP: nat)
    requires Covered(rows, cells, Finite(p), maxP) && p in rows && rows[p].current == Finite(d)
    requires (p, d) !in cells || cells[(p, d)] == []
    ensures Covered(rows[p := rows[p].(current := Finite(d + 1))], cells, Finite(p), maxP)
  {
  }

  /** Moving the primary cursor past an exhausted row keeps the queue covered. */
  lemma PrimaryAdvanceCovered(rows: map<nat, Row>, cells: map<Cell, seq<Id>>, p: nat, maxP: nat)
    requires Covered(rows, cells, Finite(p), maxP)
    requires p !in rows || !rows[p].current.NotAfter(rows[p].max)
    ensures Covered(rows, cells, Finite(p + 1), maxP)
  {
  }

  lemma ContentsPop(cells: map<Cell, seq<Id>>, c: Cell)
    requires c in cells && cells[c] != []
    ensures Contents(cells[c := cells[c][..|cells[c]| - 1]]) + multiset{cells[c][|cells[c]| - 1]} == Contents(cells)
  {
    var stack := cells[c];
    ContentsBeside(cells, c, stack[..|stack| - 1]);
    assert stack == stack[..|stack| - 1] + [stack[|stack| - 1]];
    assert multiset(stack) == multiset(stack[..|stack| - 1]) + multiset{stack[|stack| - 1]};
  }

  /** Going from `before` to `after` queued exactly one more `o`. */
  ghost predicate QueuedOne(before: map<Cell, seq<Id>>, after: map<Cell, seq<Id>>, o: Id)
  {
    Contents(after) == Contents(before) + multiset{o}
  }

  lemma EmptyContents(cells: map<Cell, seq<Id>>)
    requires forall c: Cell :: c in cells ==> cells[c] == []
    ensures Contents(cells) == multiset{}
    decreases |cells|
  {
    if cells != map[] {
      var c := PickCell(cells);
      EmptyContents(cells - {c});
    }
  }

  // ---- the script of registrations ------------------------------------

  function Observations(regs: seq<Registration>): (r: seq<Id>)
    ensures |r| == |regs|
  {
    if regs == [] then [] else [regs[0].observation] + Observations(regs[1..])
  }

  /** All observations the first `k` updates register. */
  function Registered(reactions: seq<seq<Registration>>, k: nat): seq<Id>
  {
    if k == 0 || reactions == [] then [] else Observations(reactions[0]) + Registered(reactions[1..], k - 1)
  }

  /** How many registrations the script holds from the k-th update on. */
  function Pending(reactions: seq<seq<Registration>>, k: nat): nat
  {
    if reactions == [] then 0
    else if k == 0 then |reactions[0]| + Pending(reactions[1..], 0)
    else Pending(reactions[1..], k - 1)
  }

  lemma {:induction false} RegisteredNext(reactions: seq<seq<Registration>>, k: nat)
    ensures k < |reactions| ==> Registered(reactions, k + 1) == Registered(reactions, k) + Observations(reactions[k])
    ensures k >= |reactions| ==> Registered(reactions, k + 1) == Registered(reactions, k)
  {
    if reactions == [] {
    } else if k == 0 {
      assert Registered(reactions, 0) == [] && Registered(reactions[1..], 0) == [];
      assert Registered(reactions, 1) == Observations(reactions[0]) + [];
    } else {
      RegisteredNext(reactions[1..], k - 1);
      if k < |reactions| {
        assert reactions[1..][k - 1] == reactions[k];
      }
    }
  }

  lemma {:induction false} PendingNext(reactions: seq<seq<Registration>>, k: nat)
    ensures k < |reactions| ==> Pending(reactions, k) == |reactions[k]| + Pending(reactions, k + 1)
    ensures k >= |reactions| ==> Pending(reactions, k) == 0 == Pending(reactions, k + 1)
  {
    if reactions == [] {
    } else if k == 0 {
      assert Pending(reactions, 1) == Pending(reactions[1..], 0);
    } else {
      PendingNext(reactions[1..], k - 1);
      if k < |reactions| {
        assert reactions[1..][k - 1] == reactions[k];
      }
    }
  }

  function UpdatedIds(log: seq<Effect>): (r: seq<Id>)
    ensures |r| == |log|
  {
    if log == [] then [] else [log[0].observation] + UpdatedIds(log[1..])
  }

  lemma {:induction false} UpdatedIdsSnoc(log: seq<Effect>, e: Effect)
    ensures UpdatedIds(log + [e]) == UpdatedIds(log) + [e.observation]
  {
    if log == [] {
      assert log + [e] == [e];
    } else {
      assert (log + [e])[0] == log[0] && (log + [e])[1..] == log[1..] + [e];
      UpdatedIdsSnoc(log[1..], e);
    }
  }

  /** How many primary depths the primary cursor has still to visit. */
  function PrimaryLeft(cur: Depth, maxP: nat): nat
  {
    if cur.NotAfter(maxP) then maxP + 1 - cur.n else 0
  }

  /** How many depths the cursor of the row under the primary cursor has still to visit. */
  function RowLeft(rows: map<nat, Row>, cur: Depth): nat
  {
    if cur.Finite? && cur.n in rows then
      var r := rows[cur.n];
      if r.current.NotAfter(r.max) then r.max + 1 - r.current.n else 0
    else 0
  }

  /** The module-level scheduling state. */
  class Scheduler {
    var rows: map<nat, Row>
    var cells: map<Cell, seq<Id>>
    var curPrimaryDepth: Depth
    var maxPrimaryDepth: nat
    var currentBatchNum: Option<nat>
    /** Every `updateCompute` call, in order. */
    var log: seq<Effect>

    ghost predicate Valid()
      reads this`rows, this`cells, this`curPrimaryDepth, this`maxPrimaryDepth
    {
      Covered(rows, cells, curPrimaryDepth, maxPrimaryDepth)
    }

    /** Distance of the primary cursor from the end. */
    function Outer(): nat
      reads this`curPrimaryDepth, this`maxPrimaryDepth
    {
      PrimaryLeft(curPrimaryDepth, maxPrimaryDepth)
    }

    /** Distance of the current row's cursor from its `max`. */
    function Inner(): nat
      reads this`curPrimaryDepth, this`rows
    {
      RowLeft(rows, curPrimaryDepth)
    }

    constructor()
      ensures rows == map[] && cells == map[] && curPrimaryDepth == Infinity && maxPrimaryDepth == 0
      ensures currentBatchNum == None && log == []
      ensures Valid()
    {
      rows := map[];
      cells := map[];
      curPrimaryDepth := Infinity;
      maxPrimaryDepth := 0;
      currentBatchNum := None;
      log := [];
    }

    /** `Observation.registerUpdate`: push onto the cell's stack and widen the cursors. */
    method Register(r: Registration)
      requires Valid()
      modifies this`rows, this`cells, this`curPrimaryDepth, this`maxPrimaryDepth
      ensures Valid()
      ensures cells == old(cells)[r.Cell() := StackOf(old(cells), r.Cell()) + [r.observation]]
      ensures curPrimaryDepth == old(curPrimaryDepth).MinWith(r.primaryDepth)
      ensures maxPrimaryDepth == Max(r.primaryDepth, old(maxPrimaryDepth))
      ensures var row := RowOf(old(rows), r.primaryDepth);
        rows == old(rows)[r.primaryDepth := Row(row.current.MinWith(r.depth), Max(r.depth, row.max))]
      ensures Contents(cells) == old(Contents(cells)) + multiset{r.observation}
    {
      var p, d := r.primaryDepth, r.depth;
      curPrimaryDepth := curPrimaryDepth.MinWith(p);
      maxPrimaryDepth := Max(p, maxPrimaryDepth);
      var row := RowOf(rows, p);
      var stack := StackOf(cells, (p, d));
      cells := cells[(p, d) := stack + [r.observation]];
      rows := rows[p := Row(row.current.MinWith(d), Max(d, row.max))];
      ContentsPush(old(cells), (p, d), r.observation);
      RegisterCovers(old(rows), old(cells), old(curPrimaryDepth), old(maxPrimaryDepth), r);
    }

    /** Everything one update's compute registers, in order. */
    method RegisterAll(regs: seq<Registration>)
      requires Valid()
      modifies this`rows, this`cells, this`curPrimaryDepth, this`maxPrimaryDepth
      ensures Valid()
      ensures Contents(cells) == old(Contents(cells)) + multiset(Observations(regs))
    {
      ghost var queued := Contents(cells);
      for i := 0 to |regs|
        invariant Valid()
        invariant Contents(cells) == queued + multiset(Observations(regs[..i]))
      {
        Register(regs[i]);
        ObservationsPrefix(regs, i);
      }
      assert regs[..|regs|] == regs;
    }

    /** One turn of the `while (true)` loop while `curPrimaryDepth <= maxPrimaryDepth`:
        pop the top of the cell under the cursors, or advance a cursor. */
    method Step() returns (popped: Option<Id>)
      requires Valid() && curPrimaryDepth.NotAfter(maxPrimaryDepth)
      modifies this`rows, this`cells, this`curPrimaryDepth
      ensures Valid()
      ensures popped.Some? ==>
        old(curPrimaryDepth).n in old(rows) && old(rows)[old(curPrimaryDepth).n].current.Finite? &&
        var c := (old(curPrimaryDepth).n, old(rows)[old(curPrimaryDepth).n].current.n);
        Lowest(old(cells), c) && popped.value == old(cells)[c][|old(cells)[c]| - 1] &&
        cells == old(cells)[c := old(cells)[c][..|old(cells)[c]| - 1]] &&
        rows == old(rows) && curPrimaryDepth == old(curPrimaryDepth)
      ensures popped.Some? ==> Contents(cells) + multiset{popped.value} == old(Contents(cells))
      ensures popped.None? ==> cells == old(cells)
      ensures popped.None? ==> Outer() < old(Outer()) || (Outer() == old(Outer()) && Inner() < old(Inner()))
    {
      var p := curPrimaryDepth.n;
      if p in rows && rows[p].current.NotAfter(rows[p].max) {
        var d := rows[p].current.n;
        if (p, d) in cells && cells[(p, d)] != [] {
          var stack := cells[(p, d)];
          CursorIsLowest(rows, cells, curPrimaryDepth, maxPrimaryDepth);
          popped := Some(stack[|stack| - 1]);
          cells := cells[(p, d) := stack[..|stack| - 1]];
          ContentsPop(old(cells), (p, d));
          PopCovered(rows, old(cells), curPrimaryDepth, maxPrimaryDepth, (p, d));
        } else {
          rows := rows[p := rows[p].(current := Finite(d + 1))];
          RowAdvanceCovered(old(rows), cells, p, d, maxPrimaryDepth);
          popped := None;
        }
      } else {
        curPrimaryDepth := Finite(p + 1);
        PrimaryAdvanceCovered(rows, cells, p, maxPrimaryDepth);
        popped := None;
      }
    }

    /** The drain's bookkeeping (see `Balanced`) on the current table and log. */
    ghost predicate Accounts(log0: seq<Effect>, initial: multiset<Id>, reactions: seq<seq<Registration>>,
                             batchNum: Option<nat>, held: multiset<Id>)
      reads this`log, this`cells
    {
      Balanced(log0, log, Contents(cells), initial, reactions, batchNum, held)
    }

    /** What is left to do: queued observations plus registrations still in the script. */
    ghost function Weight(reactions: seq<seq<Registration>>, k: nat): nat
      reads this`cells
    {
      |Contents(cells)| + Pending(reactions, k)
    }

    /** `cur.updateCompute(batchNum)` on a popped observation: log the update
        and queue what it registers. */
    method Update(o: Id, batchNum: Option<nat>, reactions: seq<seq<Registration>>, k: nat,
                  ghost log0: seq<Effect>, ghost initial: multiset<Id>)
      requires Valid() && |log0| + k == |log| && Accounts(log0, initial, reactions, batchNum, multiset{o})
      modifies this`rows, this`cells, this`curPrimaryDepth, this`maxPrimaryDepth, this`log
      ensures Valid() && Accounts(log0, initial, reactions, batchNum, multiset{})
      ensures log == old(log) + [Updated(o, batchNum)]
      ensures Weight(reactions, k + 1) == old(Weight(reactions, k))
    {
      ghost var mid := Contents(cells);
      log := log + [Updated(o, batchNum)];
      if k < |reactions| {
        RegisterAll(reactions[k]);
      }
      UpdateBalances(log0, old(log), o, batchNum, mid, Contents(cells), initial, reactions, k, log);
      UpdateKeepsWeight(mid, Contents(cells), reactions, k);
    }

    /** One turn of the loop: a pop followed by its update, or a cursor move. */
    method Turn(batchNum: Option<nat>, reactions: seq<seq<Registration>>, k: nat,
                ghost log0: seq<Effect>, ghost initial: multiset<Id>) returns (popped: Option<Id>)
      requires Valid() && curPrimaryDepth.NotAfter(maxPrimaryDepth)
      requires |log0| + k == |log| && Accounts(log0, initial, reactions, batchNum, multiset{})
      modifies this`rows, this`cells, this`curPrimaryDepth, this`maxPrimaryDepth, this`log
      ensures Valid()
      ensures popped.None? ==> log == old(log) && Accounts(log0, initial, reactions, batchNum, multiset{})
      ensures popped.None? ==> Weight(reactions, k) == old(Weight(reactions, k))
      ensures popped.None? ==> Outer() < old(Outer()) || (Outer() == old(Outer()) && Inner() < old(Inner()))
      ensures popped.Some? ==> log == old(log) + [Updated(popped.value, batchNum)]
      ensures popped.Some? ==> Accounts(log0, initial, reactions, batchNum, multiset{})
      ensures popped.Some? ==> Weight(reactions, k + 1) < old(Weight(reactions, k))
    {
      ghost var before := Contents(cells);
      popped := Step();
      if popped.Some? {
        PopBalances(log0, log, before, Contents(cells), popped.value, initial, reactions, batchNum);
        Update(popped.value, batchNum, reactions, k, log0, initial);
      }
    }

    /** `Observation.updateUntil(observation)`: update queued observations in
        depth order until `observation` itself has been updated, or nothing is
        left to update. */
    method UpdateUntil(observation: Id, reactions: seq<seq<Registration>>)
      requires Valid()
      modifies this`rows, this`cells, this`curPrimaryDepth, this`maxPrimaryDepth, this`log
      ensures Valid()
      ensures Accounts(old(log), old(Contents(cells)), reactions, currentBatchNum, multiset{})
      ensures Until(old(log), log, observation) || !curPrimaryDepth.NotAfter(maxPrimaryDepth)
      ensures Before(old(log), log, observation)
    {
      ghost var log0, initial := log, Contents(cells);
      var k := 0;
      var found := false;
      assert log[|log|..] == [];
      while !found && curPrimaryDepth.NotAfter(maxPrimaryDepth)
        invariant Valid()
        invariant Accounts(log0, initial, reactions, currentBatchNum, multiset{})
        invariant k == |log| - |log0|
        invariant found ==> Until(log0, log, observation) && Before(log0, log, observation)
        invariant !found ==> Absent(log0, log, observation)
        decreases Weight(reactions, k), Outer(), Inner()
      {
        ghost var before := log;
        var popped := Turn(currentBatchNum, reactions, k, log0, initial);
        if popped.Some? {
          k := k + 1;
          Extend(log0, before, Updated(popped.value, currentBatchNum), observation);
          found := popped.value == observation;
        }
      }
      if !found {
        AbsentIsBefore(log0, log, observation);
      }
    }

    /** The loop of `Observation.batchEnd(batchNum)`: update everything queued. */
    method DrainAll(batchNum: Option<nat>, reactions: seq<seq<Registration>>)
      requires Valid()
      modifies this`rows, this`cells, this`curPrimaryDepth, this`maxPrimaryDepth, this`log
      ensures Drained(old(log), log, old(Contents(cells)), reactions, batchNum)
    {
      ghost var log0, initial := log, Contents(cells);
      var k := 0;
      assert log[|log|..] == [];
      while curPrimaryDepth.NotAfter(maxPrimaryDepth)
        invariant Valid()
        invariant Accounts(log0, initial, reactions, batchNum, multiset{})
        invariant k == |log| - |log0|
        decreases Weight(reactions, k), Outer(), Inner()
      {
        var popped := Turn(batchNum, reactions, k, log0, initial);
        if popped.Some? {
          k := k + 1;
        }
      }
      Settled(rows, cells, curPrimaryDepth, maxPrimaryDepth, log0, log, initial, reactions, batchNum);
    }

    /** `Observation.batchEnd(batchNum)`: update everything queued, then reset the table. */
    method BatchEnd(batchNum: nat, reactions: seq<seq<Registration>>)
      requires Valid()
      modifies this
      ensures Valid()
      ensures rows == map[] && cells == map[] && curPrimaryDepth == Infinity && maxPrimaryDepth == 0
      ensures currentBatchNum == Some(batchNum)
      ensures Drained(old(log), log, old(Contents(cells)), reactions, Some(batchNum))
    {
      currentBatchNum := Some(batchNum);
      DrainAll(currentBatchNum, reactions);
      ghost var drained := log;
      Reset();
      assert log == drained;
    }

    /** The end of `batchEnd`: `updateOrder = []`, `curPrimaryDepth = Infinity`, `maxPrimaryDepth = 0`. */
    method Reset()
      modifies this`rows, this`cells, this`curPrimaryDepth, this`maxPrimaryDepth
      ensures rows == map[] && cells == map[] && curPrimaryDepth == Infinity && maxPrimaryDepth == 0
      ensures Valid() && Contents(cells) == multiset{}
    {
      rows := map[];
      cells := map[];
      curPrimaryDepth := Infinity;
      maxPrimaryDepth := 0;
    }
  }

  /** No update since `log0` was of `o`. */
  ghost predicate Absent(log0: seq<Effect>, log: seq<Effect>, o: Id)
  {
    forall i :: |log0| <= i < |log| ==> log[i].observation != o
  }

  /** The last update since `log0` was of `o`. */
  ghost predicate Until(log0: seq<Effect>, log: seq<Effect>, o: Id)
  {
    |log0| < |log| && log[|log| - 1].observation == o
  }

  /** No update since `log0` but the last one was of `o`. */
  ghost predicate Before(log0: seq<Effect>, log: seq<Effect>, o: Id)
  {
    forall i :: |log0| <= i < |log| - 1 ==> log[i].observation != o
  }

  /** One more update keeps track of whether `o` has been updated yet. */
  lemma Extend(log0: seq<Effect>, log: seq<Effect>, e: Effect, o: Id)
    requires log0 <= log && Absent(log0, log, o)
    ensures Before(log0, log + [e], o)
    ensures e.observation == o ==> Until(log0, log + [e], o)
    ensures e.observation != o ==> Absent(log0, log + [e], o)
  {
  }

  lemma AbsentIsBefore(log0: seq<Effect>, log: seq<Effect>, o: Id)
    requires Absent(log0, log, o)
    ensures Before(log0, log, o)
  {
  }

  lemma {:induction false} ObservationsSnoc(regs: seq<Registration>, r: Registration)
    ensures Observations(regs + [r]) == Observations(regs) + [r.observation]
  {
    if regs == [] {
      assert regs + [r] == [r];
    } else {
      assert (regs + [r])[0] == regs[0] && (regs + [r])[1..] == regs[1..] + [r];
      ObservationsSnoc(regs[1..], r);
    }
  }

  lemma ObservationsPrefix(regs: seq<Registration>, i: nat)
    requires i < |regs|
    ensures multiset(Observations(regs[..i + 1])) == multiset(Observations(regs[..i])) + multiset{regs[i].observation}
  {
    assert regs[..i + 1] == regs[..i] + [regs[i]];
    ObservationsSnoc(regs[..i], regs[i]);
  }

  /** A drain's bookkeeping: since it started with `log0` and `initial`
      queued, it logged `k` updates, all with `batchNum`, and what is
      `queued`, what it `held` and what it updated together are what was
      queued at the start plus what the first `k` updates registered. */
  ghost predicate Balanced(log0: seq<Effect>, log: seq<Effect>, queued: multiset<Id>, initial: multiset<Id>,
                           reactions: seq<seq<Registration>>, batchNum: Option<nat>, held: multiset<Id>)
  {
    log0 <= log &&
    (forall i :: |log0| <= i < |log| ==> log[i].batchNum == batchNum) &&
    Tally(queued, held, log[|log0|..], initial, Registered(reactions, |log| - |log0|))
  }

  /** What is queued, held and already updated is, with multiplicity, what
      was queued at the start plus what was registered since. */
  ghost predicate Tally(queued: multiset<Id>, held: multiset<Id>, done: seq<Effect>, initial: multiset<Id>, registered: seq<Id>)
  {
    queued + held + multiset(UpdatedIds(done)) == initial + multiset(registered)
  }

  /** A finished drain: since `log0` every update was logged with
      `batchNum`, and the observations updated are, with multiplicity, those
      queued at the start plus those the updates registered. */
  ghost predicate Drained(log0: seq<Effect>, log: seq<Effect>, initial: multiset<Id>,
                          reactions: seq<seq<Registration>>, batchNum: Option<nat>)
  {
    log0 <= log &&
    (forall i :: |log0| <= i < |log| ==> log[i].batchNum == batchNum) &&
    multiset(UpdatedIds(log[|log0|..])) == initial + multiset(Registered(reactions, |log| - |log0|))
  }

  /** Once the cursors have run past the end, nothing is queued, so what was
      updated is what was queued at the start plus what was registered. */
  lemma Settled(rows: map<nat, Row>, cells: map<Cell, seq<Id>>, cur: Depth, maxP: nat,
                log0: seq<Effect>, log: seq<Effect>, initial: multiset<Id>,
                reactions: seq<seq<Registration>>, batchNum: Option<nat>)
    requires Covered(rows, cells, cur, maxP) && !cur.NotAfter(maxP)
    requires Balanced(log0, log, Contents(cells), initial, reactions, batchNum, multiset{})
    ensures Drained(log0, log, initial, reactions, batchNum)
  {
    PastTheEndIsEmpty(rows, cells, cur, maxP);
    EmptyContents(cells);
    assert Contents(cells) + multiset{} + multiset(UpdatedIds(log[|log0|..])) == multiset(UpdatedIds(log[|log0|..]));
  }

  /** Popping keeps the books balanced: the popped observation moves from the
      queue into the drain's hand. */
  lemma PopBalances(log0: seq<Effect>, log: seq<Effect>, before: multiset<Id>, after: multiset<Id>, o: Id,
                    initial: multiset<Id>, reactions: seq<seq<Registration>>, batchNum: Option<nat>)
    requires Balanced(log0, log, before, initial, reactions, batchNum, multiset{})
    requires after + multiset{o} == before
    ensures Balanced(log0, log, after, initial, reactions, batchNum, multiset{o})
    ensures |after| < |before|
  {
  }

  /** Updating the held observation keeps the books balanced: its update is
      logged and what it registers is queued. The work left stays the same. */
  lemma UpdateBalances(log0: seq<Effect>, log: seq<Effect>, o: Id, batchNum: Option<nat>, mid: multiset<Id>,
                       after: multiset<Id>, initial: multiset<Id>, reactions: seq<seq<Registration>>, k: nat,
                       grown: seq<Effect>)
    requires Balanced(log0, log, mid, initial, reactions, batchNum, multiset{o}) && |log0| + k == |log|
    requires after == mid + multiset(if k < |reactions| then Observations(reactions[k]) else [])
    requires grown == log + [Updated(o, batchNum)]
    ensures Balanced(log0, grown, after, initial, reactions, batchNum, multiset{})
  {
    var added := if k < |reactions| then Observations(reactions[k]) else [];
    var e := Updated(o, batchNum);
    assert Registered(reactions, k + 1) == Registered(reactions, k) + added by {
      RegisteredNext(reactions, k);
    }
    UpdateCounts(log0, log, e, mid, after, initial, reactions, k, added, grown);
    LogGrows(log0, log, e, batchNum, grown);
  }

  lemma LogGrows(log0: seq<Effect>, log: seq<Effect>, e: Effect, batchNum: Option<nat>, grown: seq<Effect>)
    requires log0 <= log && e.batchNum == batchNum && grown == log + [e]
    requires forall i :: |log0| <= i < |log| ==> log[i].batchNum == batchNum
    ensures log0 <= grown
    ensures forall i :: |log0| <= i < |grown| ==> grown[i].batchNum == batchNum
  {
    assert grown[..|log0|] == log[..|log0|];
  }

  /** The registrations an update queues are the ones the script no longer holds. */
  lemma UpdateKeepsWeight(mid: multiset<Id>, after: multiset<Id>, reactions: seq<seq<Registration>>, k: nat)
    requires after == mid + multiset(if k < |reactions| then Observations(reactions[k]) else [])
    ensures |after| + Pending(reactions, k + 1) == |mid| + Pending(reactions, k)
  {
    PendingNext(reactions, k);
  }

  lemma UpdateCounts(log0: seq<Effect>, log: seq<Effect>, e: Effect, mid: multiset<Id>, after: multiset<Id>,
                     initial: multiset<Id>, reactions: seq<seq<Registration>>, k: nat, added: seq<Id>, grown: seq<Effect>)
    requires log0 <= log && |log0| + k == |log| && grown == log + [e]
    requires Registered(reactions, k + 1) == Registered(reactions, k) + added
    requires Tally(mid, multiset{e.observation}, log[|log0|..], initial, Registered(reactions, k))
    requires after == mid + multiset(added)
    ensures Tally(after, multiset{}, grown[|log0|..], initial, Registered(reactions, |grown| - |log0|))
  {
    UpdatedGrows(log0, log, e, grown);
    assert |grown| - |log0| == k + 1;
    TallyStep(mid, after, e.observation, multiset(UpdatedIds(log[|log0|..])), initial,
              multiset(Registered(reactions, k)), multiset(added));
  }

  /** One more logged update adds its observation to those the drain has updated. */
  lemma UpdatedGrows(log0: seq<Effect>, log: seq<Effect>, e: Effect, grown: seq<Effect>)
    requires log0 <= log && grown == log + [e]
    ensures multiset(UpdatedIds(grown[|log0|..])) == multiset(UpdatedIds(log[|log0|..])) + multiset{e.observation}
  {
    assert grown[|log0|..] == log[|log0|..] + [e];
    UpdatedIdsSnoc(log[|log0|..], e);
  }

  /** The multiset arithmetic behind one update's bookkeeping. */
  lemma TallyStep(mid: multiset<Id>, after: multiset<Id>, x: Id, done: multiset<Id>,
                  initial: multiset<Id>, registered: multiset<Id>, added: multiset<Id>)
    requires mid + multiset{x} + done == initial + registered
    requires after == mid + added
    ensures after + multiset{} + (done + multiset{x}) == initial + (registered + added)
  {
    assert after + multiset{} + (done + multiset{x}) == (mid + multiset{x} + done) + added;
  }
}
