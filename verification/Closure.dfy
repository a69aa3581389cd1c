/** Resume closure: however a workload recheck is interrupted and resumed, it ends in the same grid of cells. */
module Closure {
  import opened Options
  import opened Resume
  import opened Collections
  import opened Sessions

  /** The cells carry these identities, in this order. */
  ghost predicate KeyedBy(cells: seq<Json>, keys: seq<Key>) {
    |cells| == |keys| && forall k :: 0 <= k < |cells| ==> HasKey(cells[k], keys[k])
  }

  ghost predicate WellKeyed(m: map<Key, Json>) {
    forall key :: key in m ==> HasKey(m[key], key)
  }

  // ------------------------------------------------------------- terminal cells

  lemma {:induction false} TerminalsAre(cells: seq<Json>, key: Key)
    requires key in Terminals(cells)
    ensures HasKey(Terminals(cells)[key], key) && CellTerminal(Terminals(cells)[key]) && Terminals(cells)[key] in cells
  {
    hide CellTerminal, CellIdentity;
    var n := |cells| - 1;
    if key in Terminals(cells[..n]) {
      TerminalsAre(cells[..n], key);
    }
  }

  lemma {:induction false} TerminalAt(cells: seq<Json>, keys: seq<Key>, i: nat)
    requires KeyedBy(cells, keys) && Distinct(keys) && i < |cells| && CellTerminal(cells[i])
    ensures keys[i] in Terminals(cells) && Terminals(cells)[keys[i]] == cells[i]
  {
    hide CellTerminal, CellIdentity;
    var n := |cells| - 1;
    if i < n {
      TerminalAt(cells[..n], keys[..n], i);
      assert CellIdentity(cells[n]) == Some(keys[n]) && keys[n] != keys[i];
    } else {
      assert CellIdentity(cells[n]) == Some(keys[n]);
    }
  }

  // ------------------------------------------------------------- snapshots

  lemma {:induction false} MergedIsKeyed(grid: seq<Key>, reused: map<Key, Json>, executed: map<Key, Json>)
    requires WellKeyed(reused) && WellKeyed(executed)
    ensures KeyedBy(MergedGridCells(grid, reused, executed), Within(grid, reused.Keys + executed.Keys))
  {
    hide CellIdentity;
    if grid != [] {
      MergedIsKeyed(grid[..|grid| - 1], reused, executed);
    }
  }

  lemma AppendDistinct(q: seq<Key>, key: Key)
    ensures Distinct(q + [key]) <==> Distinct(q) && key !in q
  {
    var r := q + [key];
    if Distinct(r) {
      assert forall k :: 0 <= k < |q| ==> r[k] == q[k];
      assert r[|q|] == key;
    }
  }

  lemma {:induction false} WithinHas(grid: seq<Key>, keys: set<Key>)
    ensures forall key :: key in Within(grid, keys) <==> key in grid && key in keys
  {
    if grid != [] {
      WithinHas(grid[..|grid| - 1], keys);
      assert grid == grid[..|grid| - 1] + [grid[|grid| - 1]];
    }
  }

  lemma {:induction false} WithinDistinct(grid: seq<Key>, keys: set<Key>)
    requires Distinct(grid)
    ensures Distinct(Within(grid, keys))
  {
    if grid != [] {
      var rest, key := grid[..|grid| - 1], grid[|grid| - 1];
      assert grid == rest + [key];
      AppendDistinct(rest, key);
      WithinDistinct(rest, keys);
      WithinHas(rest, keys);
      AppendDistinct(Within(rest, keys), key);
      hide Distinct;
      assert Within(rest, keys) + [] == Within(rest, keys);
    }
  }

  lemma {:induction false} WithinAll(grid: seq<Key>, keys: set<Key>)
    requires forall key :: key in grid ==> key in keys
    ensures Within(grid, keys) == grid
  {
    if grid != [] {
      WithinAll(grid[..|grid| - 1], keys);
    }
  }

  lemma WithinKeeps(grid: seq<Key>, keys: set<Key>)
    ensures forall key :: key in Within(grid, keys) <==> key in grid && key in keys
    ensures Distinct(grid) ==> Distinct(Within(grid, keys))
    ensures (forall key :: key in grid ==> key in keys) ==> Within(grid, keys) == grid
  {
    hide Distinct, Within;
    WithinHas(grid, keys);
    if Distinct(grid) {
      WithinDistinct(grid, keys);
    }
    if forall key :: key in grid ==> key in keys {
      WithinAll(grid, keys);
    }
  }

  /** What is left of the grid is what the remaining keys have of it. */
  lemma {:induction false} OutsideIsWithin(grid: seq<Key>, keys: set<Key>, others: set<Key>)
    requires forall key :: key in grid ==> (key in others <==> key !in keys)
    ensures Outside(grid, keys) == Within(grid, others)
  {
    if grid != [] {
      OutsideIsWithin(grid[..|grid| - 1], keys, others);
    }
  }

  /** What a resumed run has to execute: the keys of the grid without a terminal cell, each once, in grid order. */
  lemma OutsideKeeps(grid: seq<Key>, keys: set<Key>)
    ensures forall key :: key in Outside(grid, keys) <==> key in grid && key !in keys
    ensures Distinct(grid) ==> Distinct(Outside(grid, keys))
    ensures (forall key :: key in grid ==> key !in keys) ==> Outside(grid, keys) == grid
  {
    hide Distinct, Within, Outside;
    var others := set key | key in grid && key !in keys;
    OutsideIsWithin(grid, keys, others);
    WithinKeeps(grid, others);
  }

  /** A reused cell is listed verbatim. */
  lemma {:induction false} MergedHas(grid: seq<Key>, reused: map<Key, Json>, executed: map<Key, Json>, key: Key)
    returns (i: nat)
    requires key in grid && key in reused
    ensures var keys, cells := Within(grid, reused.Keys + executed.Keys), MergedGridCells(grid, reused, executed);
            i < |keys| == |cells| && keys[i] == key && cells[i] == reused[key]
  {
    var n := |grid| - 1;
    MergedLength(grid[..n], reused, executed);
    if grid[n] == key {
      i := |Within(grid[..n], reused.Keys + executed.Keys)|;
    } else {
      i := MergedHas(grid[..n], reused, executed, key);
    }
  }

  lemma {:induction false} MergedLength(grid: seq<Key>, reused: map<Key, Json>, executed: map<Key, Json>)
    ensures |MergedGridCells(grid, reused, executed)| == |Within(grid, reused.Keys + executed.Keys)|
  {
    if grid != [] {
      MergedLength(grid[..|grid| - 1], reused, executed);
    }
  }

  lemma KeyedIsSound(cells: seq<Json>, keys: seq<Key>, grid: seq<Key>)
    requires KeyedBy(cells, keys) && Distinct(keys) && forall key :: key in keys ==> key in grid
    ensures Sound(cells, grid)
  {
    hide CellIdentity;
  }

  /** The identities a session's snapshots list, in grid order. */
  function SnapshotKeys(a: Args, s: Session): seq<Key> {
    var reused := Reused(s.before, s.resuming);
    if s.resuming then Within(Grid(a), reused.Keys + Executed(s.run, s.visited, reused).Keys) else s.visited
  }

  lemma SnapshotIsKeyed(a: Args, s: Session)
    requires IsSession(a, s) && Identifies(s.run) && Distinct(Grid(a))
    ensures KeyedBy(Snapshot(a, s.run, s.resuming, Reused(s.before, s.resuming), s.visited), SnapshotKeys(a, s))
    ensures Distinct(SnapshotKeys(a, s)) && forall key :: key in SnapshotKeys(a, s) ==> key in Grid(a)
    ensures s.done ==> SnapshotKeys(a, s) == Grid(a)
  {
    hide CellIdentity, CellTerminal, Terminals, Grid, Acceptable;
    var reused := Reused(s.before, s.resuming);
    forall key | key in s.visited
      ensures HasKey(CellFor(s.run, key), key)
    {
      CellForHasKey(s.run, key);
    }
    if s.resuming {
      ReusedIsKeyed(s.before);
      MergedIsKeyed(Grid(a), reused, Executed(s.run, s.visited, reused));
      WithinKeeps(Grid(a), reused.Keys + Executed(s.run, s.visited, reused).Keys);
    }
  }

  lemma ReusedIsKeyed(before: File)
    ensures WellKeyed(Reused(before, true))
  {
    hide CellIdentity, CellTerminal, Terminals;
    forall key | key in Reused(before, true)
      ensures HasKey(Reused(before, true)[key], key)
    {
      TerminalsAre(CellsOf(before.json), key);
    }
  }

  lemma ReceiptIs(a: Args, resuming: bool, cells: seq<Json>)
    ensures var j := Receipt(a, resuming, cells);
            HasShape(j) && CellsOf(j) == cells && SameRequest(j.Get("metadata").fields, BuildMetadata(a))
  {
    hide BuildMetadata;
  }

  /** Nor does the resume block that a resumed session adds change what its receipt is compared with. */
  lemma ReceiptMatchesIff(a: Args, resuming: bool, cells: seq<Json>, b: Args)
    ensures var j := Receipt(a, resuming, cells);
            HasShape(j) && (SameRequest(j.Get("metadata").fields, BuildMetadata(b)) <==> SameMeasurement(a, b))
  {
    SameRequestIff(a, b);
    hide BuildMetadata, SameMeasurement;
    var saved, m, n := Receipt(a, resuming, cells).Get("metadata").fields, BuildMetadata(a), BuildMetadata(b);
    forall key | Compared(key)
      ensures key in saved <==> key in m
      ensures key in saved ==> saved[key] == m[key]
    {
    }
    assert SameRequest(saved, n) <==> SameRequest(m, n) by {
      assert forall key :: Compared(key) ==> (FieldDiffers(saved, n, key) <==> FieldDiffers(m, n, key));
    }
  }

  /** A receipt is resumed for the measurement it records and no other: what a session wrote is acceptable to
      an invocation exactly when that asks for the same measurement. */
  lemma ReceiptIsForItsMeasurement(a: Args, s: Session, b: Args)
    requires IsSession(a, s) && Identifies(s.run) && Distinct(Grid(a)) && s.after != s.before
    ensures s.after.Parsed? && (Acceptable(b, s.after.json) <==> SameMeasurement(a, b))
  {
    hide CellIdentity, CellTerminal, Terminals, Receipt, Snapshot, SnapshotKeys, SameRequest, Sound, BuildMetadata;
    var cells := Snapshot(a, s.run, s.resuming, Reused(s.before, s.resuming), s.visited);
    SnapshotsAreAcceptable(a, s);
    ReceiptIs(a, s.resuming, cells);
    ReceiptMatchesIff(a, s.resuming, cells, b);
    if SameMeasurement(a, b) {
      SameGrid(a, b);
    }
  }

  /** A receipt says whether the session that wrote it was resumed. */
  lemma ReceiptTellsResumption(a: Args, resuming: bool, cells: seq<Json>)
    ensures var j := Receipt(a, resuming, cells); HasShape(j) && ("resume" in j.Get("metadata").fields <==> resuming)
  {
  }

  /** Every snapshot a session leaves behind is itself a receipt that resuming accepts. */
  lemma SnapshotsAreAcceptable(a: Args, s: Session)
    requires IsSession(a, s) && Identifies(s.run) && Distinct(Grid(a))
    ensures s.after == s.before || (s.after.Parsed? && Acceptable(a, s.after.json))
  {
    hide CellIdentity, CellTerminal, Terminals, Grid, Receipt, Snapshot, SnapshotKeys, SameRequest, Sound;
    if s.after != s.before {
      var cells := Snapshot(a, s.run, s.resuming, Reused(s.before, s.resuming), s.visited);
      SnapshotIsKeyed(a, s);
      KeyedIsSound(cells, SnapshotKeys(a, s), Grid(a));
      ReceiptIs(a, s.resuming, cells);
    }
  }

  /** Terminal cells survive a resumed session verbatim, and are not executed again. */
  lemma TerminalCellsSurvive(a: Args, s: Session, key: Key)
    requires IsSession(a, s) && Identifies(s.run) && Distinct(Grid(a)) && s.resuming
    requires key in Terminals(CellsOf(s.before.json))
    ensures key !in Executed(s.run, s.visited, Reused(s.before, s.resuming))
    ensures s.after.Parsed? && HasShape(s.after.json)
    ensures key in Terminals(CellsOf(s.after.json))
    ensures Terminals(CellsOf(s.after.json))[key] == Terminals(CellsOf(s.before.json))[key]
  {
    hide CellIdentity, CellTerminal, Terminals, Grid, Receipt, SameRequest;
    var cells, reused := CellsOf(s.before.json), Reused(s.before, s.resuming);
    if s.after != s.before {
      TerminalsAre(cells, key);
      var merged := Snapshot(a, s.run, s.resuming, reused, s.visited);
      SnapshotIsKeyed(a, s);
      ReceiptIs(a, s.resuming, merged);
      TerminalIsInGrid(cells, Grid(a), key);
      var i := MergedHas(Grid(a), reused, Executed(s.run, s.visited, reused), key);
      TerminalAt(merged, SnapshotKeys(a, s), i);
    }
  }

  lemma TerminalIsInGrid(cells: seq<Json>, grid: seq<Key>, key: Key)
    requires Sound(cells, grid) && key in Terminals(cells)
    ensures key in grid
  {
    hide CellIdentity, CellTerminal, Terminals;
    TerminalsAre(cells, key);
  }

  /** A session that ends by itself lists each key of the grid once, in grid order. */
  lemma CompletedListsGrid(a: Args, s: Session)
    requires IsSession(a, s) && Identifies(s.run) && Distinct(Grid(a)) && s.done
    ensures s.after.Parsed? && HasShape(s.after.json) && KeyedBy(CellsOf(s.after.json), Grid(a))
  {
    hide CellIdentity, CellTerminal, Terminals, Grid, Receipt, Snapshot, SnapshotKeys;
    SnapshotIsKeyed(a, s);
    ReceiptIs(a, s.resuming, Snapshot(a, s.run, s.resuming, Reused(s.before, s.resuming), s.visited));
  }

  // ------------------------------------------------------------- histories

  /** A fresh session and resumed ones after it, each starting from what the one before left. */
  ghost predicate IsHistory(a: Args, h: seq<Session>) {
    && h != [] && !h[0].resuming
    && (forall k :: 0 <= k < |h| ==> IsSession(a, h[k]) && Identifies(h[k].run))
    && (forall k :: 0 < k < |h| ==> h[k].resuming && h[k].before == h[k - 1].after)
  }

  /** A receipt in which `cell` is the terminal cell of `key`. */
  ghost predicate Lists(f: File, key: Key, cell: Json) {
    && f.Parsed? && HasShape(f.json)
    && key in Terminals(CellsOf(f.json)) && Terminals(CellsOf(f.json))[key] == cell
  }

  lemma {:induction false} TerminalCellsSurviveHistories(a: Args, h: seq<Session>, k: nat, key: Key, cell: Json)
    requires IsHistory(a, h) && Distinct(Grid(a)) && k < |h| && Lists(h[k].after, key, cell)
    ensures Lists(h[|h| - 1].after, key, cell)
    decreases |h| - k
  {
    hide IsSession, Terminals, Grid, HasShape;
    if k + 1 < |h| {
      TerminalCellsSurvive(a, h[k + 1], key);
      TerminalCellsSurviveHistories(a, h, k + 1, key, cell);
    }
  }

  /** What is terminal after some session is not executed by any later one. */
  lemma TerminalCellsAreNotExecutedAgain(a: Args, h: seq<Session>, k: nat, j: nat, key: Key, cell: Json)
    requires IsHistory(a, h) && Distinct(Grid(a)) && k < j < |h| && Lists(h[k].after, key, cell)
    ensures key !in Executed(h[j].run, h[j].visited, Reused(h[j].before, h[j].resuming))
  {
    hide IsSession, Terminals, Grid, HasShape, Executed, Reused;
    TerminalCellsSurviveHistories(a, h[..j], k, key, cell);
    TerminalCellsSurvive(a, h[j], key);
  }

  /** However often a run is cut off and resumed: once a session ends by itself, its receipt lists every
      key of the grid once, in grid order, with every cell that was terminal at any earlier point. */
  lemma ResumeClosure(a: Args, h: seq<Session>)
    requires IsHistory(a, h) && Distinct(Grid(a)) && h[|h| - 1].done
    ensures var last := h[|h| - 1].after;
            && last.Parsed? && Acceptable(a, last.json) && KeyedBy(CellsOf(last.json), Grid(a))
            && forall k, key, cell :: 0 <= k < |h| && Lists(h[k].after, key, cell) ==> Lists(last, key, cell)
  {
    hide Terminals, Grid, Receipt, Snapshot, CellIdentity, Lists;
    var s := h[|h| - 1];
    CompletedListsGrid(a, s);
    KeyedIsSound(CellsOf(s.after.json), Grid(a), Grid(a));
    ReceiptIs(a, s.resuming, Snapshot(a, s.run, s.resuming, Reused(s.before, s.resuming), s.visited));
    forall k, key, cell | 0 <= k < |h| && Lists(h[k].after, key, cell)
      ensures Lists(s.after, key, cell)
    {
      TerminalCellsSurviveHistories(a, h, k, key, cell);
    }
  }

  /** The receipt's terminal cells are what the scenarios yield. */
  ghost predicate FromRunner(f: File, run: Runner) {
    forall key, cell :: Lists(f, key, cell) ==> cell == CellFor(run, key)
  }

  ghost predicate HoldsCells(f: File, cells: seq<Json>) {
    f.Parsed? && HasShape(f.json) && CellsOf(f.json) == cells
  }

  lemma SessionKeepsRunner(a: Args, s: Session)
    requires IsSession(a, s) && Identifies(s.run) && Distinct(Grid(a)) && FromRunner(s.before, s.run)
    ensures FromRunner(s.after, s.run)
    ensures s.done ==> HoldsCells(s.after, CellsFor(s.run, Grid(a)))
  {
    hide CellIdentity, CellTerminal, Terminals, Grid, Receipt, SnapshotKeys, Acceptable;
    var reused := Reused(s.before, s.resuming);
    var cells, keys := Snapshot(a, s.run, s.resuming, reused, s.visited), SnapshotKeys(a, s);
    SnapshotIsKeyed(a, s);
    ReceiptIs(a, s.resuming, cells);
    forall key | key in reused
      ensures reused[key] == CellFor(s.run, key)
    {
      assert Lists(s.before, key, reused[key]);
    }
    SnapshotFromRunner(a, s, keys);
    if s.after != s.before {
      forall key, cell | Lists(s.after, key, cell)
        ensures cell == CellFor(s.run, key)
      {
        TerminalsAre(cells, key);
        KeyedCell(cells, keys, s.run, key, cell);
      }
    }
  }

  lemma KeyedCell(cells: seq<Json>, keys: seq<Key>, run: Runner, key: Key, cell: Json)
    requires KeyedBy(cells, keys) && cells == CellsFor(run, keys) && cell in cells && HasKey(cell, key)
    ensures cell == CellFor(run, key)
  {
    hide CellIdentity;
    var i :| 0 <= i < |cells| && cells[i] == cell;
    assert HasKey(cells[i], keys[i]);
  }

  lemma SnapshotFromRunner(a: Args, s: Session, keys: seq<Key>)
    requires keys == SnapshotKeys(a, s)
    requires forall key :: key in Reused(s.before, s.resuming) ==>
        Reused(s.before, s.resuming)[key] == CellFor(s.run, key)
    ensures Snapshot(a, s.run, s.resuming, Reused(s.before, s.resuming), s.visited) == CellsFor(s.run, keys)
  {
    hide Grid, Terminals;
    if s.resuming {
      var reused := Reused(s.before, s.resuming);
      MergedFromRunner(Grid(a), reused, Executed(s.run, s.visited, reused), s.run);
    }
  }

  lemma {:induction false} MergedFromRunner(grid: seq<Key>, reused: map<Key, Json>, executed: map<Key, Json>,
                                            run: Runner)
    requires forall key :: key in reused ==> reused[key] == CellFor(run, key)
    requires forall key :: key in executed ==> executed[key] == CellFor(run, key)
    ensures MergedGridCells(grid, reused, executed) == CellsFor(run, Within(grid, reused.Keys + executed.Keys))
  {
    if grid != [] {
      MergedFromRunner(grid[..|grid| - 1], reused, executed, run);
    }
  }

  /** When the scenarios always yield the same, the completed receipt is that of one uninterrupted run. */
  lemma InterruptionsDoNotMatter(a: Args, h: seq<Session>, run: Runner)
    requires IsHistory(a, h) && Distinct(Grid(a)) && h[|h| - 1].done
    requires forall k :: 0 <= k < |h| ==> h[k].run == run
    requires FromRunner(h[0].before, run)
    ensures HoldsCells(h[|h| - 1].after, CellsFor(run, Grid(a)))
  {
    hide IsSession, Grid, FromRunner, Lists, HoldsCells;
    for k := 0 to |h|
      invariant k > 0 ==> FromRunner(h[k - 1].after, run)
      invariant k > 0 && h[k - 1].done ==> HoldsCells(h[k - 1].after, CellsFor(run, Grid(a)))
    {
      SessionKeepsRunner(a, h[k]);
    }
  }

  // ------------------------------------------------------------- duplicates

  /** The receipt of a completed fresh run can be resumed exactly when the grid repeats no key. */
  lemma FreshReceiptIsAcceptableIff(a: Args, s: Session)
    requires IsSession(a, s) && Identifies(s.run) && !s.resuming && s.done
    ensures s.after.Parsed? && (Acceptable(a, s.after.json) <==> Distinct(Grid(a)))
  {
    hide CellIdentity, CellTerminal, Terminals, Grid, Receipt, SameRequest;
    var cells := CellsFor(s.run, Grid(a));
    ReceiptIs(a, false, cells);
    forall k | 0 <= k < |cells|
      ensures HasKey(cells[k], Grid(a)[k])
    {
      CellForHasKey(s.run, Grid(a)[k]);
    }
    if Distinct(Grid(a)) {
      KeyedIsSound(cells, Grid(a), Grid(a));
    }
  }

  /** The grid repeats a key exactly when an argument list does. */
  lemma GridIsDistinctIff(a: Args)
    requires a.repeats > 0 && a.profiles != [] && a.concurrencies != []
    ensures Distinct(Grid(a)) <==> Distinct(a.profiles) && Distinct(a.concurrencies)
  {
    hide Rows, Repeats;
    RowsDistinctIff(a.profiles, a.concurrencies, 1);
    RepeatsDistinctIff(a, a.repeats);
  }

  lemma RowDistinctIff(profiles: seq<string>, concurrency: int, repeat: int)
    ensures Distinct(Row(profiles, concurrency, repeat)) <==> Distinct(profiles)
  {
    var row := Row(profiles, concurrency, repeat);
    assert forall i :: 0 <= i < |row| ==> row[i] == Key(profiles[i], concurrency, repeat);
  }

  lemma DistinctSum(x: seq<Key>, y: seq<Key>)
    ensures Distinct(x + y) <==> Distinct(x) && Distinct(y) && forall key :: key in x ==> key !in y
  {
    var z := x + y;
    if Distinct(z) {
      assert Distinct(x) by {
        assert forall k :: 0 <= k < |x| ==> x[k] == z[k];
      }
      forall j, k | 0 <= j < k < |y|
        ensures y[j] != y[k]
      {
        assert z[|x| + j] == y[j] && z[|x| + k] == y[k];
      }
      forall key | key in x
        ensures key !in y
      {
        var i :| 0 <= i < |x| && x[i] == key;
        forall j | 0 <= j < |y|
          ensures y[j] != key
        {
          assert z[i] == key && z[|x| + j] == y[j];
        }
      }
    }
    if Distinct(x) && Distinct(y) && forall key :: key in x ==> key !in y {
      forall j, k | 0 <= j < k < |z|
        ensures z[j] != z[k]
      {
        if j < |x| <= k {
          assert z[j] == x[j] && z[k] == y[k - |x|];
          assert x[j] in x && y[k - |x|] in y;
        } else if |x| <= j {
          assert z[j] == y[j - |x|] && z[k] == y[k - |x|];
        } else {
          assert z[j] == x[j] && z[k] == x[k];
        }
      }
    }
  }

  lemma {:induction false} RowsHold(profiles: seq<string>, concurrencies: seq<int>, repeat: int, key: Key)
    ensures key in Rows(profiles, concurrencies, repeat) <==>
            key.profile in profiles && key.concurrency in concurrencies && key.repeat == repeat
  {
    if concurrencies != [] {
      var n := |concurrencies| - 1;
      RowsHold(profiles, concurrencies[..n], repeat, key);
      assert concurrencies == concurrencies[..n] + [concurrencies[n]];
      var row := Row(profiles, concurrencies[n], repeat);
      assert forall i :: 0 <= i < |row| ==> row[i] == Key(profiles[i], concurrencies[n], repeat);
      if key.profile in profiles && key.concurrency == concurrencies[n] && key.repeat == repeat {
        var i :| 0 <= i < |profiles| && profiles[i] == key.profile;
        assert row[i] == key;
      }
    }
  }

  lemma {:induction false} RowsDistinctIff(profiles: seq<string>, concurrencies: seq<int>, repeat: int)
    requires profiles != []
    ensures Distinct(Rows(profiles, concurrencies, repeat)) <==>
            concurrencies == [] || (Distinct(profiles) && Distinct(concurrencies))
  {
    if concurrencies != [] {
      var n := |concurrencies| - 1;
      var before, row := Rows(profiles, concurrencies[..n], repeat), Row(profiles, concurrencies[n], repeat);
      RowsDistinctIff(profiles, concurrencies[..n], repeat);
      RowDistinctIff(profiles, concurrencies[n], repeat);
      DistinctSum(before, row);
      forall key
        ensures key in before <==>
            key.profile in profiles && key.concurrency in concurrencies[..n] && key.repeat == repeat
        ensures key in row ==> key.concurrency == concurrencies[n]
      {
        RowsHold(profiles, concurrencies[..n], repeat, key);
      }
      assert row[0] == Key(profiles[0], concurrencies[n], repeat);
      assert Distinct(concurrencies) <==> Distinct(concurrencies[..n]) && concurrencies[n] !in concurrencies[..n];
    }
  }

  lemma {:induction false} RepeatsHold(a: Args, repeats: nat, key: Key)
    ensures key in Repeats(a, repeats) <==>
            key.profile in a.profiles && key.concurrency in a.concurrencies && 1 <= key.repeat <= repeats
  {
    if repeats > 0 {
      RepeatsHold(a, repeats - 1, key);
      RowsHold(a.profiles, a.concurrencies, repeats, key);
    }
  }

  lemma {:induction false} RepeatsDistinctIff(a: Args, repeats: nat)
    requires a.profiles != [] && a.concurrencies != []
    ensures Distinct(Repeats(a, repeats)) <==> repeats == 0 || (Distinct(a.profiles) && Distinct(a.concurrencies))
  {
    hide Rows;
    if repeats > 0 {
      RepeatsDistinctIff(a, repeats - 1);
      RowsDistinctIff(a.profiles, a.concurrencies, repeats);
      DistinctSum(Repeats(a, repeats - 1), Rows(a.profiles, a.concurrencies, repeats));
      forall key | key in Repeats(a, repeats - 1)
        ensures key !in Rows(a.profiles, a.concurrencies, repeats)
      {
        RepeatsHold(a, repeats - 1, key);
        RowsHold(a.profiles, a.concurrencies, repeats, key);
      }
    }
  }

  // ------------------------------------------------------------- the same request

  /** Metadata that matches in every compared field means the same grid; so a receipt that one invocation
      accepts, any invocation of the same request accepts. */
  lemma SameRequestSameAcceptance(a: Args, b: Args, j: Json)
    requires SameRequest(BuildMetadata(a), BuildMetadata(b))
    ensures Grid(a) == Grid(b)
    ensures Acceptable(a, j) <==> Acceptable(b, j)
  {
    hide Grid, Sound, CellIdentity;
    SameRequestIff(a, b);
    SameGrid(a, b);
    if HasShape(j) {
      SameRequestIsTransitive(j.Get("metadata").fields, BuildMetadata(a), BuildMetadata(b));
      SameRequestIsTransitive(j.Get("metadata").fields, BuildMetadata(b), BuildMetadata(a));
    }
  }

  lemma SameRequestIsTransitive(x: map<string, Json>, y: map<string, Json>, z: map<string, Json>)
    requires SameRequest(y, z) || SameRequest(z, y)
    ensures SameRequest(x, y) ==> SameRequest(x, z)
  {
  }

  lemma SameGrid(a: Args, b: Args)
    requires a.profiles == b.profiles && a.concurrencies == b.concurrencies && a.repeats == b.repeats
    ensures Grid(a) == Grid(b)
  {
    SameRepeats(a, b, a.repeats);
  }

  lemma {:induction false} SameRepeats(a: Args, b: Args, n: nat)
    requires a.profiles == b.profiles && a.concurrencies == b.concurrencies
    ensures Repeats(a, n) == Repeats(b, n)
  {
    if n > 0 {
      SameRepeats(a, b, n - 1);
    }
  }
}
