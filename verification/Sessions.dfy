/** Sessions of the workload recheck: fresh and resumed runs that may be cut off after any scenario. */
module Sessions {
  import opened Resume

  /** What running a scenario yields: its cell, or an exception. */
  datatype Scenario = Measured(cell: Json) | Raised(message: string)

  type Runner = Key -> Scenario

  /** The cell recorded for a scenario that raised. */
  function ErrorCell(key: Key, message: string): Json {
    Obj(map["status" := Str("error"), "failure_class" := Str("harness_exception"),
            "profile" := Str(key.profile), "concurrency" := Num(key.concurrency), "repeat" := Num(key.repeat),
            "error" := Str(message), "requests" := Arr([]), "gates" := Arr([Obj(map["passed" := Bool(false)])])])
  }

  function CellFor(run: Runner, key: Key): Json {
    match run(key)
    case Measured(cell) => cell
    case Raised(message) => ErrorCell(key, message)
  }

  /** A measured cell carries the identity of its scenario. */
  ghost predicate Identifies(run: Runner) {
    forall key :: run(key).Measured? ==> HasKey(run(key).cell, key)
  }

  /** A scenario that raised is identified, and will be run again. */
  lemma ErrorCellIsNotTerminal(key: Key, message: string)
    ensures HasKey(ErrorCell(key, message), key) && !CellTerminal(ErrorCell(key, message))
    ensures ErrorCell(key, message).Get("status") == Str("error")
  {
  }

  /** The cell of a scenario whose window was measured, with the outcomes of its gates. */
  function MeasuredCell(key: Key, gates: seq<bool>, hash: string, summary: map<string, Json>, rows: seq<Json>): Json {
    Obj(map["status" := Str(if false in gates then "failed" else "complete"),
            "profile" := Str(key.profile), "concurrency" := Num(key.concurrency), "repeat" := Num(key.repeat),
            "trace" := Obj(map["trace_hash" := Str(hash)]), "summary" := Obj(summary), "requests" := Arr(rows),
            "gates" := Arr(seq(|gates|, i requires 0 <= i < |gates| => Obj(map["passed" := Bool(gates[i])])))])
  }

  /** The cell of one that did not come so far: its policy was not read back, or its sessions not primed. */
  function UnmeasuredCell(key: Key, class_: string, primes: seq<Json>): Json {
    Obj(map["status" := Str("failed"), "failure_class" := Str(class_),
            "profile" := Str(key.profile), "concurrency" := Num(key.concurrency), "repeat" := Num(key.repeat),
            "primes" := Arr(primes), "requests" := Arr([]), "gates" := Arr([Obj(map["passed" := Bool(false)])])])
  }

  /** A measured scenario is reused, whether its gates passed or not; one that was not measured is run again. */
  lemma TerminalMeansMeasured(key: Key, gates: seq<bool>, hash: string, summary: map<string, Json>, rows: seq<Json>,
                              class_: string, primes: seq<Json>)
    requires gates != []
    ensures var cell := MeasuredCell(key, gates, hash, summary, rows); HasKey(cell, key) && CellTerminal(cell)
    ensures var cell := UnmeasuredCell(key, class_, primes); HasKey(cell, key) && !CellTerminal(cell)
  {
  }

  /** Nor is a cell reused that has another status, lacks its trace's hash, or evaluated no gate. */
  lemma OtherCellsRunAgain(cell: Json)
    requires cell.Obj?
    requires || cell.Get("status") !in {Str("complete"), Str("failed")}
             || !cell.Get("trace").Obj? || !cell.Get("trace").Get("trace_hash").Str?
             || cell.Get("gates") == Arr([]) || !cell.Get("gates").Arr?
             || !cell.Get("summary").Obj? || !cell.Get("requests").Arr?
    ensures !CellTerminal(cell)
  {
  }

  lemma CellForHasKey(run: Runner, key: Key)
    requires Identifies(run)
    ensures HasKey(CellFor(run, key), key)
  {
    if run(key).Raised? {
      ErrorCellIsNotTerminal(key, run(key).message);
    }
  }

  /** merged_grid_cells */
  function MergedGridCells(grid: seq<Key>, reused: map<Key, Json>, executed: map<Key, Json>): seq<Json> {
    if grid == [] then []
    else
      var key := grid[|grid| - 1];
      MergedGridCells(grid[..|grid| - 1], reused, executed)
      + if key in reused then [reused[key]] else if key in executed then [executed[key]] else []
  }

  function CellsFor(run: Runner, keys: seq<Key>): seq<Json> {
    seq(|keys|, i requires 0 <= i < |keys| => CellFor(run, keys[i]))
  }

  function Executed(run: Runner, visited: seq<Key>, reused: map<Key, Json>): map<Key, Json> {
    map key | key in visited && key !in reused :: CellFor(run, key)
  }

  function Receipt(a: Args, resuming: bool, cells: seq<Json>): Json {
    var metadata := BuildMetadata(a);
    Obj(map["metadata" := Obj(if resuming then metadata["resume" := Obj(map["enabled" := Bool(true)])] else metadata),
            "cells" := Arr(cells)])
  }

  /** The terminal cells that a session starts from. */
  function Reused(before: File, resuming: bool): map<Key, Json> {
    if resuming && before.Parsed? && HasShape(before.json) then Terminals(CellsOf(before.json)) else map[]
  }

  function Snapshot(a: Args, run: Runner, resuming: bool, reused: map<Key, Json>, visited: seq<Key>): seq<Json> {
    if resuming then MergedGridCells(Grid(a), reused, Executed(run, visited, reused)) else CellsFor(run, visited)
  }

  /** One session: it went through `visited`, the whole grid if it ended by itself, and left `after`. */
  datatype Session = Session(run: Runner, resuming: bool, visited: seq<Key>, done: bool, before: File, after: File)

  ghost predicate IsSession(a: Args, s: Session) {
    var reused := Reused(s.before, s.resuming);
    && (s.resuming ==> s.before.Parsed? && Acceptable(a, s.before.json))
    && (if s.done then s.visited == Grid(a) else s.visited <= Grid(a))
    && s.after == if s.done || Executed(s.run, s.visited, reused) != map[]
                  then Parsed(Receipt(a, s.resuming, Snapshot(a, s.run, s.resuming, reused, s.visited)))
                  else s.before
  }

  // ------------------------------------------------------------- walking the grid

  lemma OneMoreExecuted(run: Runner, visited: seq<Key>, reused: map<Key, Json>, key: Key)
    requires key !in reused
    ensures Executed(run, visited + [key], reused) == Executed(run, visited, reused)[key := CellFor(run, key)]
  {
  }

  lemma NothingExecuted(a: Args, run: Runner, visited: seq<Key>, before: File, resuming: bool, key: Key)
    requires key in Reused(before, resuming)
    ensures var reused := Reused(before, resuming);
            && resuming
            && Executed(run, visited + [key], reused) == Executed(run, visited, reused)
            && Snapshot(a, run, resuming, reused, visited + [key]) == Snapshot(a, run, resuming, reused, visited)
  {
  }

  /** The cells list and the snapshots agree with what was visited, whichever mode. */
  lemma SnapshotOf(a: Args, run: Runner, resuming: bool, reused: map<Key, Json>, visited: seq<Key>)
    ensures Snapshot(a, run, resuming, reused, visited)
            == if resuming then MergedGridCells(Grid(a), reused, Executed(run, visited, reused))
               else CellsFor(run, visited)
  {
  }

  lemma GridStarts(a: Args)
    ensures Repeats(a, 0) == [] && Repeats(a, a.repeats) == Grid(a)
  {
  }

  lemma RowsStart(a: Args, repeat: int)
    ensures a.concurrencies[..0] == [] && Rows(a.profiles, a.concurrencies[..0], repeat) == []
  {
  }

  lemma NextKey(a: Args, repeat: nat, j: nat, i: nat)
    requires j < |a.concurrencies| && i < |a.profiles|
    ensures var row := Row(a.profiles, a.concurrencies[j], repeat);
            row[..i + 1] == row[..i] + [Key(a.profiles[i], a.concurrencies[j], repeat)]
  {
  }

  lemma NextRow(a: Args, repeat: nat, j: nat)
    requires j < |a.concurrencies|
    ensures var row := Row(a.profiles, a.concurrencies[j], repeat);
            && row[..0] == [] && row[..|a.profiles|] == row
            && Rows(a.profiles, a.concurrencies[..j + 1], repeat)
               == Rows(a.profiles, a.concurrencies[..j], repeat) + row
  {
    assert a.concurrencies[..j + 1][..j] == a.concurrencies[..j];
  }

  lemma NextRepeat(a: Args, repeat: nat)
    requires 0 < repeat
    ensures a.concurrencies[..|a.concurrencies|] == a.concurrencies
    ensures Repeats(a, repeat) == Repeats(a, repeat - 1) + Rows(a.profiles, a.concurrencies, repeat)
  {
  }

  lemma {:induction false} RowsPrefix(a: Args, j: nat, repeat: int)
    requires j <= |a.concurrencies|
    ensures Rows(a.profiles, a.concurrencies[..j], repeat) <= Rows(a.profiles, a.concurrencies, repeat)
    decreases |a.concurrencies| - j
  {
    if j < |a.concurrencies| {
      NextRow(a, if repeat < 0 then 0 else repeat, j);
      assert a.concurrencies[..j + 1][..j] == a.concurrencies[..j];
      RowsPrefix(a, j + 1, repeat);
    } else {
      assert a.concurrencies[..j] == a.concurrencies;
    }
  }

  lemma {:induction false} RepeatsPrefix(a: Args, n: nat, m: nat)
    requires n <= m
    ensures Repeats(a, n) <= Repeats(a, m)
  {
    if n < m {
      RepeatsPrefix(a, n, m - 1);
    }
  }

  /** Wherever the loops are, what they have visited is a prefix of the grid. */
  lemma PrefixSoFar(a: Args, repeat: nat, j: nat, i: nat)
    requires 0 < repeat <= a.repeats && j < |a.concurrencies| && i <= |a.profiles|
    ensures Repeats(a, repeat - 1) + Rows(a.profiles, a.concurrencies[..j], repeat)
            + Row(a.profiles, a.concurrencies[j], repeat)[..i] <= Grid(a)
  {
    hide Rows, Repeats;
    NextRow(a, repeat, j);
    RowsPrefix(a, j + 1, repeat);
    NextRepeat(a, repeat);
    RepeatsPrefix(a, repeat, a.repeats);
    GridStarts(a);
    var done, rows := Repeats(a, repeat - 1), Rows(a.profiles, a.concurrencies[..j], repeat);
    var row := Row(a.profiles, a.concurrencies[j], repeat);
    PrefixOfSum(rows + row[..i], rows + row, Rows(a.profiles, a.concurrencies, repeat));
    assert done + rows + row[..i] == done + (rows + row[..i]);
    SumOfPrefix(done, rows + row[..i], Rows(a.profiles, a.concurrencies, repeat));
  }

  lemma PrefixOfSum(x: seq<Key>, y: seq<Key>, z: seq<Key>)
    requires x <= y && y <= z
    ensures x <= z
  {
  }

  lemma SumOfPrefix(d: seq<Key>, x: seq<Key>, y: seq<Key>)
    requires x <= y
    ensures d + x <= d + y
  {
  }

  // ------------------------------------------------------------- the session loop

  class Harness {
    const args: Args
    const run: Runner
    const resuming: bool
    const reused: map<Key, Json>
    var executed: map<Key, Json>
    var cells: seq<Json>
    var output: File
    ghost const before: File

    constructor (args: Args, run: Runner, resuming: bool, reused: map<Key, Json>, output: File)
      requires reused == Reused(output, resuming)
      ensures this.args == args && this.run == run && this.resuming == resuming && before == output && Went([])
    {
      this.args, this.run, this.resuming, this.reused := args, run, resuming, reused;
      executed, cells, this.output, before := map[], [], output, output;
    }

    /** The harness has gone through `visited`. */
    ghost predicate Went(visited: seq<Key>)
      reads this
    {
      && reused == Reused(before, resuming)
      && executed == Executed(run, visited, reused)
      && (!resuming ==> cells == CellsFor(run, visited))
      && output == if executed == map[] then before
                   else Parsed(Receipt(args, resuming, Snapshot(args, run, resuming, reused, visited)))
    }

    method Write(snapshot: seq<Json>)
      modifies this`output
      ensures output == Parsed(Receipt(args, resuming, snapshot))
    {
      output := Parsed(Receipt(args, resuming, snapshot));
    }

    /** The body of the innermost loop, for a scenario that is not reused. */
    method RunScenario(key: Key, ghost visited: seq<Key>)
      requires Went(visited) && key !in reused
      modifies this
      ensures Went(visited + [key])
    {
      var cell := CellFor(run, key);
      executed := executed[key := cell];
      OneMoreExecuted(run, visited, reused, key);
      if resuming {
        Write(MergedGridCells(Grid(args), reused, executed));
      } else {
        cells := cells + [cell];
        assert cells == CellsFor(run, visited + [key]);
        Write(cells);
      }
      assert key in executed;
    }

    /** async_main and the final write of main.  `budget` scenarios are run before the session is cut off. */
    method AsyncMain(budget: nat) returns (done: bool, ghost visited: seq<Key>)
      requires Went([]) && (resuming ==> before.Parsed? && Acceptable(args, before.json))
      modifies this
      ensures IsSession(args, Session(run, resuming, visited, done, before, output))
    {
      hide Acceptable, Executed, Snapshot, Receipt, Reused, Rows, Repeats;
      var left := budget;
      visited := [];
      GridStarts(args);
      for repeat := 1 to args.repeats + 1
        invariant visited == Repeats(args, repeat - 1) && Went(visited)
      {
        RowsStart(args, repeat);
        for j := 0 to |args.concurrencies|
          invariant visited == Repeats(args, repeat - 1) + Rows(args.profiles, args.concurrencies[..j], repeat)
          invariant Went(visited)
        {
          NextRow(args, repeat, j);
          for i := 0 to |args.profiles|
            invariant visited == Repeats(args, repeat - 1) + Rows(args.profiles, args.concurrencies[..j], repeat)
                                 + Row(args.profiles, args.concurrencies[j], repeat)[..i]
            invariant Went(visited)
          {
            var key := Key(args.profiles[i], args.concurrencies[j], repeat);
            NextKey(args, repeat, j, i);
            if key in reused {
              NothingExecuted(args, run, visited, before, resuming, key);
              visited := visited + [key];
              continue;
            }
            if left == 0 {
              PrefixSoFar(args, repeat, j, i);
              return false, visited;
            }
            left := left - 1;
            RunScenario(key, visited);
            visited := visited + [key];
          }
        }
        NextRepeat(args, repeat);
      }
      SnapshotOf(args, run, resuming, reused, visited);
      if left == 0 {
        return false, visited;
      }
      done := true;
      Write(if resuming then MergedGridCells(Grid(args), reused, executed) else cells);
    }
  }

  /** One invocation on an output path: a resumed one first validates what is there, and leaves it
      untouched if it refuses. */
  method Invoke(a: Args, run: Runner, resuming: bool, file: File, budget: nat)
    returns (refused: bool, done: bool, after: File, ghost visited: seq<Key>)
    ensures refused <==> resuming && !(file.Parsed? && Acceptable(a, file.json))
    ensures refused ==> after == file
    ensures !refused ==> IsSession(a, Session(run, resuming, visited, done, file, after))
  {
    hide Acceptable, Terminals, Grid, Executed, Snapshot, Receipt;
    var reused := map[];
    if resuming {
      var plan := LoadResumeState(a, file);
      if plan.Refused? {
        return true, false, file, [];
      }
      reused := plan.value.reused;
      AcceptableHasShape(a, file.json);
    }
    var harness := new Harness(a, run, resuming, reused, file);
    done, visited := harness.AsyncMain(budget);
    refused, after := false, harness.output;
  }

  lemma AcceptableHasShape(a: Args, j: Json)
    requires Acceptable(a, j)
    ensures HasShape(j)
  {
  }
}
