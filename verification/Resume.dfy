/** The crash-resume planner of the workload recheck: which scenarios a resumed run executes, what it
    writes, and what it accepts. */
module Resume {
  import opened Options

  /** A parsed receipt. */
  datatype Json =
    | Null
    | Bool(flag: bool)
    | Num(number: int)
    | Str(text: string)
    | Arr(items: seq<Json>)
    | Obj(fields: map<string, Json>)
  {
    /** dict.get */
    function Get(key: string): Json
      requires Obj?
    {
      if key in fields then fields[key] else Null
    }
  }

  datatype Key = Key(profile: string, concurrency: int, repeat: int)

  /** The command line: the grid, and every other argument. */
  datatype Args = Args(profiles: seq<string>, concurrencies: seq<int>, repeats: nat, others: map<string, Json>)

  // ------------------------------------------------------------- the grid

  function Row(profiles: seq<string>, concurrency: int, repeat: int): (r: seq<Key>)
    ensures |r| == |profiles|
  {
    seq(|profiles|, i requires 0 <= i < |profiles| => Key(profiles[i], concurrency, repeat))
  }

  function Rows(profiles: seq<string>, concurrencies: seq<int>, repeat: int): seq<Key> {
    if concurrencies == [] then []
    else Rows(profiles, concurrencies[..|concurrencies| - 1], repeat)
         + Row(profiles, concurrencies[|concurrencies| - 1], repeat)
  }

  function Repeats(a: Args, repeats: nat): seq<Key> {
    if repeats == 0 then [] else Repeats(a, repeats - 1) + Rows(a.profiles, a.concurrencies, repeats)
  }

  /** scenario_grid */
  function Grid(a: Args): seq<Key> {
    Repeats(a, a.repeats)
  }

  // ------------------------------------------------------------- cells

  /** cell_identity */
  function CellIdentity(cell: Json): Option<Key>
    requires cell.Obj?
  {
    var profile, concurrency, repeat := cell.Get("profile"), cell.Get("concurrency"), cell.Get("repeat");
    if AsInt(concurrency).None? || AsInt(repeat).None? || AsText(profile).None? then None
    else Some(Key(AsText(profile).value, AsInt(concurrency).value, AsInt(repeat).value))
  }

  /** int(...), which raises on anything but numbers and booleans; numeric strings are not modelled. */
  function AsInt(j: Json): Option<int> {
    match j
    case Num(n) => Some(n)
    case Bool(b) => Some(if b then 1 else 0)
    case _ => None
  }

  /** str(...) of the values that can name a profile. */
  function AsText(j: Json): Option<string> {
    match j
    case Str(s) => Some(s)
    case Null => Some("None")
    case Bool(b) => Some(if b then "True" else "False")
    case _ => None
  }

  /** cell_terminal */
  predicate CellTerminal(cell: Json)
    requires cell.Obj?
  {
    && cell.Get("status") in {Str("complete"), Str("failed")}
    && cell.Get("trace").Obj? && cell.Get("trace").Get("trace_hash").Str?
    && cell.Get("gates").Arr? && cell.Get("gates").items != []
    && cell.Get("summary").Obj? && cell.Get("requests").Arr?
  }

  /** A cell of the grid with the given key. */
  predicate HasKey(cell: Json, key: Key) {
    cell.Obj? && CellIdentity(cell) == Some(key)
  }

  /** The receipt's cells, if it is acceptable: objects with distinct identities from the grid. */
  ghost predicate Sound(cells: seq<Json>, grid: seq<Key>) {
    && (forall k :: 0 <= k < |cells| ==>
          cells[k].Obj? && CellIdentity(cells[k]).Some? && CellIdentity(cells[k]).value in grid)
    && (forall j, k :: 0 <= j < k < |cells| ==> CellIdentity(cells[j]) != CellIdentity(cells[k]))
  }

  /** The terminal cells by identity. */
  function Terminals(cells: seq<Json>): map<Key, Json> {
    if cells == [] then map[]
    else
      var before, cell := Terminals(cells[..|cells| - 1]), cells[|cells| - 1];
      if cell.Obj? && CellIdentity(cell).Some? && CellTerminal(cell)
      then before[CellIdentity(cell).value := cell] else before
  }

  // ------------------------------------------------------------- metadata

  /** build_metadata: all arguments but the resume switch and the parsed policies. */
  function BuildMetadata(a: Args): map<string, Json> {
    a.others["profiles" := Arr(Texts(a.profiles))]["concurrencies" := Arr(Numbers(a.concurrencies))]
            ["repeats" := Num(a.repeats)]
    - {"resume", "expected_policy", "policy_updates"}
  }

  function Texts(q: seq<string>): seq<Json> {
    seq(|q|, i requires 0 <= i < |q| => Str(q[i]))
  }

  function Numbers(q: seq<int>): seq<Json> {
    seq(|q|, i requires 0 <= i < |q| => Num(q[i]))
  }

  predicate Compared(key: string) {
    key != "output" && key != "resume"
  }

  predicate FieldDiffers(saved: map<string, Json>, expected: map<string, Json>, key: string) {
    key !in saved || key !in expected || saved[key] != expected[key]
  }

  /** The two agree on every field but the output path and the resume block. */
  ghost predicate SameRequest(saved: map<string, Json>, expected: map<string, Json>) {
    forall key :: key in saved.Keys + expected.Keys && Compared(key) ==> !FieldDiffers(saved, expected, key)
  }

  /** Two invocations ask for the same measurement: the same grid arguments, and every other argument that is
      recorded, the output path apart, is the same in both or given in neither. */
  ghost predicate SameMeasurement(a: Args, b: Args) {
    && a.profiles == b.profiles && a.concurrencies == b.concurrencies && a.repeats == b.repeats
    && forall key :: key in a.others.Keys + b.others.Keys &&
                     key !in {"profiles", "concurrencies", "repeats", "output", "resume", "expected_policy",
                              "policy_updates"} ==>
         key in a.others && key in b.others && a.others[key] == b.others[key]
  }

  lemma TextsAgree(p: seq<string>, q: seq<string>)
    ensures Texts(p) == Texts(q) <==> p == q
  {
    if Texts(p) == Texts(q) {
      assert |Texts(p)| == |p| && |Texts(q)| == |q|;
      assert forall i :: 0 <= i < |p| ==> Texts(p)[i] == Str(p[i]) && Texts(q)[i] == Str(q[i]);
    }
  }

  lemma NumbersAgree(p: seq<int>, q: seq<int>)
    ensures Numbers(p) == Numbers(q) <==> p == q
  {
    if Numbers(p) == Numbers(q) {
      assert |Numbers(p)| == |p| && |Numbers(q)| == |q|;
      assert forall i :: 0 <= i < |p| ==> Numbers(p)[i] == Num(p[i]) && Numbers(q)[i] == Num(q[i]);
    }
  }

  /** The recorded configurations match exactly when the two invocations ask for the same measurement. */
  lemma SameRequestIff(a: Args, b: Args)
    ensures SameRequest(BuildMetadata(a), BuildMetadata(b)) <==> SameMeasurement(a, b)
  {
    var x, y := BuildMetadata(a), BuildMetadata(b);
    TextsAgree(a.profiles, b.profiles);
    NumbersAgree(a.concurrencies, b.concurrencies);
    hide Texts, Numbers;
    if SameRequest(x, y) {
      assert !FieldDiffers(x, y, "profiles") && !FieldDiffers(x, y, "concurrencies") && !FieldDiffers(x, y, "repeats");
      forall key | key in a.others.Keys + b.others.Keys &&
                   key !in {"profiles", "concurrencies", "repeats", "output", "resume", "expected_policy",
                            "policy_updates"}
        ensures key in a.others && key in b.others && a.others[key] == b.others[key]
      {
        assert key in x.Keys + y.Keys && Compared(key);
      }
    }
  }

  /** resume_metadata_mismatches: the fields that differ. */
  method ResumeMetadataMismatches(saved: map<string, Json>, expected: map<string, Json>)
    returns (mismatches: set<string>)
    ensures forall key :: key in mismatches <==>
              key in saved.Keys + expected.Keys && Compared(key) && FieldDiffers(saved, expected, key)
    ensures mismatches == {} <==> SameRequest(saved, expected)
  {
    mismatches := {};
    var todo := saved.Keys + expected.Keys - {"output", "resume"};
    while todo != {}
      invariant todo <= saved.Keys + expected.Keys - {"output", "resume"}
      invariant forall key :: key in mismatches <==>
                  && key in saved.Keys + expected.Keys && key !in todo
                  && Compared(key) && FieldDiffers(saved, expected, key)
      decreases |todo|
    {
      var key :| key in todo;
      if FieldDiffers(saved, expected, key) {
        mismatches := mismatches + {key};
      }
      todo := todo - {key};
    }
  }

  // ------------------------------------------------------------- loading a receipt

  /** What reading the output path yields. */
  datatype File = Absent | Unreadable | Parsed(json: Json)

  datatype Refusal =
    | NoReceipt
    | CorruptReceipt
    | BadShape
    | ConfigMismatch(fields: set<string>)
    | BadCells(problems: seq<nat>)

  datatype Result<T> = Ok(value: T) | Refused(why: Refusal)

  datatype Plan = Plan(grid: seq<Key>, reused: map<Key, Json>, missing: seq<Key>)

  predicate HasShape(j: Json) {
    j.Obj? && j.Get("metadata").Obj? && j.Get("cells").Arr?
  }

  function CellsOf(j: Json): seq<Json>
    requires HasShape(j)
  {
    j.Get("cells").items
  }

  /** A receipt that a resumed run accepts. */
  ghost predicate Acceptable(a: Args, j: Json) {
    HasShape(j) && SameRequest(j.Get("metadata").fields, BuildMetadata(a)) && Sound(CellsOf(j), Grid(a))
  }

  predicate InGrid(cell: Json, grid: seq<Key>) {
    cell.Obj? && CellIdentity(cell).Some? && CellIdentity(cell).value in grid
  }

  /** Cell k is no grid cell, or repeats an earlier one. */
  ghost predicate IsProblem(cells: seq<Json>, grid: seq<Key>, k: nat)
    requires k < |cells|
  {
    !InGrid(cells[k], grid) || Repeated(cells, grid, k)
  }

  ghost predicate Repeated(cells: seq<Json>, grid: seq<Key>, k: nat)
    requires k < |cells| && InGrid(cells[k], grid)
  {
    exists j :: 0 <= j < k && InGrid(cells[j], grid) && CellIdentity(cells[j]) == CellIdentity(cells[k])
  }

  lemma SoundMeansNoProblem(cells: seq<Json>, grid: seq<Key>)
    ensures Sound(cells, grid) <==> forall k: nat :: k < |cells| ==> !IsProblem(cells, grid, k)
  {
    if forall k: nat :: k < |cells| ==> !IsProblem(cells, grid, k) {
      forall k | 0 <= k < |cells|
        ensures InGrid(cells[k], grid)
      {
        assert !IsProblem(cells, grid, k);
      }
      forall j, k | 0 <= j < k < |cells|
        ensures CellIdentity(cells[j]) != CellIdentity(cells[k])
      {
        assert !IsProblem(cells, grid, k) && InGrid(cells[j], grid);
      }
    }
  }

  /** The keys of a grid that are, or are not, in a set. */
  function Within(grid: seq<Key>, keys: set<Key>): seq<Key> {
    if grid == [] then []
    else Within(grid[..|grid| - 1], keys) + if grid[|grid| - 1] in keys then [grid[|grid| - 1]] else []
  }

  function Outside(grid: seq<Key>, keys: set<Key>): seq<Key> {
    if grid == [] then []
    else Outside(grid[..|grid| - 1], keys) + if grid[|grid| - 1] in keys then [] else [grid[|grid| - 1]]
  }

  /** load_resume_state: accepts exactly the acceptable receipts, keeps their terminal cells, and plans the
      rest of the grid; what is wrong with a refused cells list is reported cell by cell. */
  method LoadResumeState(a: Args, file: File) returns (r: Result<Plan>)
    ensures r.Ok? <==> file.Parsed? && Acceptable(a, file.json)
    ensures r.Ok? ==>
              && r.value.grid == Grid(a) && r.value.reused == Terminals(CellsOf(file.json))
              && r.value.missing == Outside(Grid(a), r.value.reused.Keys)
    ensures r.Refused? && r.why.BadCells? ==>
              && file.Parsed? && HasShape(file.json)
              && forall k: nat :: k in r.why.problems <==>
                   k < |CellsOf(file.json)| && IsProblem(CellsOf(file.json), Grid(a), k)
  {
    if file.Absent? {
      return Refused(NoReceipt);
    }
    if file.Unreadable? {
      return Refused(CorruptReceipt);
    }
    var saved := file.json;
    if !HasShape(saved) {
      return Refused(BadShape);
    }
    var mismatches := ResumeMetadataMismatches(saved.Get("metadata").fields, BuildMetadata(a));
    if mismatches != {} {
      return Refused(ConfigMismatch(mismatches));
    }
    var grid := Grid(a);
    var reused, problems := ScanCells(CellsOf(saved), grid);
    SoundMeansNoProblem(CellsOf(saved), grid);
    if problems != [] {
      assert problems[0] in problems;
      return Refused(BadCells(problems));
    }
    var missing := PlanMissing(grid, reused);
    r := Ok(Plan(grid, reused, missing));
  }

  /** The loop over the saved cells. */
  method ScanCells(cells: seq<Json>, grid: seq<Key>) returns (reused: map<Key, Json>, problems: seq<nat>)
    ensures forall k: nat :: k in problems <==> k < |cells| && IsProblem(cells, grid, k)
    ensures problems == [] ==> reused == Terminals(cells)
  {
    hide CellTerminal, CellIdentity;
    reused, problems := map[], [];
    var seen: map<Key, nat> := map[];
    for i := 0 to |cells|
      invariant forall key :: key in seen ==> seen[key] < i && HasKey(cells[seen[key]], key) && key in grid
      invariant forall k :: 0 <= k < i && InGrid(cells[k], grid) ==> CellIdentity(cells[k]).value in seen
      invariant forall k: nat :: k in problems <==> k < i && IsProblem(cells, grid, k)
      invariant problems == [] ==> reused == Terminals(cells[..i])
    {
      var cell := cells[i];
      assert cells[..i + 1] == cells[..i] + [cell];
      if !cell.Obj? {
        problems := problems + [i];
        continue;
      }
      var key := CellIdentity(cell);
      if key.None? || key.value !in grid {
        problems := problems + [i];
        continue;
      }
      if key.value in seen {
        assert Repeated(cells, grid, i);
        problems := problems + [i];
        continue;
      }
      assert !Repeated(cells, grid, i);
      seen := seen[key.value := i];
      if CellTerminal(cell) {
        reused := reused[key.value := cell];
      }
    }
    assert cells[..|cells|] == cells;
  }

  method PlanMissing(grid: seq<Key>, reused: map<Key, Json>) returns (missing: seq<Key>)
    ensures missing == Outside(grid, reused.Keys)
  {
    missing := [];
    for i := 0 to |grid|
      invariant missing == Outside(grid[..i], reused.Keys)
    {
      assert grid[..i + 1][..i] == grid[..i];
      if grid[i] !in reused {
        missing := missing + [grid[i]];
      }
    }
    assert grid[..|grid|] == grid;
  }
}
