/**
 * The day loop: for each date, decide which categories still lack their
 * output, read only their bands from the two tiles, merge and correct them
 * once, write each missing category in turn, clean up zero-byte files after a
 * failure, and count the day as skipped, done or failed.
 */
module Orchestrator {
  import opened Wrappers
  import opened Catalog
  import opened Selection
  import opened OutputPaths
  import opened Tiles
  import opened Correction
  import opened Datasets
  import opened Storage

  /** The values the interactive front end supplies. */
  datatype Config = Config(outputBase: string, applyEvapSwap: bool)

  /**
   * What the environment provides for one date: the matching tiles in
   * sorted path order, and what each category's write will do.
   */
  datatype DayInput = DayInput(tiles: seq<TileFile>, writes: Category -> WriteOutcome)

  datatype DayError =
    | TileCount(found: nat)
    | ReadError(tileError: TileError)
    | BuildError(buildError: Datasets.BuildError)
    | WriteError(path: string)

  datatype Outcome = Skipped | Processed | DayFailed(error: DayError)

  datatype DayResult = DayResult(outcome: Outcome, fs: FileSystem)

  datatype Progress = Progress(fs: FileSystem, error: Option<DayError>)

  datatype Counters = Counters(ok: nat, skip: nat, fail: nat)

  /** The five output paths of a date, one per category, in the day loop's order. */
  predicate PathTable(paths: seq<string>)
  {
    |paths| == |Categories|
  }

  /** The output path of category c among a date's five. */
  function PathOf(paths: seq<string>, c: Category): string
    requires PathTable(paths)
  {
    paths[Position(c)]
  }

  /** No two categories share an output path. */
  predicate DistinctPaths(paths: seq<string>)
    requires PathTable(paths)
  {
    forall c1, c2 :: c1 != c2 ==> PathOf(paths, c1) != PathOf(paths, c2)
  }

  /** The date's output paths are a path table with one distinct path per category. */
  lemma DatePaths(base: string, date: Date)
    ensures PathTable(OutputPathsOf(base, date))
    ensures forall c :: PathOf(OutputPathsOf(base, date), c) == OutputPath(base, c, date)
    ensures DistinctPaths(OutputPathsOf(base, date))
  {
    var paths := OutputPathsOf(base, date);
    forall c1, c2 | c1 != c2 ensures PathOf(paths, c1) != PathOf(paths, c2) {
      OutputPathsDistinct(base, date, c1, c2);
    }
  }

  /** The need flags: the categories whose output file does not exist. */
  function Needed(paths: seq<string>, fs: FileSystem): (r: set<Category>)
    requires PathTable(paths)
    ensures forall c :: c in r <==> PathOf(paths, c) !in fs
  {
    assert forall c :: c in Categories by {
      forall c ensures c in Categories { CategoryListed(c); }
    }
    set c | c in Categories && PathOf(paths, c) !in fs
  }

  /** Both tiles read with the same index list, then joined west to east. */
  function MergeTiles(tiles: seq<TileFile>, indices: seq<nat>): (r: Result<Stack, TileError>)
    requires |tiles| == 2
    ensures r.Success? <==>
      ReadBands(tiles[0], indices).Success? && ReadBands(tiles[1], indices).Success? &&
      Concat(ReadBands(tiles[0], indices).value, ReadBands(tiles[1], indices).value).Success?
    ensures r.Success? ==>
      r == Concat(ReadBands(tiles[0], indices).value, ReadBands(tiles[1], indices).value)
    ensures r.Success? ==> |r.value| == |indices|
  {
    match ReadBands(tiles[0], indices)
    case Failure(e) => Failure(e)
    case Success(s1) =>
      match ReadBands(tiles[1], indices)
      case Failure(e) => Failure(e)
      case Success(s2) => Concat(s1, s2)
  }

  /** The merged array with the evaporation correction applied, when the tiles can be read and merged. */
  function FullBands(tiles: seq<TileFile>, indices: seq<nat>): (r: Result<Stack, TileError>)
    requires |tiles| == 2
    ensures r.Success? <==> MergeTiles(tiles, indices).Success?
    ensures r.Success? ==> r.value == Corrected(MergeTiles(tiles, indices).value, indices)
  {
    match MergeTiles(tiles, indices)
    case Failure(e) => Failure(e)
    case Success(raw) => Success(Corrected(raw, indices))
  }

  /** Each band of a needed category has its slice in the merged array. */
  lemma NeededCovered(needed: set<Category>, c: Category, full: Stack)
    requires c in needed && |full| == |NeededIndices(needed)|
    ensures Covers(Bands(c), full, PositionMap(NeededIndices(needed)))
  {
    forall b | b in Bands(c)
      ensures b.index in PositionMap(NeededIndices(needed))
      ensures PositionMap(NeededIndices(needed))[b.index] < |full|
    {
      NeededBandsHavePositions(needed, c, b);
    }
  }

  /**
   * The dataset written for category c: built from the corrected merged
   * array, then, for Evaporation with the swap enabled, swapped.
   */
  function CategoryVars(cfg: Config, needed: set<Category>, c: Category, full: Stack): Vars
    requires c in needed && |full| == |NeededIndices(needed)|
  {
    var pos := PositionMap(NeededIndices(needed));
    NeededCovered(needed, c, full);
    var vars := DataVars(Bands(c), full, pos);
    if c == Evaporation && cfg.applyEvapSwap then
      EvapDatasetHasSwapVariables(full, pos);
      EvapSwapped(vars)
    else vars
  }

  /**
   * The dataset of every needed category. Building is pure, so building them
   * all before the writes gives each write the dataset the per-category branch
   * would build just before it.
   */
  function BuiltDatasets(cfg: Config, needed: set<Category>, full: Stack): (m: map<Category, Vars>)
    requires |full| == |NeededIndices(needed)|
    ensures m.Keys == needed
  {
    map c | c in needed :: CategoryVars(cfg, needed, c, full)
  }

  /**
   * The per-category branches from the i-th category of the day loop's order
   * on: a category that is not needed is left alone; a needed one is written;
   * the first failed write stops the day.
   */
  function WriteFrom(paths: seq<string>, input: DayInput, built: map<Category, Vars>, i: nat, fs: FileSystem): (r: Progress)
    requires PathTable(paths)
    ensures r.error.Some? ==> r.error.value.WriteError?
    decreases |Categories| - i
  {
    if i >= |Categories| then Progress(fs, None)
    else
      var c := Categories[i];
      if c !in built then WriteFrom(paths, input, built, i + 1, fs)
      else
        var path := PathOf(paths, c);
        var w := input.writes(c);
        var next := AfterWrite(fs, path, built[c], w);
        if w.Failed? then Progress(next, Some(WriteError(path)))
        else WriteFrom(paths, input, built, i + 1, next)
  }

  /** One iteration of the day loop over the date's output paths: its outcome and the resulting file system. */
  function Day(cfg: Config, paths: seq<string>, fs: FileSystem, input: DayInput): DayResult
    requires PathTable(paths)
  {
    var needed := Needed(paths, fs);
    if needed == {} then DayResult(Skipped, fs)
    else if |input.tiles| != 2 then DayResult(DayFailed(TileCount(|input.tiles|)), fs)
    else
      var indices := NeededIndices(needed);
      match FullBands(input.tiles, indices)
      case Failure(e) => DayResult(DayFailed(ReadError(e)), Cleaned(fs, paths))
      case Success(full) =>
        if !StackFits(full) then DayResult(DayFailed(BuildError(GridMismatch)), Cleaned(fs, paths))
        else
        var p := WriteFrom(paths, input, BuiltDatasets(cfg, needed, full), 0, fs);
        match p.error
        case None => DayResult(Processed, p.fs)
        case Some(e) => DayResult(DayFailed(e), Cleaned(p.fs, paths))
  }

  /** The counters after one date with the given outcome. */
  function Count(n: Counters, o: Outcome): (r: Counters)
    ensures r.ok + r.skip + r.fail == n.ok + n.skip + n.fail + 1
    ensures r.ok >= n.ok && r.skip >= n.skip && r.fail >= n.fail
    ensures r.ok > n.ok <==> o.Processed?
    ensures r.skip > n.skip <==> o.Skipped?
    ensures r.fail > n.fail <==> o.DayFailed?
  {
    match o
    case Skipped => n.(skip := n.skip + 1)
    case Processed => n.(ok := n.ok + 1)
    case DayFailed(_) => n.(fail := n.fail + 1)
  }

  /** The whole run over the dates in order: the outcomes and the final file system. */
  function RunDays(cfg: Config, fs: FileSystem, days: seq<(Date, DayInput)>): (r: (seq<Outcome>, FileSystem))
    ensures |r.0| == |days|
    decreases |days|
  {
    if days == [] then ([], fs)
    else
      var (date, input) := days[0];
      var paths := OutputPathsOf(cfg.outputBase, date);
      var d := Day(cfg, paths, fs, input);
      var rest := RunDays(cfg, d.fs, days[1..]);
      ([d.outcome] + rest.0, rest.1)
  }

  /** The counters after a sequence of outcomes. */
  function Tally(n: Counters, outcomes: seq<Outcome>): Counters
    decreases |outcomes|
  {
    if outcomes == [] then n else Tally(Count(n, outcomes[0]), outcomes[1..])
  }

  /** A write from category i on leaves alone every path that no later needed category owns. */
  lemma {:induction false} WriteFromFrame(paths: seq<string>, input: DayInput, built: map<Category, Vars>, i: nat, fs: FileSystem, q: string)
    requires PathTable(paths)
    requires forall c :: c in built && Position(c) >= i ==> q != PathOf(paths, c)
    ensures var p := WriteFrom(paths, input, built, i, fs);
      (q in p.fs <==> q in fs) && (q in fs ==> p.fs[q] == fs[q])
    decreases |Categories| - i
  {
    if i < |Categories| {
      var c := Categories[i];
      assert Position(c) == i;
      if c !in built {
        WriteFromFrame(paths, input, built, i + 1, fs, q);
      } else if !input.writes(c).Failed? {
        var next := AfterWrite(fs, PathOf(paths, c), built[c], input.writes(c));
        WriteFromFrame(paths, input, built, i + 1, next, q);
      }
    }
  }

  /**
   * When the writes from category i on all succeed, each needed category at
   * or after i has its completed file, holding its dataset.
   */
  lemma {:induction false} WriteFromWrites(paths: seq<string>, input: DayInput, built: map<Category, Vars>, i: nat, fs: FileSystem, c: Category)
    requires PathTable(paths) && DistinctPaths(paths)
    requires c in built && i <= Position(c)
    requires WriteFrom(paths, input, built, i, fs).error.None?
    ensures input.writes(c).Completed?
    ensures var p := WriteFrom(paths, input, built, i, fs);
      PathOf(paths, c) in p.fs && p.fs[PathOf(paths, c)] == FileEntry(input.writes(c).size, Some(built[c]))
    decreases |Categories| - i
  {
    var ci := Categories[i];
    if ci !in built {
      WriteFromWrites(paths, input, built, i + 1, fs, c);
    } else {
      var next := AfterWrite(fs, PathOf(paths, ci), built[ci], input.writes(ci));
      if i == Position(c) {
        WriteFromFrame(paths, input, built, i + 1, next, PathOf(paths, c));
      } else {
        WriteFromWrites(paths, input, built, i + 1, next, c);
      }
    }
  }

  /** A date is skipped exactly when all five outputs exist, and a skip changes nothing. */
  lemma SkipIffAllOutputsExist(cfg: Config, paths: seq<string>, fs: FileSystem, input: DayInput)
    requires PathTable(paths)
    ensures Day(cfg, paths, fs, input).outcome.Skipped? <==> forall c :: PathOf(paths, c) in fs
    ensures Day(cfg, paths, fs, input).outcome.Skipped? ==> Day(cfg, paths, fs, input).fs == fs
  {
    if forall c :: PathOf(paths, c) in fs {
      assert Needed(paths, fs) == {};
    } else {
      var c :| PathOf(paths, c) !in fs;
      assert c in Needed(paths, fs);
    }
  }

  /**
   * A wrong tile count fails the date exactly when some output is missing,
   * and it changes nothing, not even the cleanup.
   */
  lemma TileCountFailureChangesNothing(cfg: Config, paths: seq<string>, fs: FileSystem, input: DayInput)
    requires PathTable(paths)
    ensures var r := Day(cfg, paths, fs, input);
      r.outcome.DayFailed? && r.outcome.error.TileCount? <==>
      (exists c :: PathOf(paths, c) !in fs) && |input.tiles| != 2
    ensures var r := Day(cfg, paths, fs, input);
      r.outcome.DayFailed? && r.outcome.error.TileCount? ==>
      r.fs == fs && r.outcome.error.found == |input.tiles|
  {
    SkipIffAllOutputsExist(cfg, paths, fs, input);
  }

  /**
   * A file that exists before the date is never rewritten; it disappears only
   * when it is a zero-byte file at one of the five paths and the date fails
   * after the tile-count check.
   */
  lemma DayKeepsExisting(cfg: Config, paths: seq<string>, fs: FileSystem, input: DayInput, q: string)
    requires PathTable(paths) && q in fs
    ensures var r := Day(cfg, paths, fs, input);
      q in r.fs ==> r.fs[q] == fs[q]
    ensures var r := Day(cfg, paths, fs, input);
      q !in r.fs <==>
      r.outcome.DayFailed? && !r.outcome.error.TileCount? && q in paths && fs[q].size == 0
  {
    var needed := Needed(paths, fs);
    if needed != {} && |input.tiles| == 2 {
      var indices := NeededIndices(needed);
      if FullBands(input.tiles, indices).Success? && StackFits(FullBands(input.tiles, indices).value) {
        var full := FullBands(input.tiles, indices).value;
        WriteFromFrame(paths, input, BuiltDatasets(cfg, needed, full), 0, fs, q);
      }
    }
  }

  /** Paths other than the five outputs of the date are never touched. */
  lemma DayTouchesOnlyOutputPaths(cfg: Config, paths: seq<string>, fs: FileSystem, input: DayInput, q: string)
    requires PathTable(paths) && q !in paths
    ensures var r := Day(cfg, paths, fs, input);
      (q in r.fs <==> q in fs) && (q in fs ==> r.fs[q] == fs[q])
  {
    var needed := Needed(paths, fs);
    if needed != {} && |input.tiles| == 2 {
      var indices := NeededIndices(needed);
      if FullBands(input.tiles, indices).Success? && StackFits(FullBands(input.tiles, indices).value) {
        var full := FullBands(input.tiles, indices).value;
        forall c | c in needed ensures q != PathOf(paths, c) {
          assert PathOf(paths, c) in paths;
        }
        WriteFromFrame(paths, input, BuiltDatasets(cfg, needed, full), 0, fs, q);
      }
    }
  }

  /**
   * A processed date has written every needed category: its file is non-empty
   * and holds the category's dataset, built from the corrected merged bands.
   */
  lemma ProcessedWritesEveryNeeded(cfg: Config, paths: seq<string>, fs: FileSystem, input: DayInput, c: Category)
    requires PathTable(paths) && DistinctPaths(paths)
    requires Day(cfg, paths, fs, input).outcome.Processed?
    requires PathOf(paths, c) !in fs
    ensures |input.tiles| == 2
    ensures var needed := Needed(paths, fs);
      var m := FullBands(input.tiles, NeededIndices(needed));
      m.Success? && StackFits(m.value) && c in needed &&
      var r := Day(cfg, paths, fs, input);
      PathOf(paths, c) in r.fs && r.fs[PathOf(paths, c)].size > 0 &&
      r.fs[PathOf(paths, c)].content == Some(CategoryVars(cfg, needed, c, m.value))
  {
    var needed := Needed(paths, fs);
    var full := FullBands(input.tiles, NeededIndices(needed)).value;
    WriteFromWrites(paths, input, BuiltDatasets(cfg, needed, full), 0, fs, c);
  }

  /** After a processed date every output exists, so the same date is skipped next time. */
  lemma ProcessedThenSkipped(cfg: Config, paths: seq<string>, fs: FileSystem, input: DayInput, again: DayInput)
    requires PathTable(paths) && DistinctPaths(paths)
    requires Day(cfg, paths, fs, input).outcome.Processed?
    ensures forall c :: PathOf(paths, c) in Day(cfg, paths, fs, input).fs
    ensures Day(cfg, paths, Day(cfg, paths, fs, input).fs, again).outcome.Skipped?
  {
    var r := Day(cfg, paths, fs, input);
    forall c ensures PathOf(paths, c) in r.fs {
      if PathOf(paths, c) in fs {
        DayKeepsExisting(cfg, paths, fs, input, PathOf(paths, c));
      } else {
        ProcessedWritesEveryNeeded(cfg, paths, fs, input, c);
      }
    }
    SkipIffAllOutputsExist(cfg, paths, r.fs, again);
  }

  /** After a failed date, none of the five paths holds a zero-byte file. */
  lemma FailureLeavesNoStub(cfg: Config, paths: seq<string>, fs: FileSystem, input: DayInput, q: string)
    requires PathTable(paths)
    requires Day(cfg, paths, fs, input).outcome.DayFailed?
    requires !Day(cfg, paths, fs, input).outcome.error.TileCount?
    requires q in paths && q in Day(cfg, paths, fs, input).fs
    ensures Day(cfg, paths, fs, input).fs[q].size > 0
  {
  }

  /** Each date adds exactly one to exactly one counter. */
  lemma {:induction false} TallyTotal(n: Counters, outcomes: seq<Outcome>)
    ensures var t := Tally(n, outcomes);
      t.ok + t.skip + t.fail == n.ok + n.skip + n.fail + |outcomes|
    ensures var t := Tally(n, outcomes);
      t.ok >= n.ok && t.skip >= n.skip && t.fail >= n.fail
    decreases |outcomes|
  {
    if outcomes != [] {
      TallyTotal(Count(n, outcomes[0]), outcomes[1..]);
    }
  }

  /** The counters after a whole run account for every date exactly once. */
  lemma RunCountsEveryDate(cfg: Config, fs: FileSystem, days: seq<(Date, DayInput)>)
    ensures var t := Tally(Counters(0, 0, 0), RunDays(cfg, fs, days).0);
      t.ok + t.skip + t.fail == |days|
  {
    TallyTotal(Counters(0, 0, 0), RunDays(cfg, fs, days).0);
  }

  /** Every output path of every date of the run exists. */
  predicate OutputsExist(base: string, days: seq<(Date, DayInput)>, fs: FileSystem)
  {
    forall j, c :: 0 <= j < |days| ==> PathOf(OutputPathsOf(base, days[j].0), c) in fs
  }

  /** No date of the run failed: each was either processed or skipped. */
  predicate NoneFailed(outcomes: seq<Outcome>)
  {
    forall k :: 0 <= k < |outcomes| ==> !outcomes[k].DayFailed?
  }

  /** A date that does not fail removes no file. */
  lemma UnfailedDayKeepsFiles(cfg: Config, paths: seq<string>, fs: FileSystem, input: DayInput)
    requires PathTable(paths)
    requires !Day(cfg, paths, fs, input).outcome.DayFailed?
    ensures forall q :: q in fs ==> q in Day(cfg, paths, fs, input).fs
  {
    forall q | q in fs ensures q in Day(cfg, paths, fs, input).fs {
      DayKeepsExisting(cfg, paths, fs, input, q);
    }
  }

  /**
   * A run in which no date fails keeps every file it found and leaves every
   * output of every one of its dates in place.
   */
  lemma {:induction false} UnfailedRunLeavesOutputs(cfg: Config, fs: FileSystem, days: seq<(Date, DayInput)>)
    requires NoneFailed(RunDays(cfg, fs, days).0)
    ensures forall q :: q in fs ==> q in RunDays(cfg, fs, days).1
    ensures OutputsExist(cfg.outputBase, days, RunDays(cfg, fs, days).1)
    decreases |days|
  {
    if days != [] {
      var (date, input) := days[0];
      var paths := OutputPathsOf(cfg.outputBase, date);
      DatePaths(cfg.outputBase, date);
      var d := Day(cfg, paths, fs, input);
      var run := RunDays(cfg, fs, days);
      var rest := RunDays(cfg, d.fs, days[1..]);
      assert run.0[0] == d.outcome && run.0[1..] == rest.0 && run.1 == rest.1;
      assert NoneFailed(rest.0) by {
        forall k | 0 <= k < |rest.0| ensures !rest.0[k].DayFailed? { assert rest.0[k] == run.0[k + 1]; }
      }
      UnfailedRunLeavesOutputs(cfg, d.fs, days[1..]);
      assert !d.outcome.DayFailed? by { assert run.0[0] == d.outcome; }
      if d.outcome.Processed? {
        ProcessedThenSkipped(cfg, paths, fs, input, input);
      } else {
        SkipIffAllOutputsExist(cfg, paths, fs, input);
      }
      UnfailedDayKeepsFiles(cfg, paths, fs, input);
      forall j, c | 0 <= j < |days| ensures PathOf(OutputPathsOf(cfg.outputBase, days[j].0), c) in run.1 {
        if j > 0 {
          assert days[j] == days[1..][j - 1];
        }
      }
    }
  }

  /** When every output of every date exists, the run skips every date and changes nothing. */
  lemma {:induction false} RunSkipsWhenOutputsExist(cfg: Config, fs: FileSystem, days: seq<(Date, DayInput)>)
    requires OutputsExist(cfg.outputBase, days, fs)
    ensures forall k :: 0 <= k < |days| ==> RunDays(cfg, fs, days).0[k].Skipped?
    ensures RunDays(cfg, fs, days).1 == fs
    decreases |days|
  {
    if days != [] {
      var (date, input) := days[0];
      var paths := OutputPathsOf(cfg.outputBase, date);
      assert forall c :: PathOf(paths, c) in fs by {
        forall c ensures PathOf(paths, c) in fs { assert PathOf(OutputPathsOf(cfg.outputBase, days[0].0), c) in fs; }
      }
      SkipIffAllOutputsExist(cfg, paths, fs, input);
      assert OutputsExist(cfg.outputBase, days[1..], fs) by {
        forall j, c | 0 <= j < |days[1..]| ensures PathOf(OutputPathsOf(cfg.outputBase, days[1..][j].0), c) in fs {
          assert days[1..][j] == days[j + 1];
        }
      }
      RunSkipsWhenOutputsExist(cfg, fs, days[1..]);
    }
  }

  /**
   * Rerunning a run in which no date failed over the same dates, whatever the
   * tiles and writes would now do, skips every date and changes nothing.
   */
  lemma RerunSkipsUnfailed(cfg: Config, fs: FileSystem, days: seq<(Date, DayInput)>, again: seq<(Date, DayInput)>)
    requires NoneFailed(RunDays(cfg, fs, days).0)
    requires forall j :: 0 <= j < |again| ==> exists k :: 0 <= k < |days| && again[j].0 == days[k].0
    ensures var done := RunDays(cfg, fs, days).1;
      (forall k :: 0 <= k < |again| ==> RunDays(cfg, done, again).0[k].Skipped?) &&
      RunDays(cfg, done, again).1 == done
  {
    var done := RunDays(cfg, fs, days).1;
    UnfailedRunLeavesOutputs(cfg, fs, days);
    forall j, c | 0 <= j < |again| ensures PathOf(OutputPathsOf(cfg.outputBase, again[j].0), c) in done {
      var k :| 0 <= k < |days| && again[j].0 == days[k].0;
    }
    RunSkipsWhenOutputsExist(cfg, done, again);
  }
}
