/**
 * The conversion run as the program performs it: a converter owns the output
 * file system and the three counters, processes the dates one after the
 * other, scales the merged array in place, swaps the evaporation variables in
 * place, and removes zero-byte outputs with a loop after a failure. Each
 * method is proved to do what the functions of the Orchestrator module say.
 */
module Converter {
  import opened Wrappers
  import opened Catalog
  import opened Selection
  import opened OutputPaths
  import opened Tiles
  import opened Correction
  import opened Datasets
  import opened Storage
  import opened Orchestrator
  import opened CategoryData

  /** Removing the zero-byte file f, when there is one, extends the cleanup by one path. */
  lemma CleanedStep(orig: FileSystem, paths: seq<string>, k: nat)
    requires k < |paths|
    ensures var f := paths[k];
      var before := Cleaned(orig, paths[..k]);
      Cleaned(orig, paths[..k + 1]) == if f in before && before[f].size == 0 then before - {f} else before
  {
    var f := paths[k];
    assert paths[..k + 1] == paths[..k] + [f];
  }

  /** A needed category of the day loop's order, written as WriteCategory does, is one step of WriteFrom. */
  lemma WriteStep(cfg: Config, paths: seq<string>, input: DayInput, needed: set<Category>, full: Stack,
                  i: nat, fs: FileSystem, error: Option<DayError>, next: FileSystem)
    requires PathTable(paths) && |full| == |NeededIndices(needed)| && i < |Categories| && Categories[i] in needed
    requires next == AfterWrite(fs, PathOf(paths, Categories[i]), CategoryVars(cfg, needed, Categories[i], full), input.writes(Categories[i]))
    requires error == if input.writes(Categories[i]).Failed? then Some(WriteError(PathOf(paths, Categories[i]))) else None
    ensures WriteFrom(paths, input, BuiltDatasets(cfg, needed, full), i, fs) ==
      if error.None? then WriteFrom(paths, input, BuiltDatasets(cfg, needed, full), i + 1, next) else Progress(next, error)
  {
  }

  /** A category that is not needed is passed over. */
  lemma SkipStep(cfg: Config, paths: seq<string>, input: DayInput, needed: set<Category>, full: Stack, i: nat, fs: FileSystem)
    requires PathTable(paths) && |full| == |NeededIndices(needed)| && i < |Categories| && Categories[i] !in needed
    ensures WriteFrom(paths, input, BuiltDatasets(cfg, needed, full), i, fs) ==
      WriteFrom(paths, input, BuiltDatasets(cfg, needed, full), i + 1, fs)
  {
  }

  class Converter {
    const config: Config
    var files: FileSystem
    var ok: nat
    var skip: nat
    var fail: nat

    /** The counters start at zero. */
    constructor (config: Config, files: FileSystem)
      ensures this.config == config && this.files == files
      ensures ok == 0 && skip == 0 && fail == 0
    {
      this.config := config;
      this.files := files;
      ok, skip, fail := 0, 0, 0;
    }

    function Counts(): Counters
      reads this
    {
      Counters(ok, skip, fail)
    }

    /** `save_nc`: one write, which completes or leaves what the failure left. */
    method Save(path: string, vars: Vars, w: WriteOutcome) returns (completed: bool)
      modifies this
      ensures files == AfterWrite(old(files), path, vars, w)
      ensures completed <==> !w.Failed?
      ensures Counts() == old(Counts())
    {
      match w
      case Completed(n) =>
        files := files[path := FileEntry(n, Some(vars))];
        completed := true;
      case Failed(None) =>
        completed := false;
      case Failed(Some(n)) =>
        files := files[path := FileEntry(n, None)];
        completed := false;
    }

    /** The cleanup loop: each of the paths that holds a zero-byte file is removed. */
    method Cleanup(paths: seq<string>)
      modifies this
      ensures files == Cleaned(old(files), paths)
      ensures Counts() == old(Counts())
    {
      var k := 0;
      while k < |paths|
        invariant 0 <= k <= |paths|
        invariant files == Cleaned(old(files), paths[..k])
        invariant Counts() == old(Counts())
      {
        var f := paths[k];
        CleanedStep(old(files), paths, k);
        if f in files && files[f].size == 0 {
          files := files - {f};
        }
        k := k + 1;
      }
      assert paths[..k] == paths;
    }

    /**
     * `build_dataset` for a needed category, followed for Evaporation, when
     * the swap is enabled, by the in-place swap of Es, Ew and Et.
     */
    method BuildCategory(needed: set<Category>, full: Stack, c: Category) returns (vars: Vars)
      requires c in needed && |full| == |NeededIndices(needed)|
      ensures vars == CategoryVars(config, needed, c, full)
    {
      if c == Evaporation && config.applyEvapSwap {
        SwappedVars(config, needed, full);
      } else {
        UnswappedVars(config, needed, c, full);
      }
      var ds := new Dataset(DataVars(Bands(c), full, PositionMap(NeededIndices(needed))));
      if c == Evaporation && config.applyEvapSwap {
        ds.SwapEvaporation();
      }
      return ds.vars;
    }

    /** One needed category's branch: build its dataset and save it. */
    method WriteCategory(paths: seq<string>, input: DayInput, needed: set<Category>, full: Stack, c: Category)
      returns (error: Option<DayError>)
      requires PathTable(paths)
      requires c in needed && |full| == |NeededIndices(needed)|
      modifies this
      ensures files == AfterWrite(old(files), PathOf(paths, c), CategoryVars(config, needed, c, full), input.writes(c))
      ensures error == if input.writes(c).Failed? then Some(WriteError(PathOf(paths, c))) else None
      ensures Counts() == old(Counts())
    {
      var vars := BuildCategory(needed, full, c);
      var path := PathOf(paths, c);
      var completed := Save(path, vars, input.writes(c));
      error := if completed then None else Some(WriteError(path));
    }

    /** The branch of the day loop for the i-th category: written when needed, passed over otherwise. */
    method WriteAt(paths: seq<string>, input: DayInput, needed: set<Category>, full: Stack, i: nat)
      returns (error: Option<DayError>)
      requires PathTable(paths) && |full| == |NeededIndices(needed)| && i < |Categories|
      modifies this
      ensures WriteFrom(paths, input, BuiltDatasets(config, needed, full), i, old(files)) ==
        if error.None? then WriteFrom(paths, input, BuiltDatasets(config, needed, full), i + 1, files)
        else Progress(files, error)
      ensures Counts() == old(Counts())
    {
      var c := Categories[i];
      ghost var before := files;
      if c in needed {
        error := WriteCategory(paths, input, needed, full, c);
        WriteStep(config, paths, input, needed, full, i, before, error, files);
      } else {
        error := None;
        SkipStep(config, paths, input, needed, full, i, files);
      }
    }

    /**
     * The per-category branches in the day loop's order, stopping at the
     * first failure.
     */
    method WriteNeeded(paths: seq<string>, input: DayInput, needed: set<Category>, full: Stack)
      returns (error: Option<DayError>)
      requires PathTable(paths) && |full| == |NeededIndices(needed)|
      modifies this
      ensures Progress(files, error) == WriteFrom(paths, input, BuiltDatasets(config, needed, full), 0, old(files))
      ensures Counts() == old(Counts())
    {
      ghost var built := BuiltDatasets(config, needed, full);
      error := None;
      var i := 0;
      while i < |Categories| && error.None?
        invariant 0 <= i <= |Categories|
        invariant WriteFrom(paths, input, built, 0, old(files)) ==
          if error.None? then WriteFrom(paths, input, built, i, files) else Progress(files, error)
        invariant Counts() == old(Counts())
        decreases |Categories| - i
      {
        error := WriteAt(paths, input, needed, full, i);
        i := i + 1;
      }
    }

    /**
     * The tiles read with the needed indices, merged, and the evaporation
     * bands of the merged array scaled in place.
     */
    method ReadMerged(tiles: seq<TileFile>, indices: seq<nat>) returns (r: Result<Stack, TileError>)
      requires |tiles| == 2
      ensures r == FullBands(tiles, indices)
    {
      var merged := MergeTiles(tiles, indices);
      if merged.Failure? {
        return Failure(merged.error);
      }
      var raw := merged.value;
      var full := new Grid[|raw|];
      forall k | 0 <= k < full.Length {
        full[k] := raw[k];
      }
      assert full[..] == raw;
      ScaleSlices(full, indices, EvapIndexSet(), EvapPositions(indices));
      return Success(full[..]);
    }

    /** A failed date: zero-byte outputs removed and the failure counted. */
    method FailDay(paths: seq<string>, error: DayError) returns (outcome: Outcome)
      modifies this
      ensures outcome == DayFailed(error)
      ensures files == Cleaned(old(files), paths)
      ensures Counts() == Count(old(Counts()), outcome)
    {
      Cleanup(paths);
      fail := fail + 1;
      outcome := DayFailed(error);
    }

    /**
     * One date with the given output paths: the outcome and the new file
     * system are what Day says, and exactly the counter of the outcome goes up
     * by one.
     */
    method ProcessPaths(paths: seq<string>, input: DayInput) returns (outcome: Outcome)
      requires PathTable(paths)
      modifies this
      ensures DayResult(outcome, files) == Day(config, paths, old(files), input)
      ensures Counts() == Count(old(Counts()), outcome)
    {
      var needed := Needed(paths, files);
      if needed == {} {
        skip := skip + 1;
        return Skipped;
      }
      if |input.tiles| != 2 {
        fail := fail + 1;
        return DayFailed(TileCount(|input.tiles|));
      }
      outcome := ProcessNeeded(paths, input, needed);
    }

    /** A date with missing outputs and two tiles: read, check the grid, write. */
    method ProcessNeeded(paths: seq<string>, input: DayInput, needed: set<Category>) returns (outcome: Outcome)
      requires PathTable(paths) && needed == Needed(paths, files) && needed != {} && |input.tiles| == 2
      modifies this
      ensures DayResult(outcome, files) == Day(config, paths, old(files), input)
      ensures Counts() == Count(old(Counts()), outcome)
    {
      var corrected := ReadMerged(input.tiles, NeededIndices(needed));
      if corrected.Failure? {
        outcome := FailDay(paths, ReadError(corrected.error));
        return;
      }
      var full := corrected.value;
      if !StackFits(full) {
        outcome := FailDay(paths, BuildError(GridMismatch));
        return;
      }
      outcome := WriteDay(paths, input, needed, full);
    }

    /** The writes of a date, then the success count or the cleanup after a failure. */
    method WriteDay(paths: seq<string>, input: DayInput, needed: set<Category>, full: Stack) returns (outcome: Outcome)
      requires PathTable(paths) && |full| == |NeededIndices(needed)|
      modifies this
      ensures var p := WriteFrom(paths, input, BuiltDatasets(config, needed, full), 0, old(files));
        DayResult(outcome, files) ==
        if p.error.None? then DayResult(Processed, p.fs) else DayResult(DayFailed(p.error.value), Cleaned(p.fs, paths))
      ensures Counts() == Count(old(Counts()), outcome)
    {
      var error := WriteNeeded(paths, input, needed, full);
      if error.None? {
        ok := ok + 1;
        outcome := Processed;
      } else {
        outcome := FailDay(paths, error.value);
      }
    }

    /** One date, with its five output paths. */
    method ProcessDay(date: Date, input: DayInput) returns (outcome: Outcome)
      modifies this
      ensures DayResult(outcome, files) == Day(config, OutputPathsOf(config.outputBase, date), old(files), input)
      ensures Counts() == Count(old(Counts()), outcome)
    {
      outcome := ProcessPaths(OutputPathsOf(config.outputBase, date), input);
    }

    /** The run over the dates in order, as RunDays and Tally say. */
    method Run(days: seq<(Date, DayInput)>) returns (outcomes: seq<Outcome>)
      modifies this
      ensures outcomes == RunDays(config, old(files), days).0
      ensures files == RunDays(config, old(files), days).1
      ensures Counts() == Tally(old(Counts()), outcomes)
    {
      outcomes := [];
      var k := 0;
      assert days[k..] == days;
      while k < |days|
        invariant 0 <= k <= |days|
        invariant RunDays(config, old(files), days).0 == outcomes + RunDays(config, files, days[k..]).0
        invariant RunDays(config, old(files), days).1 == RunDays(config, files, days[k..]).1
        invariant Counts() == Tally(old(Counts()), outcomes)
      {
        ghost var before := files;
        var o := ProcessDay(days[k].0, days[k].1);
        RunDaysStep(config, before, days, k);
        TallyAppend(old(Counts()), outcomes, o);
        ghost var rest := RunDays(config, files, days[k + 1..]).0;
        assert outcomes + ([o] + rest) == (outcomes + [o]) + rest;
        outcomes := outcomes + [o];
        k := k + 1;
      }
      assert days[k..] == [];
    }
  }

  /** The run from the k-th date on starts with the k-th date's Day. */
  lemma RunDaysStep(cfg: Config, fs: FileSystem, days: seq<(Date, DayInput)>, k: nat)
    requires k < |days|
    ensures var d := Day(cfg, OutputPathsOf(cfg.outputBase, days[k].0), fs, days[k].1);
      RunDays(cfg, fs, days[k..]).0 == [d.outcome] + RunDays(cfg, d.fs, days[k + 1..]).0 &&
      RunDays(cfg, fs, days[k..]).1 == RunDays(cfg, d.fs, days[k + 1..]).1
  {
    assert days[k..][0] == days[k];
    assert days[k..][1..] == days[k + 1..];
  }

  /** Counting one more outcome at the end of a tally. */
  lemma {:induction false} TallyAppend(n: Counters, outcomes: seq<Outcome>, o: Outcome)
    ensures Tally(n, outcomes + [o]) == Count(Tally(n, outcomes), o)
    decreases |outcomes|
  {
    if outcomes != [] {
      assert (outcomes + [o])[1..] == outcomes[1..] + [o];
      TallyAppend(Count(n, outcomes[0]), outcomes[1..], o);
    }
  }
}
