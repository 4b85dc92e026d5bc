# ERA5-Land multi-category daily conversion, modelled in Dafny

`process_era5l_data_multi` turns each day's two hemispheric ERA5-Land
GeoTIFF tiles into up to five NetCDF files, one per variable category:
evaporation, vegetation, radiation, soil moisture, and runoff plus
precipitation. For every date it does the following:

- It computes the five output paths: `<category root>/<year>/<mm>/<prefix>_<yyyymmdd>.nc`.
- It marks a category as needed when its file does not exist. When no category is needed, the date counts as skipped.
- It requires exactly two tiles. Any other count is a failure. Nothing is written or cleaned up.
- It reads only the sorted, de-duplicated union of the needed categories' band indices from both tiles. The two halves are joined west to east.
- It multiplies every evaporation band by -1000.
- It builds each needed category's dataset from its table. With the swap enabled, the Es, Ew and Et evaporation variables exchange data in a three-cycle.
- It writes the datasets in a fixed order.
- On any failure after the tile check, it deletes every zero-byte file among the five paths.
- It counts the date as done, skipped or failed.

The model has two layers:
- Functions state what a date and a whole run do. They operate on values: a file system given as a map from path to size and content, tiles given as band stacks, and write outcomes supplied by the environment.
- The `Converter` class performs the same run imperatively, and is proved to match those functions. It owns the file system and the three counters. It scales the merged array in place, swaps the evaporation variables on a dataset object, and runs the cleanup loop.

Modules:
- `Catalog`: the five band tables, with their attribute columns.
- `Selection`: the needed indices.
- `OutputPaths`: path construction.
- `Tiles`: reading and concatenation.
- `Correction`: evaporation scaling and the index-to-position map.
- `Datasets`: `build_dataset` and the swap.
- `Storage`: writes and cleanup.
- `Orchestrator`: one day and the run.
- `CategoryData`: what each category's dataset holds.
- `Converter`: the imperative run.

Behaviour of the code worth noting, which the model follows:

- A category counts as done when `os.path.isfile` is true, so a zero-byte remnant also counts as done (lines 195-199).
- The cleanup removes every zero-byte file among the five paths, including one left by an earlier run. The comment at line 364 says only this round's files are cleaned.
- `APPLY_EVAP_SWAP` is `True` at line 32, but the docstring at line 12 says it defaults to `False`. The model makes it a field of `Config`.

## Model

| member | source | states |
|---|---|---|
| Catalog.TableWellFormed | deal_ERA5L_MultiCategory.py:83-161 | within each of the five tables, no band index and no variable name occurs twice |
| Catalog.IndicesPositive | deal_ERA5L_MultiCategory.py:83-161 | every catalogued band index is at least 1, a valid 1-based raster band number |
| Catalog.CategoriesDisjoint | deal_ERA5L_MultiCategory.py:83-161 | two different categories never share a band index |
| Catalog.TablesPairwiseDisjoint | deal_ERA5L_MultiCategory.py:83-161 | no row of one table has the band index of a row of another table |
| Catalog.DisjointTablesHaveDisjointSets | deal_ERA5L_MultiCategory.py:213-214 | tables with row-disjoint indices have disjoint index sets |
| Catalog.IndicesInRanges | deal_ERA5L_MultiCategory.py:83-161 | each table's indices lie in that category's own index ranges |
| Catalog.RangesDisjoint | deal_ERA5L_MultiCategory.py:83-161 | an index lies in the ranges of at most one category |
| Catalog.AttributesCatalogued | deal_ERA5L_MultiCategory.py:83-161 | every row of every table has its long name and unit |
| Catalog.LookupAttributes | deal_ERA5L_MultiCategory.py:280 | finding a band index in a table gives the attributes of a row with that index, and nothing exactly when no row has it |
| Catalog.LookupFindsRow | deal_ERA5L_MultiCategory.py:280 | in a table with distinct indices, looking up a row's index gives that row's attributes |
| Catalog.AttributesOf | deal_ERA5L_MultiCategory.py:83-161 | a source band has catalogued attributes in a category exactly when it is one of that category's indices |
| Catalog.AttributesOfRow | deal_ERA5L_MultiCategory.py:276-281 | the attributes of each row's band are that row's `LongName` and `Units` |
| Catalog.SwapVariablesCatalogued | deal_ERA5L_MultiCategory.py:84-87 | the evaporation table declares Es, Ew and Et, the three variables the swap reads |
| Catalog.CategoryListed | deal_ERA5L_MultiCategory.py:195-199 | every category is among the five the day loop tests |
| Catalog.Position | deal_ERA5L_MultiCategory.py:301-348 | each category has its own place in the write order |
| Catalog.Indices | deal_ERA5L_MultiCategory.py:213 | the index column of a table, row for row |
| Catalog.VarNames | deal_ERA5L_MultiCategory.py:276-278 | the variable-name column of a table, row for row |
| Selection.Insert | deal_ERA5L_MultiCategory.py:213 | inserting into an ascending duplicate-free sequence keeps it so, and adds exactly the new element |
| Selection.SortedSet | deal_ERA5L_MultiCategory.py:213 | `sorted(set(xs))` is strictly ascending and has exactly the elements of xs |
| Selection.IncreasingSequenceUnique | deal_ERA5L_MultiCategory.py:213 | a strictly ascending sequence is determined by its elements, so `sorted(set(...))` has one possible result |
| Selection.BandsFrom | deal_ERA5L_MultiCategory.py:207-212 | the concatenated rows are exactly those of the needed categories' tables |
| Selection.NeededIndices | deal_ERA5L_MultiCategory.py:207-213 | `needed_indices` is strictly ascending and is exactly the union of the needed categories' index sets |
| OutputPaths.Decimal | deal_ERA5L_MultiCategory.py:188 | `str(y)` is a non-empty string of decimal digits with no leading zero |
| OutputPaths.DecimalRoundTrip | deal_ERA5L_MultiCategory.py:188 | reading back the digits of `str(n)` gives n |
| OutputPaths.TwoDigits | deal_ERA5L_MultiCategory.py:188 | `f'{m:02d}'` has two digits for a month and denotes m |
| OutputPaths.Join | deal_ERA5L_MultiCategory.py:61-65 | `os.path.join(a, b)` starts with a and ends with b, with exactly one separator inserted between them when a is non-empty and does not already end with one |
| OutputPaths.JoinAll | deal_ERA5L_MultiCategory.py:188-192 | joining several components keeps the first argument as a prefix |
| OutputPaths.JoinAllStartsWithFirst | deal_ERA5L_MultiCategory.py:188-192 | the joined path starts with the join of its first component |
| OutputPaths.RootParts | deal_ERA5L_MultiCategory.py:61-65 | each category root starts with that category's own top directory under the base |
| OutputPaths.CategoryRoot | deal_ERA5L_MultiCategory.py:61-65 | `OUT_EVAP` … `OUT_ROPR` start with the base output directory |
| OutputPaths.OutputPath | deal_ERA5L_MultiCategory.py:188-192 | a category's output file lies under that category's root |
| OutputPaths.JoinAllAppend | deal_ERA5L_MultiCategory.py:188-192 | joining two lists of components in turn is joining their concatenation |
| OutputPaths.OutputPathComponents | deal_ERA5L_MultiCategory.py:188-192 | the output path is the base joined with the root components, then year, month and file name |
| OutputPaths.OutputPathsOf | deal_ERA5L_MultiCategory.py:188-192 | a date has five output paths, the k-th being category k's |
| OutputPaths.OutputPathShape | deal_ERA5L_MultiCategory.py:188-192 | every output path of a category starts with the base, then that category's top directory |
| OutputPaths.OutputPathsDistinct | deal_ERA5L_MultiCategory.py:188-192 | two different categories never get the same output file for a date |
| Tiles.ReadBands | deal_ERA5L_MultiCategory.py:229-242 | a read succeeds exactly when the file opens and every index is a band of it; the k-th slice is band `indices[k]`, and the shape is kept |
| Tiles.ConcatRows | deal_ERA5L_MultiCategory.py:255 | each joined row is the first tile's row followed by the second's |
| Tiles.Concat | deal_ERA5L_MultiCategory.py:255 | concatenation along the width succeeds exactly when band counts and heights agree, and joins slice k of both row by row |
| Tiles.ConcatShape | deal_ERA5L_MultiCategory.py:255 | two h×w1 and h×w2 stacks join into an h×(w1+w2) stack |
| Tiles.ConcatHalves | deal_ERA5L_MultiCategory.py:255 | each joined row splits back into the two tiles' rows at column w1 |
| Correction.Scaled | deal_ERA5L_MultiCategory.py:260 | each cell of a scaled band is -1000 times the original |
| Correction.PositionsFrom | deal_ERA5L_MultiCategory.py:258 | the positions, from `from` on, whose index is in the selected set, in ascending order |
| Correction.EvapPositions | deal_ERA5L_MultiCategory.py:258 | `evap_positions` are exactly the positions of evaporation indices, ascending |
| Correction.ScaleSlices | deal_ERA5L_MultiCategory.py:258-260 | scaling in place leaves the array equal to scaling the selected slices and keeping the rest |
| Correction.PositionMap | deal_ERA5L_MultiCategory.py:263 | `idx_to_position` has exactly the needed indices as keys, each mapped to its own position |
| Correction.ScaledWhere | deal_ERA5L_MultiCategory.py:260 | scaling the selected slices keeps the array's length, leaves every other slice as it was, and multiplies each cell of a selected slice by -1000 |
| Correction.Corrected | deal_ERA5L_MultiCategory.py:258-260 | the correction keeps the array's length and leaves every non-evaporation slice as it was; OnlyEvaporationScaled and NoEvaporationNoScaling state the rest |
| Correction.BandData | deal_ERA5L_MultiCategory.py:266-267 | `get_band_data` reads the slice at the band's position; NeededBandsHavePositions shows that position holds the band |
| Correction.NeededBandsHavePositions | deal_ERA5L_MultiCategory.py:263-267 | every band of a needed category has a position, and that position holds its index |
| Correction.OnlyEvaporationScaled | deal_ERA5L_MultiCategory.py:258-260 | a band's slice is scaled if and only if its category is Evaporation |
| Correction.NoEvaporationNoScaling | deal_ERA5L_MultiCategory.py:259-260 | with Evaporation not needed, no position is selected and the array is unchanged |
| Datasets.DataVars | deal_ERA5L_MultiCategory.py:274-287 | `build_dataset`'s variables; DataVarsKeys and DataVarsBindsEachRow state which names it has and what each holds |
| Datasets.DataVarsKeys | deal_ERA5L_MultiCategory.py:274-281 | the dataset has exactly the variable names the table declares |
| Datasets.DataVarsBindsEachRow | deal_ERA5L_MultiCategory.py:276-281 | with unique names, each row's variable holds that row's slice of the merged array and refers to that row's band |
| Datasets.EvapSwapped | deal_ERA5L_MultiCategory.py:303-310 | the swap moves data Ew→Es, Et→Ew and Es→Et, keeps names and attributes, and leaves every other variable alone |
| Datasets.SwapThriceIsIdentity | deal_ERA5L_MultiCategory.py:303-310 | applying the swap three times restores the dataset |
| Datasets.SwapCycleLengthThree | deal_ERA5L_MultiCategory.py:303-310 | when the three data differ, one or two swaps do not restore the dataset |
| Datasets.EvapDatasetHasSwapVariables | deal_ERA5L_MultiCategory.py:302-307 | the built evaporation dataset has Es, Ew and Et |
| Datasets.EvapDatasetRows | deal_ERA5L_MultiCategory.py:84-87 | in the built evaporation dataset, Es, Ew and Et hold the slices of bands 35, 36 and 38 |
| Datasets.Dataset.SwapEvaporation | deal_ERA5L_MultiCategory.py:304-310 | the in-place swap from copies leaves the dataset equal to EvapSwapped of the old one |
| Storage.AfterWrite | deal_ERA5L_MultiCategory.py:296-299 | a write changes only its own path: complete, or nothing, or a leftover of the given size |
| Storage.Cleaned | deal_ERA5L_MultiCategory.py:364-370 | the cleanup removes exactly the zero-byte files among the five paths and changes nothing else |
| Storage.CleanupKeepsNonEmpty | deal_ERA5L_MultiCategory.py:367 | a non-empty file survives the cleanup unchanged |
| Storage.CleanupLeavesNoStub | deal_ERA5L_MultiCategory.py:365-368 | after the cleanup no zero-byte file is left among the five paths |
| Orchestrator.DatePaths | deal_ERA5L_MultiCategory.py:188-192 | the date's paths form a table with one distinct path per category |
| Orchestrator.Needed | deal_ERA5L_MultiCategory.py:195-199 | a category is needed exactly when its output path does not exist |
| Orchestrator.MergeTiles | deal_ERA5L_MultiCategory.py:247-255 | the merge succeeds exactly when both reads with the same index list and the concatenation succeed, and it is their concatenation |
| Orchestrator.FullBands | deal_ERA5L_MultiCategory.py:247-260 | the corrected merged array is the merge with the evaporation correction applied |
| Orchestrator.NeededCovered | deal_ERA5L_MultiCategory.py:263-267 | every band of a needed category finds its slice in the merged array |
| Orchestrator.CategoryVars | deal_ERA5L_MultiCategory.py:301-311 | the dataset written for a category; UnswappedVars, SwappedVars and EvaporationContent state what it holds |
| Orchestrator.BuiltDatasets | deal_ERA5L_MultiCategory.py:301-348 | a dataset is built for exactly the needed categories |
| Orchestrator.WriteFrom | deal_ERA5L_MultiCategory.py:301-348 | the only failure the writes report is a write error |
| Orchestrator.WriteFromFrame | deal_ERA5L_MultiCategory.py:301-348 | the writes leave alone every path that no remaining needed category owns |
| Orchestrator.WriteFromWrites | deal_ERA5L_MultiCategory.py:301-348 | when the writes finish without error, every remaining needed category's write completed and its file holds its dataset |
| Orchestrator.Day | deal_ERA5L_MultiCategory.py:183-371 | one date of the loop; its properties are the lemmas SkipIffAllOutputsExist through FailureLeavesNoStub below |
| Orchestrator.SkipIffAllOutputsExist | deal_ERA5L_MultiCategory.py:195-204 | a date is skipped if and only if all five outputs exist, and a skip leaves the file system unchanged |
| Orchestrator.TileCountFailureChangesNothing | deal_ERA5L_MultiCategory.py:219-223 | a tile-count failure happens exactly when some output is missing and there are not two tiles; it writes and cleans nothing and reports the count found |
| Orchestrator.DayKeepsExisting | deal_ERA5L_MultiCategory.py:195-199 | an existing file is never rewritten; it disappears only when it is a zero-byte file among the date's paths and the date failed after the tile check |
| Orchestrator.DayTouchesOnlyOutputPaths | deal_ERA5L_MultiCategory.py:188-192 | a date never touches a path other than its five outputs |
| Orchestrator.ProcessedWritesEveryNeeded | deal_ERA5L_MultiCategory.py:301-358 | after a done date, every formerly missing output is a non-empty file holding its category's dataset built from the corrected merged array |
| Orchestrator.ProcessedThenSkipped | deal_ERA5L_MultiCategory.py:195-204 | after a done date all five outputs exist, so the same date is skipped next time |
| Orchestrator.FailureLeavesNoStub | deal_ERA5L_MultiCategory.py:361-371 | after a failure past the tile check, none of the five paths holds a zero-byte file |
| Orchestrator.Count | deal_ERA5L_MultiCategory.py:203-371 | each outcome adds one to the total, decreases no counter, and raises exactly the counter of its own kind |
| Orchestrator.Tally | deal_ERA5L_MultiCategory.py:179-371 | the counters after a sequence of outcomes; TallyTotal and RunCountsEveryDate state their sum |
| Orchestrator.TallyTotal | deal_ERA5L_MultiCategory.py:179 | each outcome adds exactly one to exactly one counter, and no counter decreases |
| Orchestrator.RunCountsEveryDate | deal_ERA5L_MultiCategory.py:178-183 | starting from zero, ok + skip + fail equals the number of dates |
| Orchestrator.RunDays | deal_ERA5L_MultiCategory.py:183 | the run has one outcome per date |
| Orchestrator.UnfailedDayKeepsFiles | deal_ERA5L_MultiCategory.py:195-204 | a date that does not fail removes no file |
| Orchestrator.UnfailedRunLeavesOutputs | deal_ERA5L_MultiCategory.py:183-358 | when no date fails, every existing file survives and every output of every date exists |
| Orchestrator.RunSkipsWhenOutputsExist | deal_ERA5L_MultiCategory.py:195-204 | when every output of every date exists, the run skips every date and changes nothing |
| Orchestrator.RerunSkipsUnfailed | deal_ERA5L_MultiCategory.py:195-204 | rerunning dates of a run in which no date failed skips them all and changes nothing |
| CategoryData.UnswappedVars | deal_ERA5L_MultiCategory.py:318-346 | without the swap, a category's dataset is the one built from its table |
| CategoryData.SwappedVars | deal_ERA5L_MultiCategory.py:301-311 | with the swap enabled, the evaporation dataset is the built dataset after the three-cycle |
| CategoryData.EvaporationContent | deal_ERA5L_MultiCategory.py:301-311 | the written Es, Ew and Et keep their own attributes and hold bands 36, 38 and 35 with the swap, and 35, 36 and 38 without it |
| Converter.CleanedStep | deal_ERA5L_MultiCategory.py:365-368 | removing one zero-byte path extends the cleanup by that path |
| Converter.WriteStep | deal_ERA5L_MultiCategory.py:301-313 | one needed category's save is one step of the writes |
| Converter.SkipStep | deal_ERA5L_MultiCategory.py:315-316 | a category that is not needed is passed over |
| Converter.RunDaysStep | deal_ERA5L_MultiCategory.py:183 | the run from date k on starts with date k's result |
| Converter.TallyAppend | deal_ERA5L_MultiCategory.py:179 | counting one more outcome at the end of a tally |
| Converter.Converter.constructor | deal_ERA5L_MultiCategory.py:179 | the counters start at zero |
| Converter.Converter.Save | deal_ERA5L_MultiCategory.py:296-299 | one save changes the file system as AfterWrite says, reports completion, and leaves the counters alone |
| Converter.Converter.Cleanup | deal_ERA5L_MultiCategory.py:364-370 | the cleanup loop leaves the file system equal to Cleaned of the old one |
| Converter.Converter.BuildCategory | deal_ERA5L_MultiCategory.py:301-311 | building on a dataset object, with the in-place swap for Evaporation, gives the category's dataset |
| Converter.Converter.WriteCategory | deal_ERA5L_MultiCategory.py:301-346 | one category's branch writes its dataset to its own path and reports a failed save as a write error |
| Converter.Converter.WriteAt | deal_ERA5L_MultiCategory.py:301-348 | one category's branch of the loop is one step of WriteFrom, and the counters are unchanged |
| Converter.Converter.WriteNeeded | deal_ERA5L_MultiCategory.py:301-348 | the per-category loop, stopping at the first failure, does what WriteFrom says |
| Converter.Converter.ReadMerged | deal_ERA5L_MultiCategory.py:247-260 | reading, merging and scaling in place give the corrected merged array |
| Converter.Converter.FailDay | deal_ERA5L_MultiCategory.py:361-371 | a failure cleans up the five paths and adds one to `fail` |
| Converter.Converter.ProcessPaths | deal_ERA5L_MultiCategory.py:195-371 | one date's outcome and file system are what Day says, and only that outcome's counter goes up by one |
| Converter.Converter.ProcessNeeded | deal_ERA5L_MultiCategory.py:245-371 | a date with missing outputs and two tiles ends as Day says |
| Converter.Converter.WriteDay | deal_ERA5L_MultiCategory.py:301-371 | after the writes, the date is done or is cleaned up and failed |
| Converter.Converter.ProcessDay | deal_ERA5L_MultiCategory.py:183-371 | one date with its five paths ends as Day says, with the matching counter increment |
| Converter.Converter.Run | deal_ERA5L_MultiCategory.py:178-371 | the run's outcomes and final file system are those of RunDays, and the counters are the tally of those outcomes |

## Left out

- The interactive front end: the directory dialogs and date prompts at lines 41-80. The base output directory and the swap flag are `Config` fields. The run takes the dates as a sequence.
- The date range at line 178, `datetime` arithmetic and `strftime`. A `Date` carries its year, its month and its `yyyymmdd` stamp.
- Globbing and sorting the tiles at line 219. A day's input holds its tiles already sorted, and the model checks only their count.
- The rasterio reads and the thread pool at lines 229-252. A tile is either unreadable or a band stack, and the two reads are sequential because they are independent.
- The float32 cast at line 255. Cell values are `real`, so float32 rounding is not modelled.
- The xarray and NetCDF details of `build_dataset` and `finalize`: coordinates, global attributes, the `ProcessingStatus` timestamp, zlib encoding and `os.makedirs`. A dataset is its map from variable name to data and source band.
- `build_dataset` raising on a shape mismatch. This is one check per date, `StackFits` (every slice 1800×3600, matching the coordinates of lines 173-174), made before any write. The merged array is one numpy array, so all its slices share a shape, and the first needed category's build precedes every write.
- Datasets are built before the writes: `BuiltDatasets`. Building is pure, so the content written is the same as building just before each write.
- Attributes are held by band index. Long names and units live in `AttributeTable`, row for row beside the band tables. A variable records its source band rather than copying the strings, and `AttributesOf` gives its long name and unit from that band.
- A failing `os.remove` at lines 369-370: the exception is swallowed. The model assumes removal always succeeds.
- Exceptions other than unreadable tiles, bad band indices, shape mismatches and failed writes.
- The timing, printing and `gc.collect` calls.
- Windows path separators: `os.path.join` is modelled with `/`.
- `install_dependencies.py` and `test_performance.py` are not part of this model.
