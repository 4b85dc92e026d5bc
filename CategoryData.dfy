/**
 * What the dataset of each category holds: the built dataset, swapped for
 * Evaporation when the swap is enabled, and in particular which band the
 * three swapped evaporation variables hold.
 */
module CategoryData {
  import opened Catalog
  import opened Selection
  import opened Tiles
  import opened Correction
  import opened Datasets
  import opened Orchestrator

  /** Without the swap, the dataset of a needed category is the dataset built from its table. */
  lemma UnswappedVars(cfg: Config, needed: set<Category>, c: Category, full: Stack)
    requires c in needed && |full| == |NeededIndices(needed)| && !(c == Evaporation && cfg.applyEvapSwap)
    ensures Covers(Bands(c), full, PositionMap(NeededIndices(needed)))
    ensures CategoryVars(cfg, needed, c, full) == DataVars(Bands(c), full, PositionMap(NeededIndices(needed)))
  {
    NeededCovered(needed, c, full);
  }

  /** With the swap enabled, the evaporation dataset is the built dataset, swapped. */
  lemma SwappedVars(cfg: Config, needed: set<Category>, full: Stack)
    requires Evaporation in needed && |full| == |NeededIndices(needed)| && cfg.applyEvapSwap
    ensures Covers(Bands(Evaporation), full, PositionMap(NeededIndices(needed)))
    ensures HasSwapVariables(DataVars(Bands(Evaporation), full, PositionMap(NeededIndices(needed))))
    ensures CategoryVars(cfg, needed, Evaporation, full) ==
      EvapSwapped(DataVars(Bands(Evaporation), full, PositionMap(NeededIndices(needed))))
  {
    NeededCovered(needed, Evaporation, full);
    EvapDatasetHasSwapVariables(full, PositionMap(NeededIndices(needed)));
  }

  /**
   * The evaporation dataset: each variable keeps its own attributes;
   * with the swap enabled, Es holds the Ew band, Ew the Et band and Et the Es
   * band, and without it each holds its own band.
   */
  lemma EvaporationContent(cfg: Config, needed: set<Category>, full: Stack)
    requires Evaporation in needed && |full| == |NeededIndices(needed)|
    ensures var pos := PositionMap(NeededIndices(needed));
      35 in pos && 36 in pos && 38 in pos && pos[35] < |full| && pos[36] < |full| && pos[38] < |full|
    ensures var vars := CategoryVars(cfg, needed, Evaporation, full);
      var pos := PositionMap(NeededIndices(needed));
      "Es" in vars && "Ew" in vars && "Et" in vars &&
      vars["Es"].source == 35 && vars["Ew"].source == 36 && vars["Et"].source == 38 &&
      vars["Es"].data == full[pos[if cfg.applyEvapSwap then 36 else 35]] &&
      vars["Ew"].data == full[pos[if cfg.applyEvapSwap then 38 else 36]] &&
      vars["Et"].data == full[pos[if cfg.applyEvapSwap then 35 else 38]]
  {
    var pos := PositionMap(NeededIndices(needed));
    NeededCovered(needed, Evaporation, full);
    EvapDatasetRows(full, pos);
    if cfg.applyEvapSwap {
      SwappedVars(cfg, needed, full);
    } else {
      UnswappedVars(cfg, needed, Evaporation, full);
    }
  }
}
