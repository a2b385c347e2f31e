/**
 * The erosion analysis run (`processAlgorithm` and its stage helpers) of both
 * copies of the erosion analysis. `Edition` selects between the copies, which
 * differ in the single-flow flag they pass to the length-slope computation,
 * in the names of the two sediment output keys, and in whether the
 * length-slope result is kept in `outputs` under "RWatershed" (components
 * copy only).
 */
module ErosionAnalysis {
  import opened Outcomes
  import opened Rasters
  import CellArea
  import Cells = ErosionCells

  /** Which copy of the analysis runs: algorithms/run_analysis or components/run_analysis. */
  datatype Edition = AlgorithmsEdition | ComponentsEdition

  datatype Stage =
    | KFill
    | CFactor
    | LengthSlope
    | Rusle
    | ReliefLength
    | CurveNumber
    | Sdr
    | SedimentLocal
    | SedimentAccumulated

  /** What a run does, in order: create the run folder, then run stages. */
  datatype Event = FolderCreated | Ran(stage: Stage)

  datatype RunError = InvalidCrsUnits | MissingLookupTable

  /** The land-use lookup table a run resolved (built-in or custom). */
  datatype LookupTable = LookupTable(source: string)

  /** The elevation raster's pixel size and CRS map units. */
  datatype Dem = Dem(sizeX: real, sizeY: real, units: CellArea.MapUnit)

  /**
   * The outside helpers and engines a run calls, as functions of what the run
   * passes them: land-use reclassification on "c_factor", r.watershed's
   * length-slope output for a given single-flow flag, the relief-length ratio
   * for a cell size, the Curve Number raster for a lookup table, GRASS
   * material transport for a weight raster and MFD flag, the raster
   * calculator's real power, and the square root.
   */
  datatype Collaborators = Collaborators(
    reclassifyCFactor: LookupTable -> Raster,
    watershedLengthSlope: bool -> Raster,
    reliefLengthRatio: real -> Raster,
    curveNumber: LookupTable -> Raster,
    materialTransport: (Raster, bool) -> Raster,
    power: (real, real) -> real,
    sqrt: real -> real)

  /** Every raster the collaborators produce has `n` cells, like the input rasters. */
  ghost predicate Aligned(env: Collaborators, n: nat)
  {
    && (forall lt :: |env.reclassifyCFactor(lt)| == n)
    && (forall singleFlow :: |env.watershedLengthSlope(singleFlow)| == n)
    && (forall cs :: |env.reliefLengthRatio(cs)| == n)
    && (forall lt :: |env.curveNumber(lt)| == n)
  }

  const KFILL_KEY: string := "KFill"
  const WATERSHED_KEY: string := "RWatershed"
  const RUSLE_KEY: string := "RUSLE"
  const SDR_KEY: string := "SedimentDeliveryRatio"

  function SedimentLocalKey(edition: Edition): (key: string)
  {
    if edition == AlgorithmsEdition then "Sediment Local" else "SedimentLocal"
  }

  function SedimentAccumulatedKey(edition: Edition): (key: string)
  {
    if edition == AlgorithmsEdition then "Sediment Accumulated" else "SedimentAccumulated"
  }

  /** The `-s` (single flow direction) flag the length-slope computation is given. */
  function LengthSlopeSingleFlow(edition: Edition, mfd: bool): (singleFlow: bool)
    ensures edition == AlgorithmsEdition ==> singleFlow
    ensures edition == ComponentsEdition ==> singleFlow == !mfd
    ensures !mfd ==> singleFlow
  {
    match edition
    case AlgorithmsEdition => true
    case ComponentsEdition => !mfd
  }

  // ------------------------------------------------------------ stage order

  const PIPELINE_ORDER: seq<Stage> :=
    [KFill, CFactor, LengthSlope, Rusle, ReliefLength, CurveNumber, Sdr, SedimentLocal, SedimentAccumulated]

  /**
   * The stages whose outputs a stage consumes. This table mirrors the raster
   * parameters of the stage methods below: RunRusle takes the K-fill, C-factor
   * and length-slope rasters; RunSedimentDeliveryRatio the relief-length ratio
   * and Curve Number rasters; RunSedimentYield the SDR and RUSLE rasters; and
   * RunSedimentYieldAccumulated the local yield. The other stages read only
   * the run's inputs.
   */
  function Prerequisites(s: Stage): (consumed: set<Stage>)
  {
    match s
    case Rusle => {KFill, CFactor, LengthSlope}
    case Sdr => {ReliefLength, CurveNumber}
    case SedimentLocal => {Sdr, Rusle}
    case SedimentAccumulated => {SedimentLocal}
    case _ => {}
  }

  /** Each stage of `order` runs after every stage whose output it consumes. */
  ghost predicate ConsumesOnlyProduced(order: seq<Stage>)
  {
    forall i, t :: 0 <= i < |order| && t in Prerequisites(order[i]) ==> t in order[..i]
  }

  function StageEvents(order: seq<Stage>): (events: seq<Event>)
    ensures |events| == |order|
    ensures forall i :: 0 <= i < |order| ==> events[i] == Ran(order[i])
  {
    seq(|order|, i requires 0 <= i < |order| => Ran(order[i]))
  }

  /** Where a stage stands in the run (the line order of processAlgorithm). */
  function Position(s: Stage): (index: nat)
  {
    match s
    case KFill => 0
    case CFactor => 1
    case LengthSlope => 2
    case Rusle => 3
    case ReliefLength => 4
    case CurveNumber => 5
    case Sdr => 6
    case SedimentLocal => 7
    case SedimentAccumulated => 8
  }

  /** The fixed order runs every stage exactly once, each after all of its prerequisites. */
  lemma PipelineOrderIsSound()
    ensures ConsumesOnlyProduced(PIPELINE_ORDER)
    ensures forall s: Stage :: s in PIPELINE_ORDER
    ensures forall i, j :: 0 <= i < j < |PIPELINE_ORDER| ==> PIPELINE_ORDER[i] != PIPELINE_ORDER[j]
  {
    var order := PIPELINE_ORDER;
    assert forall i :: 0 <= i < |order| ==> Position(order[i]) == i;
    forall s: Stage
      ensures Position(s) < |order| && order[Position(s)] == s && s in order
    {
    }
    forall i, t | 0 <= i < |order| && t in Prerequisites(order[i])
      ensures t in order[..i]
    {
      assert Position(t) < Position(order[i]);
      assert order[..i][Position(t)] == t;
    }
  }

  // ---------------------------------------------------------- run contents

  /** The local sediment yield raster a successful run writes, cell rule by cell rule. */
  function LocalSedimentYield(edition: Edition, cs: real, lt: LookupTable, kFactor: Raster, rFactor: Raster,
                              mfd: bool, env: Collaborators): (y: Raster)
    requires 0.0 <= cs && Cells.IsSquareRoot(env.sqrt)
    requires |rFactor| == |kFactor| && Aligned(env, |kFactor|)
    ensures |y| == |kFactor|
  {
    var rusle := Cells.RusleRaster(env.reclassifyCFactor(lt), env.watershedLengthSlope(LengthSlopeSingleFlow(edition, mfd)),
                             Cells.KFillRaster(kFactor), rFactor, cs);
    var sdr := Cells.SdrRaster(cs, env.reliefLengthRatio(cs), env.curveNumber(lt), env.power, env.sqrt);
    Cells.SedimentYieldRaster(sdr, rusle)
  }

  /**
   * The yield of one cell spelled out: delivery ratio times the RUSLE product
   * (with the K-factor zero-filled) times the acres in the cell times kg per ton.
   */
  lemma LocalSedimentYieldCell(edition: Edition, cs: real, lt: LookupTable, kFactor: Raster, rFactor: Raster,
                               mfd: bool, env: Collaborators, i: int)
    requires 0.0 <= cs && Cells.IsSquareRoot(env.sqrt)
    requires |rFactor| == |kFactor| && Aligned(env, |kFactor|)
    requires 0 <= i < |kFactor|
    ensures LocalSedimentYield(edition, cs, lt, kFactor, rFactor, mfd, env)[i] ==
      Cells.SDR_COEFFICIENT
        * env.power(cs / CellArea.SQ_METERS_PER_SQ_KILOMETER, Cells.SDR_CELL_SIZE_EXPONENT)
        * env.power(env.reliefLengthRatio(cs)[i], Cells.SDR_RELIEF_LENGTH_EXPONENT)
        * env.power(env.curveNumber(lt)[i], Cells.SDR_CURVE_NUMBER_EXPONENT)
      * (env.reclassifyCFactor(lt)[i] * env.watershedLengthSlope(LengthSlopeSingleFlow(edition, mfd))[i]
         * Cells.KFill(kFactor[i]) * rFactor[i] * (cs * Cells.ACRES_PER_SQ_METER))
      * Cells.KG_PER_TON
  {
  }

  /** In the algorithms copy the MFD option does not reach the local yield: only accumulation sees it. */
  lemma AlgorithmsLocalYieldIgnoresMfd(cs: real, lt: LookupTable, kFactor: Raster, rFactor: Raster, env: Collaborators)
    requires 0.0 <= cs && Cells.IsSquareRoot(env.sqrt)
    requires |rFactor| == |kFactor| && Aligned(env, |kFactor|)
    ensures LocalSedimentYield(AlgorithmsEdition, cs, lt, kFactor, rFactor, true, env)
         == LocalSedimentYield(AlgorithmsEdition, cs, lt, kFactor, rFactor, false, env)
  {
  }

  // ------------------------------------------------------------- run state

  /**
   * The `outputs` and `results` dictionaries that processAlgorithm creates
   * and its stage helpers fill, with a log of what the run did and the
   * routing flag each flow-routing stage passed to its engine.
   */
  class RunState {
    var outputs: map<string, Raster>
    var results: map<string, Raster>
    var events: seq<Event>
    var flowFlags: map<Stage, bool>

    constructor ()
      ensures outputs == map[] && results == map[] && events == [] && flowFlags == map[]
    {
      outputs, results, events, flowFlags := map[], map[], [], map[];
    }
  }

  /** `run_out_dir.mkdir(...)`: the run folder exists from here on. */
  method CreateRunFolder(st: RunState)
    modifies st
    ensures st.events == old(st.events) + [FolderCreated]
    ensures st.outputs == old(st.outputs) && st.results == old(st.results) && st.flowFlags == old(st.flowFlags)
  {
    st.events := st.events + [FolderCreated];
  }

  method FillZeroKFactorCells(st: RunState, kFactor: Raster) returns (kFill: Raster)
    modifies st
    ensures kFill == Cells.KFillRaster(kFactor)
    ensures st.outputs == old(st.outputs)[KFILL_KEY := kFill]
    ensures st.events == old(st.events) + [Ran(KFill)]
    ensures st.results == old(st.results) && st.flowFlags == old(st.flowFlags)
  {
    kFill := Cells.KFillRaster(kFactor);
    st.outputs := st.outputs[KFILL_KEY := kFill];
    st.events := st.events + [Ran(KFill)];
  }

  /** Land use reclassified to C-factor values through the lookup table (an outside helper). */
  method CreateCFactorRaster(st: RunState, lt: LookupTable, reclassify: LookupTable -> Raster) returns (c: Raster)
    modifies st
    ensures c == reclassify(lt)
    ensures st.events == old(st.events) + [Ran(CFactor)]
    ensures st.outputs == old(st.outputs) && st.results == old(st.results) && st.flowFlags == old(st.flowFlags)
  {
    c := reclassify(lt);
    st.events := st.events + [Ran(CFactor)];
  }

  /**
   * r.watershed's length-slope output. The algorithms copy always asks for
   * single-flow routing and keeps nothing in `outputs`; the components copy
   * asks for single flow exactly when MDF is off and keeps the call's result.
   */
  method CreateLsFactor(st: RunState, edition: Edition, mfd: bool, watershed: bool -> Raster) returns (ls: Raster)
    modifies st
    ensures ls == watershed(LengthSlopeSingleFlow(edition, mfd))
    ensures edition == AlgorithmsEdition ==> st.outputs == old(st.outputs)
    ensures edition == ComponentsEdition ==> st.outputs == old(st.outputs)[WATERSHED_KEY := ls]
    ensures st.flowFlags == old(st.flowFlags)[LengthSlope := LengthSlopeSingleFlow(edition, mfd)]
    ensures st.events == old(st.events) + [Ran(LengthSlope)]
    ensures st.results == old(st.results)
  {
    var singleFlow := if edition == AlgorithmsEdition then true else !mfd;
    ls := watershed(singleFlow);
    if edition == ComponentsEdition {
      st.outputs := st.outputs[WATERSHED_KEY := ls];
    }
    st.flowFlags := st.flowFlags[LengthSlope := singleFlow];
    st.events := st.events + [Ran(LengthSlope)];
  }

  method RunRusle(st: RunState, c: Raster, ls: Raster, k: Raster, r: Raster, cellSizeSqMeters: real) returns (loss: Raster)
    requires |ls| == |c| && |k| == |c| && |r| == |c|
    modifies st
    ensures loss == Cells.RusleRaster(c, ls, k, r, cellSizeSqMeters)
    ensures st.outputs == old(st.outputs)[RUSLE_KEY := loss]
    ensures st.events == old(st.events) + [Ran(Rusle)]
    ensures st.results == old(st.results) && st.flowFlags == old(st.flowFlags)
  {
    loss := Cells.RusleRaster(c, ls, k, r, cellSizeSqMeters);
    st.outputs := st.outputs[RUSLE_KEY := loss];
    st.events := st.events + [Ran(Rusle)];
  }

  /** The relief-length ratio raster for the cell size (an outside helper). */
  method CreateReliefLengthRatioRaster(st: RunState, cs: real, reliefLength: real -> Raster) returns (rl: Raster)
    modifies st
    ensures rl == reliefLength(cs)
    ensures st.events == old(st.events) + [Ran(ReliefLength)]
    ensures st.outputs == old(st.outputs) && st.results == old(st.results) && st.flowFlags == old(st.flowFlags)
  {
    rl := reliefLength(cs);
    st.events := st.events + [Ran(ReliefLength)];
  }

  /** The Curve Number raster for the lookup table (an outside helper). */
  method GenerateCnRaster(st: RunState, lt: LookupTable, curveNumber: LookupTable -> Raster) returns (cn: Raster)
    modifies st
    ensures cn == curveNumber(lt)
    ensures st.events == old(st.events) + [Ran(CurveNumber)]
    ensures st.outputs == old(st.outputs) && st.results == old(st.results) && st.flowFlags == old(st.flowFlags)
  {
    cn := curveNumber(lt);
    st.events := st.events + [Ran(CurveNumber)];
  }

  method RunSedimentDeliveryRatio(st: RunState, cs: real, rl: Raster, cn: Raster,
                                  power: (real, real) -> real, sqrt: real -> real) returns (sdr: Raster)
    requires |cn| == |rl| && 0.0 <= cs && Cells.IsSquareRoot(sqrt)
    modifies st
    ensures sdr == Cells.SdrRaster(cs, rl, cn, power, sqrt)
    ensures st.outputs == old(st.outputs)[SDR_KEY := sdr]
    ensures st.events == old(st.events) + [Ran(Sdr)]
    ensures st.results == old(st.results) && st.flowFlags == old(st.flowFlags)
  {
    sdr := Cells.SdrRaster(cs, rl, cn, power, sqrt);
    st.outputs := st.outputs[SDR_KEY := sdr];
    st.events := st.events + [Ran(Sdr)];
  }

  method RunSedimentYield(st: RunState, edition: Edition, sdr: Raster, rusle: Raster) returns (local: Raster)
    requires |rusle| == |sdr|
    modifies st
    ensures local == Cells.SedimentYieldRaster(sdr, rusle)
    ensures st.outputs == old(st.outputs)[SedimentLocalKey(edition) := local]
    ensures st.results == old(st.results)[SedimentLocalKey(edition) := local]
    ensures st.events == old(st.events) + [Ran(SedimentLocal)]
    ensures st.flowFlags == old(st.flowFlags)
  {
    local := Cells.SedimentYieldRaster(sdr, rusle);
    st.outputs := st.outputs[SedimentLocalKey(edition) := local];
    st.results := st.results[SedimentLocalKey(edition) := local];
    st.events := st.events + [Ran(SedimentLocal)];
  }

  /** Routes the local yield downslope; the MFD option is passed through unchanged. */
  method RunSedimentYieldAccumulated(st: RunState, edition: Edition, local: Raster, mfd: bool,
                                     transport: (Raster, bool) -> Raster) returns (acc: Raster)
    modifies st
    ensures acc == transport(local, mfd)
    ensures st.outputs == old(st.outputs)[SedimentAccumulatedKey(edition) := acc]
    ensures st.results == old(st.results)[SedimentAccumulatedKey(edition) := acc]
    ensures st.flowFlags == old(st.flowFlags)[SedimentAccumulated := mfd]
    ensures st.events == old(st.events) + [Ran(SedimentAccumulated)]
  {
    acc := transport(local, mfd);
    st.outputs := st.outputs[SedimentAccumulatedKey(edition) := acc];
    st.results := st.results[SedimentAccumulatedKey(edition) := acc];
    st.flowFlags := st.flowFlags[SedimentAccumulated := mfd];
    st.events := st.events + [Ran(SedimentAccumulated)];
  }

  // ---------------------------------------------------------------- the run

  /** The RUSLE section of a run: K-fill, C-factor, length-slope, then the RUSLE product. */
  method RusleSection(st: RunState, edition: Edition, cs: real, lt: LookupTable, kFactor: Raster, rFactor: Raster,
                      mfd: bool, env: Collaborators) returns (rusle: Raster)
    requires |rFactor| == |kFactor| && Aligned(env, |kFactor|)
    modifies st
    ensures rusle == Cells.RusleRaster(env.reclassifyCFactor(lt), env.watershedLengthSlope(LengthSlopeSingleFlow(edition, mfd)),
                                       Cells.KFillRaster(kFactor), rFactor, cs)
    ensures edition == AlgorithmsEdition ==>
      st.outputs == old(st.outputs)[KFILL_KEY := Cells.KFillRaster(kFactor)][RUSLE_KEY := rusle]
    ensures edition == ComponentsEdition ==>
      st.outputs == old(st.outputs)[KFILL_KEY := Cells.KFillRaster(kFactor)]
                                   [WATERSHED_KEY := env.watershedLengthSlope(LengthSlopeSingleFlow(edition, mfd))]
                                   [RUSLE_KEY := rusle]
    ensures st.events == old(st.events) + [Ran(KFill), Ran(CFactor), Ran(LengthSlope), Ran(Rusle)]
    ensures st.flowFlags == old(st.flowFlags)[LengthSlope := LengthSlopeSingleFlow(edition, mfd)]
    ensures st.results == old(st.results)
  {
    var erodability := FillZeroKFactorCells(st, kFactor);
    var cFactor := CreateCFactorRaster(st, lt, env.reclassifyCFactor);
    var ls := CreateLsFactor(st, edition, mfd, env.watershedLengthSlope);
    rusle := RunRusle(st, cFactor, ls, erodability, rFactor, cs);
  }

  /** The Sediment Delivery Ratio section of a run: relief-length ratio, Curve Number, then the SDR. */
  method SedimentDeliveryRatioSection(st: RunState, cs: real, lt: LookupTable, n: nat, env: Collaborators)
    returns (sdr: Raster)
    requires 0.0 <= cs && Cells.IsSquareRoot(env.sqrt) && Aligned(env, n)
    modifies st
    ensures sdr == Cells.SdrRaster(cs, env.reliefLengthRatio(cs), env.curveNumber(lt), env.power, env.sqrt)
    ensures st.outputs == old(st.outputs)[SDR_KEY := sdr]
    ensures st.events == old(st.events) + [Ran(ReliefLength), Ran(CurveNumber), Ran(Sdr)]
    ensures st.flowFlags == old(st.flowFlags) && st.results == old(st.results)
  {
    var rl := CreateReliefLengthRatioRaster(st, cs, env.reliefLengthRatio);
    var cn := GenerateCnRaster(st, lt, env.curveNumber);
    sdr := RunSedimentDeliveryRatio(st, cs, rl, cn, env.power, env.sqrt);
  }

  /** The component outputs section: local sediment yield, then its downslope accumulation. */
  method OutputsSection(st: RunState, edition: Edition, sdr: Raster, rusle: Raster, mfd: bool,
                        transport: (Raster, bool) -> Raster) returns (local: Raster)
    requires |rusle| == |sdr|
    modifies st
    ensures local == Cells.SedimentYieldRaster(sdr, rusle)
    ensures st.results == old(st.results)[SedimentLocalKey(edition) := local]
                                          [SedimentAccumulatedKey(edition) := transport(local, mfd)]
    ensures st.outputs == old(st.outputs)[SedimentLocalKey(edition) := local]
                                         [SedimentAccumulatedKey(edition) := transport(local, mfd)]
    ensures st.events == old(st.events) + [Ran(SedimentLocal), Ran(SedimentAccumulated)]
    ensures st.flowFlags == old(st.flowFlags)[SedimentAccumulated := mfd]
  {
    local := RunSedimentYield(st, edition, sdr, rusle);
    var acc := RunSedimentYieldAccumulated(st, edition, local, mfd, transport);
  }

  /**
   * One erosion run. Both fatal checks (unrecognised CRS units, then a
   * missing lookup table) fire before the run folder is created; otherwise
   * the folder is created and the stages run in the fixed order, and the
   * returned results hold the local and the accumulated sediment yield.
   */
  method ProcessAlgorithm(edition: Edition, dem: Dem, lookup: Option<LookupTable>, kFactor: Raster, rFactor: Raster,
                          mfd: bool, env: Collaborators)
    returns (outcome: Result<map<string, Raster>, RunError>, events: seq<Event>, flowFlags: map<Stage, bool>)
    requires dem.sizeX > 0.0 && dem.sizeY > 0.0
    requires |rFactor| == |kFactor| && Aligned(env, |kFactor|)
    requires Cells.IsSquareRoot(env.sqrt)
    ensures outcome == Err(InvalidCrsUnits) <==> !CellArea.Recognised(dem.units)
    ensures outcome == Err(MissingLookupTable) <==> CellArea.Recognised(dem.units) && lookup.None?
    ensures CellArea.Recognised(dem.units) && lookup.Some? ==> outcome.Ok?
    ensures outcome.Err? ==> events == [] && flowFlags == map[]
    ensures outcome.Ok? ==> events == [FolderCreated] + StageEvents(PIPELINE_ORDER)
    ensures outcome.Ok? ==> flowFlags == map[LengthSlope := LengthSlopeSingleFlow(edition, mfd), SedimentAccumulated := mfd]
    ensures outcome.Ok? ==>
      var cs := CellArea.CellSizeInSqMeters(dem.sizeX, dem.sizeY, dem.units).value;
      var local := LocalSedimentYield(edition, cs, lookup.value, kFactor, rFactor, mfd, env);
      outcome.value == map[SedimentLocalKey(edition) := local,
                           SedimentAccumulatedKey(edition) := env.materialTransport(local, mfd)]
  {
    var st := new RunState();
    var cellSize := CellArea.CellSizeInSqMeters(dem.sizeX, dem.sizeY, dem.units);
    if cellSize.None? {
      return Err(InvalidCrsUnits), st.events, st.flowFlags;
    }
    if lookup.None? {
      return Err(MissingLookupTable), st.events, st.flowFlags;
    }
    var cs := cellSize.value;
    CellArea.CellSizePositive(dem.sizeX, dem.sizeY, dem.units);
    var lt := lookup.value;

    CreateRunFolder(st);
    var rusle := RusleSection(st, edition, cs, lt, kFactor, rFactor, mfd, env);
    var sdr := SedimentDeliveryRatioSection(st, cs, lt, |kFactor|, env);
    var local := OutputsSection(st, edition, sdr, rusle, mfd, env.materialTransport);

    assert local == LocalSedimentYield(edition, cs, lt, kFactor, rFactor, mfd, env);
    assert st.events == [FolderCreated, Ran(KFill), Ran(CFactor), Ran(LengthSlope), Ran(Rusle), Ran(ReliefLength),
                         Ran(CurveNumber), Ran(Sdr), Ran(SedimentLocal), Ran(SedimentAccumulated)];
    assert st.events == [FolderCreated] + StageEvents(PIPELINE_ORDER);
    outcome, events, flowFlags := Ok(st.results), st.events, st.flowFlags;
  }
}
