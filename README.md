# NSPECT erosion and runoff cell model

This project models the cell-level arithmetic of the NSPECT QGIS plugin, and the small amount of state and ordering around it:

- **Erosion analysis.** Two near-identical copies exist: `algorithms/run_analysis` and `components/run_analysis`. The model covers:
  - the cell area in square metres for the elevation raster's CRS unit;
  - the K-factor zero fill;
  - RUSLE soil loss in tons;
  - the Sediment Delivery Ratio (SDR);
  - the local sediment yield in kilograms;
  - the order of a run: the two fatal checks, the run folder, then nine stages.

  `ErosionAnalysis.Edition` selects the copy. The copies differ in four ways:
  - the single-flow flag handed to `r.watershed`;
  - the names of the two sediment output keys;
  - only the components copy keeps `r.watershed`'s result in `outputs["RWatershed"]`;
  - the components copy resolves the lookup table a second time for `Curve_Number`.

  The model captures the first three. The fourth is under "## Left out".
- **Runoff volume.** The class `Runoff_Volume` implements the SCS curve-number method:
  - it pre-processes precipitation from millimetres to inches;
  - it computes the retention `S = 1000/CN - 10`;
  - it computes the runoff volume `Q` in litres over several rainy days.

  The instances share a class-level `outputs` dictionary.

Rasters are `seq<real>`. Every raster expression the plugin hands to a raster calculator is modelled by its per-cell meaning. Floats are exact reals.

Files and modules:

| file | module | content |
|---|---|---|
| `outcomes.dfy` | `Outcomes` | `Option` and `Result` |
| `rasters.dfy` | `Rasters` | the raster type, the comparison-to-number indicator, cell-wise scaling |
| `cell_area.dfy` | `CellArea` | `cell_size_in_sq_meters` |
| `erosion_cells.dfy` | `ErosionCells` | the K-fill, RUSLE, SDR and yield cell rules |
| `erosion_analysis.dfy` | `ErosionAnalysis` | the stage methods over a `RunState` object (the run's `outputs`/`results` dictionaries), `processAlgorithm` and the stage order |
| `runoff_volume.dfy` | `RunoffVolumeModel` | the runoff cell formulas and the `RunoffVolume` class with its shared `SharedOutputs` dictionary |

Outside helpers are not modelled by their internals; the model takes their results as given. These include land-use reclassification, `r.watershed`, the relief-length ratio, `Curve_Number`, GRASS material transport, the raster calculator's real power and `math.sqrt`. Each is a function-valued field of `ErosionAnalysis.Collaborators`, and the model proves results in terms of those functions.

## Model

| member | source | states |
|---|---|---|
| CellArea.CellSizeInSqMeters | algorithms/run_analysis/run_erosion_analysis.py:361-376 | A value exists exactly when the CRS unit is one of the four recognised area units. That value is width × height × the unit's factor: 1, 1 000 000, 2 589 988 or 0.09290304. |
| CellArea.CellSizeLinear | components/run_analysis/run_erosion_analysis.py:321-337 | For a recognised unit, the cell area is linear in the pixel width and in the pixel height. |
| CellArea.CellSizePositive | algorithms/run_analysis/run_erosion_analysis.py:364-376 | Positive pixel sizes in a recognised unit give a positive area. |
| ErosionCells.KFill | algorithms/run_analysis/run_erosion_analysis.py:328 | A zero K-factor becomes the urban default 0.3. A positive one is kept. A negative one becomes 0. |
| ErosionCells.KFillRaster | components/run_analysis/run_erosion_analysis.py:289 | The fill applies cell by cell and keeps the raster's size. |
| ErosionCells.CellSizeAcres | algorithms/run_analysis/run_erosion_analysis.py:475 | The cell area in acres (square metres × 0.000247104369) is positive exactly when the area in square metres is positive, and zero exactly when it is zero. |
| ErosionCells.Rusle | algorithms/run_analysis/run_erosion_analysis.py:487 | The soil loss of a cell with non-negative C, LS, K, R and cell area is non-negative. |
| ErosionCells.Sdr | algorithms/run_analysis/run_erosion_analysis.py:389-397 | When the three powers in the expression are positive, the delivery ratio is positive. |
| ErosionCells.SedimentYield | algorithms/run_analysis/run_erosion_analysis.py:428 | The yield of a cell is zero exactly when its SDR or its soil loss is zero, and non-negative when both are. |
| ErosionCells.RusleScalesWithEachFactor | algorithms/run_analysis/run_erosion_analysis.py:475-487 | Scaling C, LS, K, R or the cell area by s scales the soil loss by s. |
| ErosionCells.RusleZeroIff | components/run_analysis/run_erosion_analysis.py:430-442 | A cell's soil loss is zero if and only if one of its factors or the cell area is zero. |
| ErosionCells.RusleRaster | algorithms/run_analysis/run_erosion_analysis.py:475-487 | Each cell's loss is C·LS·K·R·(cell m² · 0.000247104369). |
| ErosionCells.SdrCellSizeBase | algorithms/run_analysis/run_erosion_analysis.py:393 | For a non-negative cell size, the number formatted into the expression, (√cs / 1000)², equals cs / 1 000 000 (the area in km²). |
| ErosionCells.SdrRaster | algorithms/run_analysis/run_erosion_analysis.py:389-397 | Each cell's ratio is 1.366·10⁻¹¹ · (cs/10⁶)^−0.0998 · RL^0.3629 · CN^5.444, with `^` as a given power function. |
| ErosionCells.SdrPositive | components/run_analysis/run_erosion_analysis.py:351-359 | If the power function is positive on positive bases, then positive cell size, relief-length ratio and curve number give a positive SDR. |
| ErosionCells.SedimentYieldLinear | algorithms/run_analysis/run_erosion_analysis.py:428 | The yield is SDR · RUSLE · 907.18474 kg per ton, and it is linear in each argument. |
| ErosionCells.SedimentYieldRaster | components/run_analysis/run_erosion_analysis.py:391 | The yield applies cell by cell. |
| ErosionCells.WorkedExampleFlatCell | algorithms/run_analysis/run_erosion_analysis.py:366-487 | A 10 m × 10 m cell in metres, with C 0.3, LS 1, K 0.2 and R 100, loses 0.1482626214 t. With SDR 0.5 it yields 67.250793823238718 kg. |
| ErosionAnalysis.PipelineOrderIsSound | components/run_analysis/run_erosion_analysis.py:171-256 | The fixed order K-fill → C-factor → LS → RUSLE → RL → CN → SDR → local yield → accumulation runs every stage exactly once. Each stage comes after every stage whose output it consumes. |
| ErosionAnalysis.LengthSlopeSingleFlow | components/run_analysis/run_erosion_analysis.py:494 | The algorithms copy always requests single-flow routing (algorithms/run_analysis/run_erosion_analysis.py:543). The components copy requests it exactly when MDF is off. With MDF off, both copies request it. |
| ErosionAnalysis.LocalSedimentYield | algorithms/run_analysis/run_erosion_analysis.py:206-277 | The local yield raster a successful run computes has one cell per K-factor cell. |
| ErosionAnalysis.RunState.constructor | algorithms/run_analysis/run_erosion_analysis.py:172-173 | A run starts with empty `outputs` and `results`, no events and no flow flags. |
| ErosionAnalysis.LocalSedimentYieldCell | algorithms/run_analysis/run_erosion_analysis.py:206-277 | A run's local yield per cell is SDR × RUSLE (with K zero-filled) × kg per ton, written out in terms of the collaborators' rasters. |
| ErosionAnalysis.AlgorithmsLocalYieldIgnoresMfd | algorithms/run_analysis/run_erosion_analysis.py:543 | In the algorithms copy, the MFD option does not change the local yield. |
| ErosionAnalysis.CreateLsFactor | components/run_analysis/run_erosion_analysis.py:488-517 | r.watershed gets `-s` = true (algorithms copy) or `-s` = not MDF (components copy). Only the components copy stores the call's result under "RWatershed". |
| ErosionAnalysis.FillZeroKFactorCells | components/run_analysis/run_erosion_analysis.py:286-293 | Stores the zero-filled K-factor raster under "KFill" and returns it. |
| ErosionAnalysis.RunRusle | algorithms/run_analysis/run_erosion_analysis.py:461-493 | Stores the RUSLE raster under "RUSLE" and returns it. |
| ErosionAnalysis.RunSedimentDeliveryRatio | algorithms/run_analysis/run_erosion_analysis.py:378-410 | Stores the SDR raster under "SedimentDeliveryRatio" and returns it. |
| ErosionAnalysis.RunSedimentYield | components/run_analysis/run_erosion_analysis.py:374-399 | Writes the local yield into both `outputs` and `results` under the copy's local key. |
| ErosionAnalysis.RunSedimentYieldAccumulated | algorithms/run_analysis/run_erosion_analysis.py:438-459 | Passes the MFD option unchanged to material transport and stores the accumulation under the copy's accumulated key. |
| ErosionAnalysis.CreateRunFolder | algorithms/run_analysis/run_erosion_analysis.py:196-204 | Appends the "folder created" event, and leaves `outputs`, `results` and the flow flags unchanged. |
| ErosionAnalysis.CreateCFactorRaster | algorithms/run_analysis/run_erosion_analysis.py:337-359 | Returns the lookup table's `c_factor` reclassification of the land use, appends the C-factor stage event, and leaves `outputs`, `results` and the flow flags unchanged. |
| ErosionAnalysis.CreateReliefLengthRatioRaster | algorithms/run_analysis/run_erosion_analysis.py:236-244 | Returns the relief-length ratio raster for the run's cell size, appends the relief-length stage event, and leaves `outputs`, `results` and the flow flags unchanged. |
| ErosionAnalysis.GenerateCnRaster | algorithms/run_analysis/run_erosion_analysis.py:246-255 | Returns the Curve Number raster for the run's lookup table, appends the Curve Number stage event, and leaves `outputs`, `results` and the flow flags unchanged. |
| ErosionAnalysis.RusleSection | algorithms/run_analysis/run_erosion_analysis.py:206-233 | Returns the RUSLE raster of the C-factor, the length-slope raster for the copy's single-flow flag, the zero-filled K-factor and R. Sets `outputs` to its old value plus "KFill" and "RUSLE", and also "RWatershed" in the components copy. Appends the K-fill, C-factor, LS and RUSLE events in that order and records the LS flag. Leaves `results` unchanged. |
| ErosionAnalysis.SedimentDeliveryRatioSection | algorithms/run_analysis/run_erosion_analysis.py:235-265 | Returns the SDR raster of the cell size, the relief-length ratio and the Curve Number raster. Sets `outputs` to its old value plus "SedimentDeliveryRatio". Appends the RL, CN and SDR events in that order. Leaves `results` and the flow flags unchanged. |
| ErosionAnalysis.OutputsSection | algorithms/run_analysis/run_erosion_analysis.py:267-291 | Returns the local yield of SDR and RUSLE. Adds exactly the local yield and its accumulation (for the MFD option) to both `outputs` and `results` under the copy's keys. Appends the two yield events and records MFD for accumulation. |
| ErosionAnalysis.ProcessAlgorithm | algorithms/run_analysis/run_erosion_analysis.py:168-308 | The run fails with "invalid CRS units" exactly when the unit is unrecognised. It fails with "missing lookup table" exactly when the unit is recognised and the table is missing. With a recognised unit and a table, it succeeds. A failing run creates no folder and runs no stage. A successful run creates the folder, then runs the nine stages in order. Its LS flag is as in CreateLsFactor, MFD reaches accumulation, and `results` holds exactly the local yield and its accumulation. The components copy (components/run_analysis/run_erosion_analysis.py:143-269) behaves the same, with its own keys and `-s` = not MDF. |
| RunoffVolumeModel.PrecipitationInches | components/run_pollution_analysis/Runoff_Volume.py:34-43 | The raster keeps its size, and any unit other than 1 leaves it unchanged. |
| RunoffVolumeModel.PrecipitationInchesRoundTrip | components/run_pollution_analysis/Runoff_Volume.py:40 | Each converted cell times 25.4 gives back the millimetre cell. |
| RunoffVolumeModel.Retention | components/run_pollution_analysis/Runoff_Volume.py:51-54 | S = 1000/CN − 10 inverts to CN = 1000/(S + 10): (S + 10) · CN = 1000. |
| RunoffVolumeModel.RetentionStrictlyDecreasing | components/run_pollution_analysis/Runoff_Volume.py:51-54 | S = 1000/CN − 10 strictly decreases as CN grows (for CN > 0), and S = 0 at CN = 100. |
| RunoffVolumeModel.RetentionSign | components/run_pollution_analysis/Runoff_Volume.py:51-54 | For CN > 0: S > 0 if and only if CN < 100, and S = 0 if and only if CN = 100. |
| RunoffVolumeModel.RetentionRaster | components/run_pollution_analysis/Runoff_Volume.py:45-54 | S is computed cell by cell from CN. |
| RunoffVolumeModel.RunoffZeroWithoutExcess | components/run_pollution_analysis/Runoff_Volume.py:81 | Q = 0 whenever P − 0.2·S·d ≤ 0, equality included. |
| RunoffVolumeModel.RunoffSign | components/run_pollution_analysis/Runoff_Volume.py:81 | With a positive denominator and area ≥ 0, Q ≥ 0. With area > 0, Q > 0 if and only if P − 0.2·S·d > 0. |
| RunoffVolumeModel.RunoffLinearInArea | components/run_pollution_analysis/Runoff_Volume.py:59-69 | Q is linear in the cell area in square feet. |
| RunoffVolumeModel.RunoffLiters | components/run_pollution_analysis/Runoff_Volume.py:81 | The volume of a cell is zero whenever P − 0.2·S·d ≤ 0. |
| RunoffVolumeModel.RunoffLitersRaster | components/run_pollution_analysis/Runoff_Volume.py:79-83 | Q is computed cell by cell from P and S. |
| RunoffVolumeModel.SharedOutputs.constructor | components/run_pollution_analysis/Runoff_Volume.py:14 | The class-level dictionary starts empty. |
| RunoffVolumeModel.RunoffVolume.CellAreaSqFeet | components/run_pollution_analysis/Runoff_Volume.py:59-69 | Positive pixel sizes and a positive conversion factor give a positive cell area in square feet. |
| RunoffVolumeModel.RunoffVolume.constructor | components/run_pollution_analysis/Runoff_Volume.py:16-32 | Stores the inputs. Neither the inch raster nor the runoff raster is set yet. |
| RunoffVolumeModel.RunoffVolume.PreprocessPrecipitation | components/run_pollution_analysis/Runoff_Volume.py:34-43 | Sets the inch raster. For millimetres it also writes it to the shared `outputs["P"]`; otherwise `outputs` is unchanged. |
| RunoffVolumeModel.RunoffVolume.CalculateS | components/run_pollution_analysis/Runoff_Volume.py:45-54 | Writes the retention raster of the instance's CN to the shared `outputs["S"]`, and changes nothing else. |
| RunoffVolumeModel.RunoffVolume.CalculateQ | components/run_pollution_analysis/Runoff_Volume.py:56-87 | Requires `outputs["S"]`. Returns the volume from the raw precipitation raster and the `S` currently in `outputs`, stores it as `outputs["Q"]` and sets the runoff raster. |
| RunoffVolumeModel.RunoffVolume.CalculateQConverted | components/run_pollution_analysis/Runoff_Volume.py:41-43 | The same as CalculateQ, but reads the pre-processed inch raster (the corrected reading). |
| RunoffVolumeModel.RunoffForStorm | components/run_pollution_analysis/Runoff_Volume.py:34-87 | A new instance over the class-level dictionary, whatever earlier instances left in it, calls pre-processing, S and Q in order. This gives the volume from the raw precipitation and the instance's own retention. Afterwards the dictionary is its old contents, plus "P" (the inch raster) for a millimetre storm, plus that S and that Q; every other entry stays as it was. |
| RunoffVolumeModel.SharedRetentionAcrossInstances | components/run_pollution_analysis/Runoff_Volume.py:14 | Because `outputs` is shared by every instance, a second instance that computes Q before its own S uses the first instance's retention. |
| RunoffVolumeModel.RawPrecipitationCounterexample | components/run_pollution_analysis/Runoff_Volume.py:72 | For 25.4 mm at CN 100 over one day on one square foot, the code as written gives 25.4 times the volume of the converted one inch. |
| RunoffVolumeModel.ConvertedRunoffIndependentOfUnits | components/run_pollution_analysis/Runoff_Volume.py:35-43 | With the corrected reading, a storm given in millimetres and the same storm in inches give the same volume raster. |

## Left out

- User interface and file I/O are not modelled: parameter definitions, `name`/`displayName`/`group`, `handle_post_processing` and `create_config_file`. The `mkdir` of the run folder is kept only as the `FolderCreated` event.
- `modify_land_use/modify_land_use_by_field.py` is not part of this model. It only clips and rasterises with GDAL and selects vector features.
- The package `__init__.py` is not part of this model. It is the plugin loader.
- Outside helpers are given functions or given rasters: `extract_lookup_table`, `reclassify_land_use_raster_by_table_field`, `create_relief_length_ratio_raster`, `Curve_Number` and its dual-soil policy, `convert_raster_data_type_to_float`, `perform_raster_math`, `qgis:rastercalculator`, `grass7:r.watershed` and `grass_material_transport`. No routing or accumulation is modelled, so mass conservation is not stated.
- Real-valued powers (`^ -0.0998`, `^ 0.3629`, `^ 5.444`) and `math.sqrt` are given functions. Only the structure of the SDR is proved, with the square root required to be a true square root. The integer power `(10 ^ -11)` of the SDR expression is taken as the exact constant 10⁻¹¹ rather than passed through the given power function.
- Floating-point rounding is not modelled. This includes the decimal text of `cell_size_acres` and of the SDR base that are pasted into the expression strings. Cell rules use exact reals.
- The CRS unit check compares the map units against area-unit tags; the model treats this as a match on opaque tags (`MapUnit`) and does not reproduce QGIS's enum numbering.
- `QgsDistanceArea.convertAreaMeasurement` is a foreign call. It is modelled as multiplication by a fixed square-feet-per-unit factor for the reference raster's CRS (`RunoffVolume.refSqFeetPerUnit`).
- Division by zero is excluded by `requires`: CN = 0 for S, and P + 0.8·S·d = 0 for Q. The source's raster calculator would give infinity or no-data there, and IEEE special values are not modelled.
- ErosionAnalysis.ProcessAlgorithm: requires positive pixel sizes (as QGIS reports them) so that `math.sqrt` of the cell size is defined. It does not model the exception a negative area would raise.
- ErosionAnalysis.ProcessAlgorithm: models the lookup table as already resolved (`Option<LookupTable>`). The components copy calls `extract_lookup_table` a second time to build the lookup argument of `Curve_Number` (components/run_analysis/run_erosion_analysis.py:214). The model gives `Curve_Number` the table that passed the fatal check, so it assumes both calls resolve the same table.
- ErosionAnalysis.CreateCFactorRaster: leaves `outputs` unchanged. It does not model the writes `convert_raster_data_type_to_float` makes into the run's `outputs`, because that helper is outside the model.
- ErosionAnalysis.CreateReliefLengthRatioRaster: leaves `outputs` unchanged. It does not model the writes `create_relief_length_ratio_raster` makes into the run's `outputs`, because that helper is outside the model.
- ErosionAnalysis.RunSedimentYieldAccumulated: stores the accumulation raster in both dictionaries. The source stores the whole material-transport result in `outputs` and only its `accumulation` output in `results`.
- The K-factor fill's `(A > 0) * A` term zeroes negative K-factor cells. The model does the same.
- Every raster in a run is assumed to have the same number of cells. `ErosionAnalysis.Aligned` and the length `requires` of `RusleRaster`, `SdrRaster`, `SedimentYieldRaster`, `RunoffLitersRaster` and `RunoffVolume.CalculateQ` enforce this. The source checks nothing; its raster calculators reject or resample misaligned inputs, and the model does not cover that.
- No-data cells are not modelled. The raster engines propagate no-data through every expression; the model treats every cell as a number.
- Progress feedback and the processing context are not modelled.

## Findings

| source | as written | input that shows it | evidently intended | confidence | as-written member | corrected member |
|---|---|---|---|---|---|---|
| components/run_pollution_analysis/Runoff_Volume.py:72 | `calculate_Q` reads the raw `self.precip_raster`, so the millimetre-to-inch conversion in `preprocess_precipitation` (line 41) never reaches Q. | precip_units = 1, P = 25.4 mm, CN = 100 (so S = 0), 1 rainy day, 1 ft². The result is 25.4 times the volume of the intended 1 inch. | Q is computed from `self.precip_raster_in`. | not executed | RunoffVolumeModel.RawPrecipitationCounterexample | RunoffVolumeModel.RunoffVolume.CalculateQConverted |
