/**
 * The per-cell meaning of the raster expressions of the erosion analysis:
 * K-factor zero fill, RUSLE soil loss, the Sediment Delivery Ratio and the
 * local sediment yield. Both copies of the analysis use the same expressions.
 */
module ErosionCells {
  import opened Rasters
  import CellArea

  const DEFAULT_URBAN_K_FACTOR_VALUE: real := 0.3
  /** Acres in one square metre. */
  const ACRES_PER_SQ_METER: real := 0.000247104369
  /** Kilograms in one short ton. */
  const KG_PER_TON: real := 907.18474
  /** `1.366 * (10 ^ -11)`, the regression constant of the SDR expression. */
  const SDR_COEFFICIENT: real := 1.366 * 0.00000000001
  const SDR_CELL_SIZE_EXPONENT: real := -0.0998
  const SDR_RELIEF_LENGTH_EXPONENT: real := 0.3629
  const SDR_CURVE_NUMBER_EXPONENT: real := 5.444

  // ---------------------------------------------------------------- K-factor

  /**
   * `((A == 0) * 0.3) + ((A > 0) * A)`: a zero K-factor means "urban, not
   * measured" and becomes the default; a negative one is zeroed.
   */
  function KFill(a: real): (r: real)
    ensures a == 0.0 ==> r == DEFAULT_URBAN_K_FACTOR_VALUE
    ensures a > 0.0 ==> r == a
    ensures a < 0.0 ==> r == 0.0
  {
    Indicator(a == 0.0) * 0.3 + Indicator(a > 0.0) * a
  }

  function KFillRaster(k: Raster): (r: Raster)
    ensures |r| == |k|
    ensures forall i :: 0 <= i < |k| ==> r[i] == KFill(k[i])
  {
    seq(|k|, i requires 0 <= i < |k| => KFill(k[i]))
  }

  // ------------------------------------------------------------------- RUSLE

  function CellSizeAcres(cellSizeSqMeters: real): (acres: real)
    ensures acres > 0.0 <==> cellSizeSqMeters > 0.0
    ensures acres == 0.0 <==> cellSizeSqMeters == 0.0
  {
    cellSizeSqMeters * ACRES_PER_SQ_METER
  }

  /** `A * B * C * D * cell_size_acres` for the C, LS, K and R factors of one cell. */
  function Rusle(c: real, ls: real, k: real, r: real, cellSizeSqMeters: real): (loss: real)
    ensures 0.0 <= c && 0.0 <= ls && 0.0 <= k && 0.0 <= r && 0.0 <= cellSizeSqMeters ==> 0.0 <= loss
  {
    c * ls * k * r * CellSizeAcres(cellSizeSqMeters)
  }

  /** Scaling any one factor, or the cell area, by `s` scales the soil loss by `s`. */
  lemma RusleScalesWithEachFactor(c: real, ls: real, k: real, r: real, cs: real, s: real)
    ensures Rusle(s * c, ls, k, r, cs) == s * Rusle(c, ls, k, r, cs)
    ensures Rusle(c, s * ls, k, r, cs) == s * Rusle(c, ls, k, r, cs)
    ensures Rusle(c, ls, s * k, r, cs) == s * Rusle(c, ls, k, r, cs)
    ensures Rusle(c, ls, k, s * r, cs) == s * Rusle(c, ls, k, r, cs)
    ensures Rusle(c, ls, k, r, s * cs) == s * Rusle(c, ls, k, r, cs)
  {
  }

  /** The soil loss of a cell is zero exactly when one of its factors, or the cell area, is zero. */
  lemma RusleZeroIff(c: real, ls: real, k: real, r: real, cs: real)
    ensures Rusle(c, ls, k, r, cs) == 0.0 <==> c == 0.0 || ls == 0.0 || k == 0.0 || r == 0.0 || cs == 0.0
  {
  }

  function RusleRaster(c: Raster, ls: Raster, k: Raster, r: Raster, cellSizeSqMeters: real): (loss: Raster)
    requires |ls| == |c| && |k| == |c| && |r| == |c|
    ensures |loss| == |c|
    ensures forall i :: 0 <= i < |c| ==> loss[i] == Rusle(c[i], ls[i], k[i], r[i], cellSizeSqMeters)
  {
    seq(|c|, i requires 0 <= i < |c| => Rusle(c[i], ls[i], k[i], r[i], cellSizeSqMeters))
  }

  // --------------------------------------------------- Sediment Delivery Ratio

  /** `sqrt` returns the non-negative square root of every non-negative real. */
  ghost predicate IsSquareRoot(sqrt: real -> real)
  {
    forall x :: 0.0 <= x ==> 0.0 <= sqrt(x) && sqrt(x) * sqrt(x) == x
  }

  /**
   * The number formatted into the SDR expression, `(sqrt(cs) / 1000) ** 2`:
   * the cell area in square kilometres.
   */
  function SdrCellSizeBase(cellSizeSqMeters: real, sqrt: real -> real): (base: real)
    requires 0.0 <= cellSizeSqMeters && IsSquareRoot(sqrt)
    ensures base == cellSizeSqMeters / CellArea.SQ_METERS_PER_SQ_KILOMETER
  {
    var root := sqrt(cellSizeSqMeters);
    assert root * root == cellSizeSqMeters;
    (root / 1000.0) * (root / 1000.0)
  }

  /**
   * `1.366 * (10 ^ -11) * (base ^ -0.0998) * (RL ^ 0.3629) * (CN ^ 5.444)`;
   * `power` is the raster calculator's real exponentiation.
   */
  function Sdr(base: real, rl: real, cn: real, power: (real, real) -> real): (ratio: real)
    ensures (0.0 < power(base, SDR_CELL_SIZE_EXPONENT) && 0.0 < power(rl, SDR_RELIEF_LENGTH_EXPONENT) &&
             0.0 < power(cn, SDR_CURVE_NUMBER_EXPONENT)) ==> 0.0 < ratio
  {
    1.366 * 0.00000000001 * power(base, -0.0998) * power(rl, 0.3629) * power(cn, 5.444)
  }

  function SdrRaster(cellSizeSqMeters: real, rl: Raster, cn: Raster, power: (real, real) -> real, sqrt: real -> real): (sdr: Raster)
    requires |cn| == |rl|
    requires 0.0 <= cellSizeSqMeters && IsSquareRoot(sqrt)
    ensures |sdr| == |rl|
    ensures forall i :: 0 <= i < |rl| ==>
      sdr[i] == SDR_COEFFICIENT
                * power(cellSizeSqMeters / CellArea.SQ_METERS_PER_SQ_KILOMETER, SDR_CELL_SIZE_EXPONENT)
                * power(rl[i], SDR_RELIEF_LENGTH_EXPONENT)
                * power(cn[i], SDR_CURVE_NUMBER_EXPONENT)
  {
    var base := SdrCellSizeBase(cellSizeSqMeters, sqrt);
    seq(|rl|, i requires 0 <= i < |rl| => Sdr(base, rl[i], cn[i], power))
  }

  /**
   * When the power of a positive base is positive, a cell with positive area,
   * relief-length ratio and curve number has a positive delivery ratio.
   */
  lemma SdrPositive(cellSizeSqMeters: real, rl: real, cn: real, power: (real, real) -> real, sqrt: real -> real)
    requires 0.0 < cellSizeSqMeters && 0.0 < rl && 0.0 < cn && IsSquareRoot(sqrt)
    requires forall b, e :: 0.0 < b ==> 0.0 < power(b, e)
    ensures Sdr(SdrCellSizeBase(cellSizeSqMeters, sqrt), rl, cn, power) > 0.0
  {
  }

  // ---------------------------------------------------------- Sediment yield

  /** `A * B * 907.18474`: delivered soil loss converted from tons to kilograms. */
  function SedimentYield(sdr: real, rusle: real): (kg: real)
    ensures kg == 0.0 <==> sdr == 0.0 || rusle == 0.0
    ensures 0.0 <= sdr && 0.0 <= rusle ==> 0.0 <= kg
  {
    sdr * rusle * 907.18474
  }

  /** The local yield is linear in the delivery ratio and in the soil loss. */
  lemma SedimentYieldLinear(sdr: real, rusle: real, s: real)
    ensures SedimentYield(s * sdr, rusle) == s * SedimentYield(sdr, rusle)
    ensures SedimentYield(sdr, s * rusle) == s * SedimentYield(sdr, rusle)
    ensures SedimentYield(sdr, rusle) == sdr * rusle * KG_PER_TON
  {
  }

  function SedimentYieldRaster(sdr: Raster, rusle: Raster): (y: Raster)
    requires |rusle| == |sdr|
    ensures |y| == |sdr|
    ensures forall i :: 0 <= i < |sdr| ==> y[i] == SedimentYield(sdr[i], rusle[i])
  {
    seq(|sdr|, i requires 0 <= i < |sdr| => SedimentYield(sdr[i], rusle[i]))
  }

  /**
   * A 10 m cell in a square-metre CRS with C = 0.3, LS = 1, K = 0.2, R = 100
   * loses 0.1482626214 t; with a delivery ratio of 0.5 it yields about 67.25 kg.
   */
  lemma WorkedExampleFlatCell()
    ensures CellArea.CellSizeInSqMeters(10.0, 10.0, CellArea.AreaSquareMeters).value == 100.0
    ensures Rusle(0.3, 1.0, KFill(0.2), 100.0, 100.0) == 0.1482626214
    ensures SedimentYield(0.5, 0.1482626214) == 67.250793823238718
  {
  }
}
