/**
 * Storm runoff volume by the SCS curve-number method (class Runoff_Volume):
 * precipitation pre-processing, potential maximum retention S, and runoff
 * volume Q in litres over a period of several rainy days.
 */
module RunoffVolumeModel {
  import opened Outcomes
  import opened Rasters

  const MM_PER_INCH: real := 25.4
  /** Litres per square foot of area per inch of depth (28.3168466 / 12, rounded). */
  const LITERS_PER_SQ_FOOT_INCH: real := 2.35973722
  /** The `precip_units` value that means millimetres; any other value means inches. */
  const PRECIP_UNITS_MILLIMETERS: int := 1

  // -------------------------------------------------------- cell formulas

  /** `A/25.4` when the precipitation is in millimetres; otherwise the raster itself. */
  function PrecipitationInches(p: Raster, units: int): (r: Raster)
    ensures |r| == |p|
    ensures units != PRECIP_UNITS_MILLIMETERS ==> r == p
  {
    if units == 1 then seq(|p|, i requires 0 <= i < |p| => p[i] / 25.4) else p
  }

  /** Converting millimetres loses nothing: every converted cell times 25.4 is the original cell. */
  lemma PrecipitationInchesRoundTrip(p: Raster)
    ensures forall i :: 0 <= i < |p| ==>
      PrecipitationInches(p, PRECIP_UNITS_MILLIMETERS)[i] * MM_PER_INCH == p[i]
  {
  }

  /** `(1000/A)-10`: potential maximum retention in inches for curve number `cn`. */
  function Retention(cn: real): (s: real)
    requires cn != 0.0
    ensures (s + 10.0) * cn == 1000.0
  {
    1000.0 / cn - 10.0
  }

  /** Retention vanishes at CN = 100 and strictly decreases as the curve number grows. */
  lemma RetentionStrictlyDecreasing(a: real, b: real)
    requires 0.0 < a < b
    ensures Retention(a) > Retention(b)
    ensures Retention(100.0) == 0.0
  {
    var qa, qb := 1000.0 / a, 1000.0 / b;
    assert qa * a == 1000.0 && qb * b == 1000.0;
    assert qb * a < qb * b;
  }

  /** For a positive curve number, retention is positive below 100, zero at 100 and negative above. */
  lemma RetentionSign(cn: real)
    requires 0.0 < cn
    ensures Retention(cn) > 0.0 <==> cn < 100.0
    ensures Retention(cn) == 0.0 <==> cn == 100.0
  {
    if cn < 100.0 {
      RetentionStrictlyDecreasing(cn, 100.0);
    } else if cn > 100.0 {
      RetentionStrictlyDecreasing(100.0, cn);
    }
  }

  ghost predicate NoZeroCell(cn: Raster)
  {
    forall i :: 0 <= i < |cn| ==> cn[i] != 0.0
  }

  function RetentionRaster(cn: Raster): (s: Raster)
    requires NoZeroCell(cn)
    ensures |s| == |cn|
    ensures forall i :: 0 <= i < |cn| ==> s[i] == Retention(cn[i])
  {
    seq(|cn|, i requires 0 <= i < |cn| => Retention(cn[i]))
  }

  /** `P + 0.8*S*d`, the denominator of the runoff expression. */
  function Denominator(p: real, s: real, days: int): (den: real)
  {
    p + 0.8 * s * (days as real)
  }

  /** `P - 0.2*S*d`, precipitation left after the initial abstraction. */
  function Excess(p: real, s: real, days: int): (e: real)
  {
    p - 0.2 * s * (days as real)
  }

  /**
   * `(((A-(0.2*B*d))**2)/(A+(0.8*B*d)) * ((A-(0.2*B*d))>0)) * area * 2.35973722`
   * for precipitation A, retention B and `days` rainy days.
   */
  function RunoffLiters(p: real, s: real, days: int, areaSqFeet: real): (q: real)
    requires Denominator(p, s, days) != 0.0
    ensures Excess(p, s, days) <= 0.0 ==> q == 0.0
  {
    var d := days as real;
    (((p - 0.2 * s * d) * (p - 0.2 * s * d)) / (p + 0.8 * s * d) * Indicator(p - 0.2 * s * d > 0.0))
      * areaSqFeet * 2.35973722
  }

  /** No runoff whenever the initial abstraction takes all the precipitation, equality included. */
  lemma RunoffZeroWithoutExcess(p: real, s: real, days: int, areaSqFeet: real)
    requires Denominator(p, s, days) != 0.0
    requires Excess(p, s, days) <= 0.0
    ensures RunoffLiters(p, s, days, areaSqFeet) == 0.0
  {
  }

  /**
   * With a positive denominator and a non-negative area the volume is never
   * negative; with a positive area it is positive exactly when there is excess.
   */
  lemma RunoffSign(p: real, s: real, days: int, areaSqFeet: real)
    requires Denominator(p, s, days) > 0.0 && areaSqFeet >= 0.0
    ensures RunoffLiters(p, s, days, areaSqFeet) >= 0.0
    ensures areaSqFeet > 0.0 ==> (RunoffLiters(p, s, days, areaSqFeet) > 0.0 <==> Excess(p, s, days) > 0.0)
  {
    var e, den := Excess(p, s, days), Denominator(p, s, days);
    if e > 0.0 {
      SquareOverPositive(e, den);
      var depth := (e * e) / den;
      assert RunoffLiters(p, s, days, areaSqFeet) == depth * areaSqFeet * LITERS_PER_SQ_FOOT_INCH;
      ProductNonNegative(depth, areaSqFeet);
      if areaSqFeet > 0.0 {
        ProductPositive(depth, areaSqFeet);
      }
    } else {
      RunoffZeroWithoutExcess(p, s, days, areaSqFeet);
    }
  }

  lemma ProductPositive(x: real, y: real)
    requires x > 0.0 && y > 0.0
    ensures x * y > 0.0
  {
  }

  lemma ProductNonNegative(x: real, y: real)
    requires x >= 0.0 && y >= 0.0
    ensures x * y >= 0.0
  {
  }

  lemma SquareOverPositive(x: real, y: real)
    requires x > 0.0 && y > 0.0
    ensures (x * x) / y > 0.0
  {
    QuotientPositive(x, y);
    ProductPositive(x, x / y);
    assert (x * x) / y == x * (x / y);
  }

  lemma QuotientPositive(x: real, y: real)
    requires x > 0.0 && y > 0.0
    ensures x / y > 0.0
  {
  }

  /** The volume is linear in the cell area. */
  lemma RunoffLinearInArea(p: real, s: real, days: int, areaSqFeet: real, k: real)
    requires Denominator(p, s, days) != 0.0
    ensures RunoffLiters(p, s, days, k * areaSqFeet) == k * RunoffLiters(p, s, days, areaSqFeet)
  {
  }

  ghost predicate NoZeroDenominator(p: Raster, s: Raster, days: int)
    requires |s| == |p|
  {
    forall i :: 0 <= i < |p| ==> Denominator(p[i], s[i], days) != 0.0
  }

  function RunoffLitersRaster(p: Raster, s: Raster, days: int, areaSqFeet: real): (q: Raster)
    requires |s| == |p| && NoZeroDenominator(p, s, days)
    ensures |q| == |p|
    ensures forall i :: 0 <= i < |p| ==> q[i] == RunoffLiters(p[i], s[i], days, areaSqFeet)
  {
    seq(|p|, i requires 0 <= i < |p| => RunoffLiters(p[i], s[i], days, areaSqFeet))
  }

  // --------------------------------------------- the unit of precipitation

  /**
   * As written, a millimetre raster reaches Q unconverted: 25.4 mm of rain on
   * a CN-100 cell of one square foot gives 25.4 times the volume of one inch.
   */
  lemma RawPrecipitationCounterexample()
    ensures RunoffLiters(25.4, Retention(100.0), 1, 1.0)
         == 25.4 * RunoffLiters(PrecipitationInches([25.4], PRECIP_UNITS_MILLIMETERS)[0], Retention(100.0), 1, 1.0)
    ensures RunoffLiters(25.4, Retention(100.0), 1, 1.0)
         != RunoffLiters(PrecipitationInches([25.4], PRECIP_UNITS_MILLIMETERS)[0], Retention(100.0), 1, 1.0)
  {
    assert PrecipitationInches([25.4], 1)[0] == 1.0;
  }

  /**
   * Runoff computed from the converted precipitation does not depend on the
   * unit the storm was supplied in: the same storm given in millimetres and
   * in inches yields the same volume raster.
   */
  lemma ConvertedRunoffIndependentOfUnits(pInches: Raster, s: Raster, days: int, areaSqFeet: real)
    requires |s| == |pInches| && NoZeroDenominator(pInches, s, days)
    ensures PrecipitationInches(Scale(pInches, MM_PER_INCH), PRECIP_UNITS_MILLIMETERS) == pInches
    ensures RunoffLitersRaster(PrecipitationInches(Scale(pInches, MM_PER_INCH), PRECIP_UNITS_MILLIMETERS), s, days, areaSqFeet)
         == RunoffLitersRaster(PrecipitationInches(pInches, 0), s, days, areaSqFeet)
  {
    var converted := PrecipitationInches(Scale(pInches, MM_PER_INCH), PRECIP_UNITS_MILLIMETERS);
    forall i | 0 <= i < |pInches|
      ensures converted[i] == pInches[i]
    {
      assert converted[i] == (MM_PER_INCH * pInches[i]) / 25.4;
    }
    assert converted == pInches;
  }

  // ------------------------------------------------------------ the class

  /** The class-level `outputs` dictionary, one object shared by every Runoff_Volume instance. */
  class SharedOutputs {
    var entries: map<string, Raster>

    constructor ()
      ensures entries == map[]
    {
      entries := map[];
    }
  }

  /**
   * One runoff computation. `refSizeX` and `refSizeY` are the reference
   * raster's pixel sizes in its CRS units and `refSqFeetPerUnit` the factor
   * by which the area conversion for that CRS turns one square CRS unit into
   * square feet; `precipRasterIn` and `runoffVolRaster` are unset until the
   * methods that set them have run.
   */
  class RunoffVolume {
    const outputs: SharedOutputs
    const precipRaster: Raster
    const cnRaster: Raster
    const refSizeX: real
    const refSizeY: real
    const refSqFeetPerUnit: real
    const precipUnits: int
    const rainyDays: int
    var precipRasterIn: Option<Raster>
    var runoffVolRaster: Option<Raster>

    constructor (outputs: SharedOutputs, precipRaster: Raster, cnRaster: Raster, refSizeX: real, refSizeY: real,
                 refSqFeetPerUnit: real, precipUnits: int, rainyDays: int)
      ensures this.outputs == outputs && this.precipRaster == precipRaster && this.cnRaster == cnRaster
      ensures this.refSizeX == refSizeX && this.refSizeY == refSizeY && this.refSqFeetPerUnit == refSqFeetPerUnit
      ensures this.precipUnits == precipUnits && this.rainyDays == rainyDays
      ensures precipRasterIn == None && runoffVolRaster == None
    {
      this.outputs := outputs;
      this.precipRaster := precipRaster;
      this.cnRaster := cnRaster;
      this.refSizeX := refSizeX;
      this.refSizeY := refSizeY;
      this.refSqFeetPerUnit := refSqFeetPerUnit;
      this.precipUnits := precipUnits;
      this.rainyDays := rainyDays;
      precipRasterIn := None;
      runoffVolRaster := None;
    }

    /** Converts millimetres to inches into `outputs["P"]`; inches are taken as they are. */
    method PreprocessPrecipitation()
      modifies this, outputs
      ensures precipRasterIn == Some(PrecipitationInches(precipRaster, precipUnits))
      ensures precipUnits == PRECIP_UNITS_MILLIMETERS ==>
        outputs.entries == old(outputs.entries)["P" := PrecipitationInches(precipRaster, precipUnits)]
      ensures precipUnits != PRECIP_UNITS_MILLIMETERS ==> outputs.entries == old(outputs.entries)
      ensures runoffVolRaster == old(runoffVolRaster)
    {
      if precipUnits == 1 {
        var inches := seq(|precipRaster|, i requires 0 <= i < |precipRaster| => precipRaster[i] / 25.4);
        outputs.entries := outputs.entries["P" := inches];
        precipRasterIn := Some(outputs.entries["P"]);
      } else {
        precipRasterIn := Some(precipRaster);
      }
    }

    /** Writes the retention raster into `outputs["S"]`. */
    method CalculateS()
      requires NoZeroCell(cnRaster)
      modifies outputs
      ensures outputs.entries == old(outputs.entries)["S" := RetentionRaster(cnRaster)]
    {
      var s := seq(|cnRaster|, i requires 0 <= i < |cnRaster| => 1000.0 / cnRaster[i] - 10.0);
      assert s == RetentionRaster(cnRaster);
      outputs.entries := outputs.entries["S" := s];
    }

    /** The reference raster's cell area converted to square feet. */
    function CellAreaSqFeet(): (area: real)
      ensures refSizeX > 0.0 && refSizeY > 0.0 && refSqFeetPerUnit > 0.0 ==> area > 0.0
    {
      refSizeY * refSizeX * refSqFeetPerUnit
    }

    /**
     * Runoff volume in litres from the raw `precipRaster` and whatever
     * retention raster `outputs["S"]` holds.
     */
    method CalculateQ() returns (q: Raster)
      requires "S" in outputs.entries && |outputs.entries["S"]| == |precipRaster|
      requires NoZeroDenominator(precipRaster, outputs.entries["S"], rainyDays)
      modifies this, outputs
      ensures q == RunoffLitersRaster(precipRaster, old(outputs.entries["S"]), rainyDays, CellAreaSqFeet())
      ensures outputs.entries == old(outputs.entries)["Q" := q]
      ensures runoffVolRaster == Some(q)
      ensures precipRasterIn == old(precipRasterIn)
    {
      var cellAreaSqFeet := CellAreaSqFeet();
      var s := outputs.entries["S"];
      q := RunoffLitersRaster(precipRaster, s, rainyDays, cellAreaSqFeet);
      outputs.entries := outputs.entries["Q" := q];
      runoffVolRaster := Some(outputs.entries["Q"]);
    }

    /** As CalculateQ, but from the pre-processed precipitation in inches. */
    method CalculateQConverted() returns (q: Raster)
      requires precipRasterIn.Some?
      requires "S" in outputs.entries && |outputs.entries["S"]| == |precipRasterIn.value|
      requires NoZeroDenominator(precipRasterIn.value, outputs.entries["S"], rainyDays)
      modifies this, outputs
      ensures q == RunoffLitersRaster(old(precipRasterIn.value), old(outputs.entries["S"]), rainyDays, CellAreaSqFeet())
      ensures outputs.entries == old(outputs.entries)["Q" := q]
      ensures runoffVolRaster == Some(q)
      ensures precipRasterIn == old(precipRasterIn)
    {
      var cellAreaSqFeet := CellAreaSqFeet();
      var s := outputs.entries["S"];
      q := RunoffLitersRaster(precipRasterIn.value, s, rainyDays, cellAreaSqFeet);
      outputs.entries := outputs.entries["Q" := q];
      runoffVolRaster := Some(q);
    }
  }

  /**
   * The usual call order: pre-process, S, then Q, on a new instance over the
   * class-level dictionary `shared`, whatever earlier instances left in it.
   * The volume is computed from the raw precipitation and the instance's own
   * curve numbers, and `shared` then holds that instance's S and Q.
   */
  method RunoffForStorm(shared: SharedOutputs, p: Raster, cn: Raster, refSizeX: real, refSizeY: real,
                        refSqFeetPerUnit: real, precipUnits: int, rainyDays: int) returns (q: Raster)
    requires |cn| == |p| && NoZeroCell(cn)
    requires NoZeroDenominator(p, RetentionRaster(cn), rainyDays)
    modifies shared
    ensures q == RunoffLitersRaster(p, RetentionRaster(cn), rainyDays, refSizeY * refSizeX * refSqFeetPerUnit)
    ensures shared.entries ==
      (if precipUnits == PRECIP_UNITS_MILLIMETERS then old(shared.entries)["P" := PrecipitationInches(p, precipUnits)]
       else old(shared.entries))["S" := RetentionRaster(cn)]["Q" := q]
  {
    var rv := new RunoffVolume(shared, p, cn, refSizeX, refSizeY, refSqFeetPerUnit, precipUnits, rainyDays);
    rv.PreprocessPrecipitation();
    rv.CalculateS();
    assert shared.entries["S"] == RetentionRaster(cn);
    assert rv.CellAreaSqFeet() == refSizeY * refSizeX * refSqFeetPerUnit;
    assert rv.precipRaster == p && rv.rainyDays == rainyDays;
    q := rv.CalculateQ();
    assert q == RunoffLitersRaster(p, RetentionRaster(cn), rainyDays, rv.CellAreaSqFeet());
  }

  /**
   * The `outputs` dictionary belongs to the class, not to an instance: when a
   * second instance computes Q before computing its own S, it uses the
   * retention of the first instance's curve numbers.
   */
  method SharedRetentionAcrossInstances(p: Raster, cnFirst: Raster, cnSecond: Raster, rainyDays: int,
                                        refSqFeetPerUnit: real) returns (q: Raster)
    requires |cnFirst| == |p| && NoZeroCell(cnFirst)
    requires NoZeroDenominator(p, RetentionRaster(cnFirst), rainyDays)
    ensures q == RunoffLitersRaster(p, RetentionRaster(cnFirst), rainyDays, refSqFeetPerUnit)
  {
    var shared := new SharedOutputs();
    var first := new RunoffVolume(shared, p, cnFirst, 1.0, 1.0, refSqFeetPerUnit, 0, rainyDays);
    var second := new RunoffVolume(shared, p, cnSecond, 1.0, 1.0, refSqFeetPerUnit, 0, rainyDays);
    first.CalculateS();
    assert shared.entries["S"] == RetentionRaster(cnFirst);
    q := second.CalculateQ();
  }
}
