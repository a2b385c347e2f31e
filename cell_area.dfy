/**
 * Cell area of the elevation raster in square metres (`cell_size_in_sq_meters`,
 * identical in both copies of the erosion analysis).
 */
module CellArea {
  import opened Outcomes

  /**
   * The value of the raster CRS's map units, compared literally against the
   * four area-unit tags; any other value is an unrecognised tag.
   */
  datatype MapUnit =
    | AreaSquareMeters
    | AreaSquareKilometers
    | AreaSquareMiles
    | AreaSquareFeet
    | OtherUnit(tag: int)

  const SQ_METERS_PER_SQ_KILOMETER: real := 1000000.0
  const SQ_METERS_PER_SQ_MILE: real := 2589988.0
  const SQ_METERS_PER_SQ_FOOT: real := 0.09290304

  predicate Recognised(u: MapUnit)
  {
    !u.OtherUnit?
  }

  /** Square metres in one unit of area, for the four recognised units. */
  function SqMetersPerUnit(u: MapUnit): (f: real)
    requires Recognised(u)
    ensures f > 0.0
  {
    match u
    case AreaSquareMeters => 1.0
    case AreaSquareKilometers => SQ_METERS_PER_SQ_KILOMETER
    case AreaSquareMiles => SQ_METERS_PER_SQ_MILE
    case AreaSquareFeet => SQ_METERS_PER_SQ_FOOT
  }

  /**
   * Pixel width times pixel height, converted by the unit's factor; no value
   * (Python's implicit None) when the unit matches none of the four tags.
   */
  function CellSizeInSqMeters(sizeX: real, sizeY: real, units: MapUnit): (r: Option<real>)
    ensures r.Some? <==> Recognised(units)
    ensures r.Some? ==> r.value == sizeX * sizeY * SqMetersPerUnit(units)
  {
    var area := sizeX * sizeY;
    if units == AreaSquareMeters then Some(area)
    else if units == AreaSquareKilometers then Some(area * 1000000.0)
    else if units == AreaSquareMiles then Some(area * 2589988.0)
    else if units == AreaSquareFeet then Some(area * 0.09290304)
    else None
  }

  /** For a recognised unit the area is linear in the pixel width and in the pixel height. */
  lemma CellSizeLinear(sizeX: real, sizeY: real, units: MapUnit, k: real)
    requires Recognised(units)
    ensures CellSizeInSqMeters(k * sizeX, sizeY, units).value == k * CellSizeInSqMeters(sizeX, sizeY, units).value
    ensures CellSizeInSqMeters(sizeX, k * sizeY, units).value == k * CellSizeInSqMeters(sizeX, sizeY, units).value
  {
  }

  /** Positive pixel sizes in a recognised unit give a positive area. */
  lemma CellSizePositive(sizeX: real, sizeY: real, units: MapUnit)
    requires sizeX > 0.0 && sizeY > 0.0 && Recognised(units)
    ensures CellSizeInSqMeters(sizeX, sizeY, units).value > 0.0
  {
  }
}
