/**
 * Single-band rasters as sequences of exact real cells (row-major order).
 * Every raster expression of the pipeline is evaluated cell by cell, so a
 * stage is a function applied at each index of equally long sequences.
 */
module Rasters {

  type Raster = seq<real>

  /** A comparison used as a number inside a raster expression: 1 when it holds, 0 otherwise. */
  function Indicator(b: bool): (r: real)
  {
    if b then 1.0 else 0.0
  }

  /** Every cell multiplied by the constant `k`. */
  function Scale(a: Raster, k: real): (r: Raster)
    ensures |r| == |a|
    ensures forall i :: 0 <= i < |a| ==> r[i] == k * a[i]
  {
    seq(|a|, i requires 0 <= i < |a| => k * a[i])
  }
}
