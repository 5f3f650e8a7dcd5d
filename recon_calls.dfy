/**
 * The reconstruction helpers the pipelines call but that are not part of this
 * model (prewhitening estimation and application, coil calibration, BART and
 * PowerGrid reconstructions). Helpers whose output the pipelines only store
 * and pass on are represented by tokens that record their inputs; helpers
 * that transform sample data are function-typed parameters.
 */
module ReconCalls {
  import opened Mrd

  /** calculate_prewhitening: the decorrelation matrix, as the noise readouts it was estimated from. */
  datatype Prewhitening = Prewhitening(noise: seq<Acquisition>)

  /** apply_prewhitening(data, dmtx). */
  type Whitening = (seq<seq<Complex>>, Prewhitening) -> seq<seq<Complex>>

  /** Whitening keeps the [channel][sample] shape of the data it is applied to. */
  ghost predicate ShapePreserving(w: Whitening)
  {
    forall d, p :: |w(d, p)| == |d| && forall ch :: 0 <= ch < |d| ==> |w(d, p)[ch]| == |d[ch]|
  }

  /** Data of one readout with optional prewhitening. */
  function Whitened(data: seq<seq<Complex>>, dmtx: Option<Prewhitening>, w: Whitening): (d: seq<seq<Complex>>)
    ensures dmtx.None? ==> d == data
    ensures ShapePreserving(w) ==> |d| == |data| && forall ch :: 0 <= ch < |d| ==> |d[ch]| == |data[ch]|
  {
    if dmtx.Some? then w(data, dmtx.value) else data
  }

  /**
   * A coil sensitivity map: from a calibration (ACS) scan processed by
   * process_acs, or estimated from the imaging data by sens_from_raw.
   */
  datatype SensMap =
    | Calibrated(acs: seq<Acquisition>, dmtx: Option<Prewhitening>)
    | FromRaw(group: seq<Acquisition>)
}
