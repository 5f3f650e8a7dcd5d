/**
 * The ISMRMRD data model shared by every reconstruction pipeline: acquisition
 * records with their flags and encoding counters, the protocol header, complex
 * samples, and the small pieces of Python/numpy semantics (integer truncation,
 * negative indices) that the pipelines rely on.
 */
module Mrd {

  /** An ISMRMRD header field stored as an unsigned 16-bit integer. */
  type u16 = x: int | 0 <= x < 0x1_0000

  datatype Option<+T> = None | Some(value: T)

  datatype Result<+T, +E> = Success(value: T) | Failure(error: E)

  /** A complex sample; numpy's complex64 rounding is not modelled. */
  datatype Complex = Complex(re: real, im: real)

  const Zero: Complex := Complex(0.0, 0.0)

  function Add(a: Complex, b: Complex): Complex
  {
    Complex(a.re + b.re, a.im + b.im)
  }

  function Mul(a: Complex, b: Complex): Complex
  {
    Complex(a.re * b.re - a.im * b.im, a.re * b.im + a.im * b.re)
  }

  /** Division of a complex sample by a non-zero real divisor. */
  function DivReal(a: Complex, k: real): Complex
    requires k != 0.0
  {
    Complex(a.re / k, a.im / k)
  }

  /** A real value as a complex sample with zero imaginary part. */
  function Lift(r: real): Complex
  {
    Complex(r, 0.0)
  }

  function Zeros(n: nat): (z: seq<Complex>)
    ensures |z| == n && forall i :: 0 <= i < n ==> z[i] == Zero
  {
    seq(n, _ => Zero)
  }

  function RealZeros(n: nat): (z: seq<real>)
    ensures |z| == n && forall i :: 0 <= i < n ==> z[i] == 0.0
  {
    seq(n, _ => 0.0)
  }

  /** The acquisition flags the pipelines test (ISMRMRD ACQ_* bits). */
  datatype Flag =
    | LastInSlice
    | LastInRepetition
    | LastInMeasurement
    | NoiseMeasurement
    | ParallelCalibration
    | PhaseCorrData
    | DummyScanData
    | SurfaceCoilCorrectionScanData

  datatype Vec3 = Vec3(x: real, y: real, z: real)

  /** ISMRMRD encoding counters: nine named counters and the user counters. */
  datatype Counters = Counters(
    step1: u16, step2: u16, slice: u16, contrast: u16, phase: u16,
    average: u16, repetition: u16, setIndex: u16, segment: u16,
    user: seq<u16>)

  /**
   * One readout. `data` is [channel][sample], `traj` is [sample][dimension];
   * `samples` is the number_of_samples header field and `trajDims` the
   * trajectory_dimensions header field.
   */
  datatype Acquisition = Acquisition(
    flags: set<Flag>,
    idx: Counters,
    readDir: Vec3, phaseDir: Vec3, sliceDir: Vec3, position: Vec3,
    samples: u16,
    trajDims: nat,
    data: seq<seq<Complex>>,
    traj: seq<seq<real>>)

  predicate Has(a: Acquisition, f: Flag)
  {
    f in a.flags
  }

  /** The shape ISMRMRD keeps for a record: data is channels x samples, traj is samples x trajDims. */
  predicate Shaped(a: Acquisition)
  {
    && (forall ch :: 0 <= ch < |a.data| ==> |a.data[ch]| == a.samples)
    && |a.traj| == a.samples
    && (forall i :: 0 <= i < |a.traj| ==> |a.traj[i]| == a.trajDims)
  }

  /** Every readout's data and trajectory have the shape its header declares. */
  predicate AllShaped(group: seq<Acquisition>)
  {
    forall k :: 0 <= k < |group| ==> Shaped(group[k])
  }

  /** min/max/center of one ISMRMRD encoding limit. */
  datatype Limit = Limit(minimum: int, maximum: int, center: int)

  datatype EncodingLimits = EncodingLimits(
    slice: Option<Limit>,
    step1: Option<Limit>,
    average: Option<Limit>,
    phase: Option<Limit>,
    contrast: Option<Limit>,
    segment: Option<Limit>)

  datatype MatrixSize = MatrixSize(x: nat, y: nat, z: nat)

  datatype UserParam = UserParam(name: string, value: real)

  /** The part of the ISMRMRD XML header the pipelines read or overwrite. */
  datatype Header = Header(
    userDoubles: seq<UserParam>,
    trajectory: string,
    encodedMatrix: MatrixSize,
    encodedFov: Vec3,
    reconMatrix: MatrixSize,
    reconFov: Vec3,
    limits: EncodingLimits,
    receiverChannels: nat)

  /** Python's int() on a float: truncation toward zero. */
  function TruncToInt(x: real): (n: int)
    ensures x >= 0.0 ==> n as real <= x < n as real + 1.0
    ensures x < 0.0 ==> n as real - 1.0 < x <= n as real
  {
    if x >= 0.0 then x.Floor else -((-x).Floor)
  }

  /**
   * numpy indexing of an axis of length n: indices in [-n, 0) count from the
   * end, anything outside [-n, n) raises IndexError (None here).
   */
  function PyIndex(i: int, n: nat): (r: Option<nat>)
    ensures r.Some? <==> -(n as int) <= i < n
    ensures r.Some? ==> r.value < n && (r.value == i || r.value == i + n)
  {
    if 0 <= i < n then Some(i) else if -(n as int) <= i < 0 then Some(i + n) else None
  }
}
