/**
 * Pulseq protocol insertion: copying the protocol header into the dataset
 * header, relabelling a raw acquisition with the counters, flags and
 * trajectory of the matching protocol acquisition, and the array skeleton of
 * the GIRF gradient prediction used to compute that trajectory.
 */
module PulseqProt {
  import opened Mrd

  /** Largest number_of_samples an ISMRMRD acquisition header can hold. */
  const MaxSamples: int := 65535

  /** Zero samples added on each side of the gradient before interpolation. */
  const PaddingSamples: nat := 10

  /** Gradient raster time dt_grad in seconds. */
  const GradRaster: real := 0.00001

  /** Trajectory dimensions of an extended acquisition: kx, ky, kz, time, k0. */
  const ExtendedTrajDims: nat := 5

  predicate Rectangular<T>(m: seq<seq<T>>, cols: nat)
  {
    forall i :: 0 <= i < |m| ==> |m[i]| == cols
  }

  // ---------------------------------------------------------------------
  // insert_hdr
  // ---------------------------------------------------------------------

  datatype HdrError = UserParamMissing | LimitMissing

  /**
   * Copy of one optional encoding limit: done only when the protocol has it,
   * and then the dataset header must have it too (otherwise the attribute
   * access fails).
   */
  function CopyLimit(dset: Option<Limit>, prot: Option<Limit>): (r: Result<Option<Limit>, HdrError>)
    ensures prot.None? ==> r == Success(dset)
    ensures prot.Some? ==> (r.Success? <==> dset.Some?)
    ensures r.Success? && prot.Some? ==> r.value == prot
  {
    if prot.None? then Success(dset)
    else if dset.None? then Failure(LimitMissing)
    else Success(prot)
  }

  /** The slice limit is copied unconditionally, so both sides must have one. */
  function CopySliceLimit(dset: Option<Limit>, prot: Option<Limit>): (r: Result<Option<Limit>, HdrError>)
    ensures r.Success? <==> dset.Some? && prot.Some?
    ensures r.Success? ==> r.value == prot
  {
    if dset.Some? && prot.Some? then Success(prot) else Failure(LimitMissing)
  }

  /**
   * insert_hdr: the protocol's user doubles overwrite the dataset's first
   * entries one by one, then trajectory, encoded and recon space and the
   * encoding limits are copied.
   */
  method InsertHdr(dset: Header, prot: Header) returns (r: Result<Header, HdrError>)
    ensures r.Failure? <==>
      || |dset.userDoubles| < |prot.userDoubles|
      || CopySliceLimit(dset.limits.slice, prot.limits.slice).Failure?
      || CopyLimit(dset.limits.step1, prot.limits.step1).Failure?
      || CopyLimit(dset.limits.average, prot.limits.average).Failure?
      || CopyLimit(dset.limits.phase, prot.limits.phase).Failure?
      || CopyLimit(dset.limits.contrast, prot.limits.contrast).Failure?
      || CopyLimit(dset.limits.segment, prot.limits.segment).Failure?
    ensures r.Success? ==>
      var h := r.value;
      && |h.userDoubles| == |dset.userDoubles|
      && h.userDoubles[..|prot.userDoubles|] == prot.userDoubles
      && h.userDoubles[|prot.userDoubles|..] == dset.userDoubles[|prot.userDoubles|..]
      && h.trajectory == prot.trajectory
      && h.encodedMatrix == prot.encodedMatrix && h.encodedFov == prot.encodedFov
      && h.reconMatrix == prot.reconMatrix && h.reconFov == prot.reconFov
      && h.limits.slice == prot.limits.slice
      && h.limits.step1 == (if prot.limits.step1.Some? then prot.limits.step1 else dset.limits.step1)
      && h.limits.average == (if prot.limits.average.Some? then prot.limits.average else dset.limits.average)
      && h.limits.phase == (if prot.limits.phase.Some? then prot.limits.phase else dset.limits.phase)
      && h.limits.contrast == (if prot.limits.contrast.Some? then prot.limits.contrast else dset.limits.contrast)
      && h.limits.segment == (if prot.limits.segment.Some? then prot.limits.segment else dset.limits.segment)
      && h.receiverChannels == dset.receiverChannels
  {
    var doubles := dset.userDoubles;
    var ix := 0;
    while ix < |prot.userDoubles|
      invariant 0 <= ix <= |prot.userDoubles| && ix <= |dset.userDoubles|
      invariant |doubles| == |dset.userDoubles|
      invariant doubles[..ix] == prot.userDoubles[..ix]
      invariant doubles[ix..] == dset.userDoubles[ix..]
    {
      if ix >= |dset.userDoubles| {
        return Failure(UserParamMissing);
      }
      doubles := doubles[ix := prot.userDoubles[ix]];
      ix := ix + 1;
    }
    var slice := CopySliceLimit(dset.limits.slice, prot.limits.slice);
    var step1 := CopyLimit(dset.limits.step1, prot.limits.step1);
    var average := CopyLimit(dset.limits.average, prot.limits.average);
    var phase := CopyLimit(dset.limits.phase, prot.limits.phase);
    var contrast := CopyLimit(dset.limits.contrast, prot.limits.contrast);
    var segment := CopyLimit(dset.limits.segment, prot.limits.segment);
    if slice.Failure? || step1.Failure? || average.Failure? || phase.Failure?
      || contrast.Failure? || segment.Failure?
    {
      return Failure(LimitMissing);
    }
    var limits := EncodingLimits(slice.value, step1.value, average.value, phase.value,
                                 contrast.value, segment.value);
    r := Success(dset.(userDoubles := doubles, trajectory := prot.trajectory,
                       encodedMatrix := prot.encodedMatrix, encodedFov := prot.encodedFov,
                       reconMatrix := prot.reconMatrix, reconFov := prot.reconFov,
                       limits := limits));
  }

  // ---------------------------------------------------------------------
  // insert_acq
  // ---------------------------------------------------------------------

  datatype InsertError =
    | SampleCountTooLarge   // nsamples_full > 65535
    | SegmentCountMissing   // neither a segment limit nor a third user double
    | ExtensionNegative     // nsamples_full < nsamples: zero padding of negative size
    | EmptyTrajectory       // max() over an empty protocol trajectory
    | TrajectoryShape       // trajectory columns that do not broadcast

  /** The updated acquisition and the base (nominal) trajectory, if one was produced. */
  datatype Inserted = Inserted(acq: Acquisition, base: Option<seq<seq<real>>>)

  /**
   * What calc_traj returns for a given number of ADC samples: the predicted
   * trajectory [samples][dims], the nominal trajectory and the k0 phase
   * [samples]. Its numerics (GIRF, rotation, integration, interpolation) are
   * supplied by the caller.
   */
  datatype TrajPrediction = TrajPrediction(pred: seq<seq<real>>, base: seq<seq<real>>, k0: seq<real>)

  /** The role flags, in the order insert_acq tests them. */
  const RoleOrder: seq<Flag> := [NoiseMeasurement, PhaseCorrData, DummyScanData, ParallelCalibration]

  /** Position of the first flag of order[from..] that is set, if any. */
  function FirstSet(order: seq<Flag>, flags: set<Flag>, from: nat): (r: Option<nat>)
    requires from <= |order|
    ensures r.None? <==> forall k :: from <= k < |order| ==> order[k] !in flags
    ensures r.Some? ==> from <= r.value < |order| && order[r.value] in flags
    ensures r.Some? ==> forall k :: from <= k < r.value ==> order[k] !in flags
    decreases |order| - from
  {
    if from == |order| then None
    else if order[from] in flags then Some(from)
    else FirstSet(order, flags, from + 1)
  }

  /** Position in RoleOrder of the first role flag set, if any. */
  function RoleIndex(flags: set<Flag>): Option<nat>
  {
    FirstSet(RoleOrder, flags, 0)
  }

  /** The flags insert_acq adds to the target: the last-in markers and the first role. */
  function AddedFlags(prot: Acquisition): set<Flag>
  {
    var last := prot.flags * {LastInSlice, LastInRepetition};
    var role := RoleIndex(prot.flags);
    if role.Some? then last + {RoleOrder[role.value]} else last
  }

  /** The target with the protocol's direction vectors, nine counters and flags. */
  function Relabel(target: Acquisition, prot: Acquisition): (a: Acquisition)
    ensures a.readDir == prot.readDir && a.phaseDir == prot.phaseDir && a.sliceDir == prot.sliceDir
    ensures a.position == target.position
    ensures a.idx == prot.idx.(user := target.idx.user)
    ensures a.flags == target.flags + AddedFlags(prot)
    ensures a.samples == target.samples && a.trajDims == target.trajDims
    ensures a.data == target.data && a.traj == target.traj
  {
    target.(readDir := prot.readDir, phaseDir := prot.phaseDir, sliceDir := prot.sliceDir,
            idx := prot.idx.(user := target.idx.user),
            flags := target.flags + AddedFlags(prot))
  }

  /** nsegments: the segment limit's maximum plus one, else user double 2. */
  function SegmentCount(hdr: Header): Option<real>
  {
    if hdr.limits.segment.Some? then Some((hdr.limits.segment.value.maximum + 1) as real)
    else if |hdr.userDoubles| > 2 then Some(hdr.userDoubles[2].value)
    else None
  }

  /** nsamples_full = int(nsamples*nsegments + 0.5). */
  function FullSampleCount(nsamples: nat, nsegments: real): int
  {
    TruncToInt(nsamples as real * nsegments + 0.5)
  }

  /** Each channel continued with zeros up to `full` samples. */
  function ExtendData(data: seq<seq<Complex>>, full: nat): (d: seq<seq<Complex>>)
    requires forall ch :: 0 <= ch < |data| ==> |data[ch]| <= full
    ensures |d| == |data| && Rectangular(d, full)
    ensures forall ch :: 0 <= ch < |d| ==> d[ch][..|data[ch]|] == data[ch]
    ensures forall ch, j :: 0 <= ch < |d| && |data[ch]| <= j < full ==> d[ch][j] == Zero
  {
    seq(|data|, ch requires 0 <= ch < |data| => data[ch] + Zeros(full - |data[ch]|))
  }

  /**
   * Assigning a row to trajectory columns 0..2: a row of three fits, a row of
   * one broadcasts, anything else does not.
   */
  function FitThree(row: seq<real>): (r: Option<seq<real>>)
    ensures r.Some? ==> |r.value| == 3
    ensures |row| == 3 ==> r == Some(row)
    ensures r.Some? <==> |row| == 1 || |row| == 3
  {
    if |row| == 3 then Some(row)
    else if |row| == 1 then Some([row[0], row[0], row[0]])
    else None
  }

  /** The first min(3, cols) columns of each row: numpy's traj[:, :3]. */
  function FirstThree(t: seq<seq<real>>): (r: seq<seq<real>>)
    ensures |r| == |t|
    ensures forall i :: 0 <= i < |t| ==> r[i] == (if |t[i]| <= 3 then t[i] else t[i][..3])
  {
    seq(|t|, i requires 0 <= i < |t| => if |t[i]| <= 3 then t[i] else t[i][..3])
  }

  predicate AnyAbove(t: seq<seq<real>>, bound: real)
  {
    exists i, j | 0 <= i < |t| && 0 <= j < |t[i]| :: t[i][j] > bound
  }

  /**
   * Choice between the protocol's own trajectory and calc_traj: the protocol
   * trajectory is taken when it has one row per extended sample and a value
   * above 1 in its first three columns. Result: the reco rows, the base
   * trajectory and the k0 column. The protocol branch never writes the k0
   * column; it keeps what ismrmrd's resize left there, taken here as zeros.
   */
  function ChooseTrajectory(prot: Acquisition, full: nat, calcTraj: nat -> TrajPrediction)
    : (r: Result<(seq<seq<real>>, seq<seq<real>>, seq<real>), InsertError>)
    requires Shaped(prot)
    ensures r.Success? ==> |r.value.0| == full && Rectangular(r.value.0, 3) && |r.value.2| == full
    ensures r.Success? && |prot.traj| == full && AnyAbove(FirstThree(prot.traj), 1.0) ==>
      r.value.1 == FirstThree(prot.traj) && forall i :: 0 <= i < full ==> r.value.2[i] == 0.0
    ensures r.Success? && !(|prot.traj| == full && AnyAbove(FirstThree(prot.traj), 1.0)) ==>
      r.value.1 == calcTraj(full).base && r.value.2 == calcTraj(full).k0
  {
    var reco := FirstThree(prot.traj);
    if |prot.traj| == full && (full == 0 || prot.trajDims == 0) then Failure(EmptyTrajectory)
    else
      var useProt := |prot.traj| == full && AnyAbove(reco, 1.0);
      var rows := if useProt then reco else calcTraj(full).pred;
      var k0 := if useProt then RealZeros(full) else calcTraj(full).k0;
      if |rows| != full || |k0| != full || exists i | 0 <= i < full :: FitThree(rows[i]).None? then
        Failure(TrajectoryShape)
      else
        var fitted := seq(full, i requires 0 <= i < full => FitThree(rows[i]).value);
        Success((fitted, if useProt then reco else calcTraj(full).base, k0))
  }

  /** Trajectory of the extended acquisition: reco kx/ky/kz, a zero time column and k0. */
  function ExtendedTraj(reco: seq<seq<real>>, k0: seq<real>): (t: seq<seq<real>>)
    requires |k0| == |reco| && Rectangular(reco, 3)
    ensures |t| == |reco| && Rectangular(t, ExtendedTrajDims)
    ensures forall i :: 0 <= i < |t| ==> t[i][..3] == reco[i] && t[i][3] == 0.0 && t[i][4] == k0[i]
  {
    seq(|reco|, i requires 0 <= i < |reco| => reco[i] + [0.0, k0[i]])
  }

  /**
   * The extension of a relabelled segment-0 imaging readout to the full
   * multi-segment sample count.
   */
  function Extend(a: Acquisition, prot: Acquisition, protHdr: Header, calcTraj: nat -> TrajPrediction)
    : (r: Result<Inserted, InsertError>)
    requires Shaped(a) && Shaped(prot)
    ensures r.Success? ==> SegmentCount(protHdr).Some?
    ensures r.Success? ==>
      var full := FullSampleCount(a.samples, SegmentCount(protHdr).value);
      && 0 <= full <= MaxSamples
      && var choice := ChooseTrajectory(prot, full, calcTraj);
      && choice.Success?
      && r.value.base == Some(choice.value.1)
      && r.value.acq.traj == ExtendedTraj(choice.value.0, choice.value.2)
  {
    var nseg := SegmentCount(protHdr);
    if nseg.None? then Failure(SegmentCountMissing)
    else
      var full := FullSampleCount(a.samples, nseg.value);
      if full > MaxSamples then Failure(SampleCountTooLarge)
      else if full < 0 then Failure(ExtensionNegative)
      else match ChooseTrajectory(prot, full, calcTraj)
        case Failure(e) => Failure(e)
        case Success((reco, base, k0)) =>
          if full < a.samples then Failure(ExtensionNegative)
          else
            Success(Inserted(
              a.(samples := full, trajDims := ExtendedTrajDims,
                 data := ExtendData(a.data, full), traj := ExtendedTraj(reco, k0)),
              Some(base)))
  }

  /** The target acquisition whose data were zero-extended to `full` samples. */
  ghost predicate ZeroExtended(a: Acquisition, target: Acquisition, full: int)
  {
    && Shaped(a) && target.samples <= full
    && a.samples == full && a.trajDims == ExtendedTrajDims
    && |a.data| == |target.data|
    && (forall ch :: 0 <= ch < |a.data| ==> a.data[ch][..target.samples] == target.data[ch])
    && (forall ch, j :: 0 <= ch < |a.data| && target.samples <= j < full ==> a.data[ch][j] == Zero)
    && (forall i :: 0 <= i < |a.traj| ==> a.traj[i][3] == 0.0)
  }

  /**
   * insert_acq: relabels `target` with the protocol acquisition `prot`; a
   * role-flagged record returns at once, and a non-Cartesian segment-0
   * imaging record is zero-extended to the full sample count of all its
   * segments and given its trajectory.
   */
  function InsertAcq(target: Acquisition, prot: Acquisition, protHdr: Header, noncartesian: bool,
                     calcTraj: nat -> TrajPrediction): (r: Result<Inserted, InsertError>)
    requires Shaped(target) && Shaped(prot)
    ensures r.Success? ==>
      && r.value.acq.readDir == prot.readDir && r.value.acq.phaseDir == prot.phaseDir
      && r.value.acq.sliceDir == prot.sliceDir && r.value.acq.position == target.position
      && r.value.acq.idx == prot.idx.(user := target.idx.user)
      && Shaped(r.value.acq)
    ensures r.Success? ==> r.value.acq.flags == target.flags + AddedFlags(prot)
    ensures r.Success? ==> (LastInSlice in r.value.acq.flags <==> LastInSlice in target.flags + prot.flags)
    ensures r.Success? ==> (LastInRepetition in r.value.acq.flags <==> LastInRepetition in target.flags + prot.flags)
    ensures RoleIndex(prot.flags).Some? || !noncartesian || prot.idx.segment != 0 ==>
      && r.Success? && r.value.base.None?
      && r.value.acq.data == target.data && r.value.acq.traj == target.traj
      && r.value.acq.samples == target.samples
    ensures r.Success? && r.value.base.Some? ==> noncartesian && prot.idx.segment == 0 && RoleIndex(prot.flags).None?
    ensures r.Failure? ==> noncartesian && prot.idx.segment == 0 && RoleIndex(prot.flags).None?
    ensures noncartesian && prot.idx.segment == 0 && RoleIndex(prot.flags).None? && SegmentCount(protHdr).Some? ==>
      var full := FullSampleCount(target.samples, SegmentCount(protHdr).value);
      && (full > MaxSamples ==> r == Failure(SampleCountTooLarge))
      && (r.Success? ==> r.value.base.Some? && ZeroExtended(r.value.acq, target, full))
      && (r.Success? ==>
            && 0 <= full
            && var choice := ChooseTrajectory(prot, full, calcTraj);
            && choice.Success?
            && r.value.base == Some(choice.value.1)
            && r.value.acq.traj == ExtendedTraj(choice.value.0, choice.value.2))
  {
    var a := Relabel(target, prot);
    if RoleIndex(prot.flags).Some? || !noncartesian || a.idx.segment != 0 then Success(Inserted(a, None))
    else Extend(a, prot, protHdr, calcTraj)
  }

  /**
   * The trajectory insert_acq gives an extended readout: five columns per
   * extended sample with a zero time column; the protocol's own trajectory
   * (then also the returned base) when it fits and exceeds 1, with zero k0,
   * or otherwise calc_traj's base and k0.
   */
  lemma InsertedTrajectory(target: Acquisition, prot: Acquisition, protHdr: Header, calcTraj: nat -> TrajPrediction)
    requires Shaped(target) && Shaped(prot) && prot.idx.segment == 0 && RoleIndex(prot.flags).None?
    requires InsertAcq(target, prot, protHdr, true, calcTraj).Success?
    ensures SegmentCount(protHdr).Some?
    ensures var r := InsertAcq(target, prot, protHdr, true, calcTraj).value;
      var full := FullSampleCount(target.samples, SegmentCount(protHdr).value);
      var fromProt := |prot.traj| == full && AnyAbove(FirstThree(prot.traj), 1.0);
      && 0 <= full && |r.acq.traj| == full
      && (forall i :: 0 <= i < full ==> |r.acq.traj[i]| == ExtendedTrajDims && r.acq.traj[i][3] == 0.0)
      && (fromProt ==> r.base == Some(FirstThree(prot.traj)) && forall i :: 0 <= i < full ==> r.acq.traj[i][4] == 0.0)
      && (!fromProt ==>
            && r.base == Some(calcTraj(full).base)
            && forall i :: 0 <= i < full ==> r.acq.traj[i][4] == calcTraj(full).k0[i])
  {
    var a := Relabel(target, prot);
    assert InsertAcq(target, prot, protHdr, true, calcTraj) == Extend(a, prot, protHdr, calcTraj);
  }

  // ---------------------------------------------------------------------
  // calc_traj: the array skeleton around the GIRF prediction
  // ---------------------------------------------------------------------

  /** numpy's swapaxes(traj, 0, 1): [samples][dims] to [dims][samples]. */
  function SwapAxes(m: seq<seq<real>>, cols: nat): (t: seq<seq<real>>)
    requires Rectangular(m, cols)
    ensures |t| == cols && Rectangular(t, |m|)
    ensures forall d, i :: 0 <= d < cols && 0 <= i < |m| ==> t[d][i] == m[i][d]
  {
    seq(cols, d requires 0 <= d < cols => seq(|m|, i requires 0 <= i < |m| => m[i][d]))
  }

  /** Ten zero samples before and after every gradient axis. */
  function PadGradient(grad: seq<seq<real>>): (p: seq<seq<real>>)
    ensures |p| == |grad|
    ensures forall d :: 0 <= d < |p| ==> |p[d]| == |grad[d]| + 2 * PaddingSamples
    ensures forall d, k :: 0 <= d < |p| && 0 <= k < |grad[d]| ==> p[d][k + PaddingSamples] == grad[d][k]
    ensures forall d, k :: 0 <= d < |p| && 0 <= k < |p[d]| && (k < PaddingSamples || k >= PaddingSamples + |grad[d]|) ==>
      p[d][k] == 0.0
  {
    seq(|grad|, d requires 0 <= d < |grad| =>
      seq(|grad[d]| + 2 * PaddingSamples, k requires 0 <= k < |grad[d]| + 2 * PaddingSamples =>
        if PaddingSamples <= k < PaddingSamples + |grad[d]| then grad[d][k - PaddingSamples] else 0.0))
  }

  /** gradtime = dt_grad * arange(n) + gradshift - 10*dt_grad, for the padded length n. */
  function GradTime(gradshift: real, n: nat): (t: seq<real>)
    ensures |t| == n
  {
    seq(n, i requires 0 <= i < n => GradRaster * i as real + (gradshift - PaddingSamples as real * GradRaster))
  }

  /**
   * Moving the time origin back by ten rasters keeps every original gradient
   * sample at its own time: padded sample k+10 is original sample k and sits
   * at gradshift + k*dt_grad.
   */
  lemma PaddingKeepsSampleTimes(grad: seq<seq<real>>, gradshift: real, d: nat, k: nat)
    requires d < |grad| && k < |grad[d]|
    ensures PadGradient(grad)[d][k + PaddingSamples] == grad[d][k]
    ensures GradTime(gradshift, |PadGradient(grad)[d]|)[k + PaddingSamples] == gradshift + GradRaster * k as real
  {
  }

  /** A two-dimensional gradient gets a zero third axis. */
  function WithZAxis(grad: seq<seq<real>>, samples: nat): (g: seq<seq<real>>)
    ensures |grad| == 2 ==> |g| == 3 && g[..2] == grad && g[2] == RealZeros(samples)
    ensures |grad| != 2 ==> g == grad
  {
    if |grad| == 2 then grad + [RealZeros(samples)] else grad
  }

  /** The nominal gradient handed to the prediction: [dims][samples+20], z added if 2-D. */
  function NominalGradient(prot: Acquisition): (g: seq<seq<real>>)
    requires Shaped(prot)
    ensures prot.trajDims == 2 ==> |g| == 3 && g[2] == RealZeros(prot.samples + 2 * PaddingSamples)
    ensures prot.trajDims != 2 ==> |g| == prot.trajDims
    ensures Rectangular(g, prot.samples + 2 * PaddingSamples)
  {
    var p := PadGradient(SwapAxes(prot.traj, prot.trajDims));
    WithZAxis(p, prot.samples + 2 * PaddingSamples)
  }

  /** kz = kspace_encode_step_2 - nz//2 on every sample. */
  function PartitionRow(enc2: u16, nz: nat, samples: nat): (row: seq<real>)
    ensures |row| == samples
  {
    seq(samples, _ => (enc2 - nz / 2) as real)
  }

  /** For a 2-D gradient, the predicted z row is replaced by the partition's constant kz. */
  function SetPartition(pred: seq<seq<real>>, dims: nat, enc2: u16, nz: nat, samples: nat): (p: seq<seq<real>>)
    requires |pred| == 3
    ensures |p| == 3 && p[..2] == pred[..2]
    ensures dims == 2 ==> |p[2]| == samples && forall i :: 0 <= i < samples ==> p[2][i] == (enc2 - nz / 2) as real
    ensures dims != 2 ==> p == pred
  {
    if dims == 2 then pred[2 := PartitionRow(enc2, nz, samples)] else pred
  }

  // ---------------------------------------------------------------------
  // grad_pred
  // ---------------------------------------------------------------------

  /** A row transform (the shifted FFT or IFFT along the last axis, or interpolation). */
  type RowTransform = seq<Complex> -> seq<Complex>

  ghost predicate LengthPreserving(f: RowTransform)
  {
    forall x :: |f(x)| == |x|
  }

  /** The GIRF array [input axis][output axis, k0 first][samples]. */
  predicate GirfShaped(girf: seq<seq<seq<Complex>>>, nOut: nat, len: nat)
  {
    forall i :: 0 <= i < |girf| ==> |girf[i]| == nOut && Rectangular(girf[i], len)
  }

  /** Rows shorter than `len` continued with zeros. */
  function PadRows(m: seq<seq<Complex>>, len: nat): (p: seq<seq<Complex>>)
    requires forall i :: 0 <= i < |m| ==> |m[i]| <= len
    ensures |p| == |m| && Rectangular(p, len)
    ensures forall i :: 0 <= i < |m| ==> p[i][..|m[i]|] == m[i]
    ensures forall i, k :: 0 <= i < |m| && |m[i]| <= k < len ==> p[i][k] == Zero
  {
    seq(|m|, i requires 0 <= i < |m| => m[i] + Zeros(len - |m[i]|))
  }

  function MapRows(m: seq<seq<Complex>>, f: RowTransform): (r: seq<seq<Complex>>)
    ensures |r| == |m| && forall i :: 0 <= i < |m| ==> r[i] == f(m[i])
  {
    seq(|m|, i requires 0 <= i < |m| => f(m[i]))
  }

  /** sum over input axes i < n of grad[i][k] * girf[i][dim][k]. */
  function AxisSum(g: seq<seq<Complex>>, girf: seq<seq<seq<Complex>>>, dim: nat, k: nat, n: nat): Complex
    requires n <= |g| && n <= |girf|
    requires forall i :: 0 <= i < n ==> k < |g[i]| && dim < |girf[i]| && k < |girf[i][dim]|
    decreases n
  {
    if n == 0 then Zero else Add(AxisSum(g, girf, dim, k, n - 1), Mul(g[n - 1][k], girf[n - 1][dim][k]))
  }

  /** One output axis: the per-frequency combination of the first n input axes. */
  function Combine(g: seq<seq<Complex>>, girf: seq<seq<seq<Complex>>>, dim: nat, n: nat, len: nat): (row: seq<Complex>)
    requires n <= |g| && n <= |girf| && Rectangular(g, len)
    requires forall i :: 0 <= i < n ==> dim < |girf[i]| && |girf[i][dim]| == len
    ensures |row| == len && forall k :: 0 <= k < len ==> row[k] == AxisSum(g, girf, dim, k, n)
  {
    seq(len, k requires 0 <= k < len => AxisSum(g, girf, dim, k, n))
  }

  /** The caller's GIRF arrays fit a gradient of `ndim` axes. */
  ghost predicate GirfFits(girf: seq<seq<seq<Complex>>>, ndim: nat)
  {
    && |girf| >= ndim && |girf| > 0 && |girf[0]| > ndim && |girf[0][0]| > 0
    && GirfShaped(girf, |girf[0]|, |girf[0][0]|)
  }

  /** The GIRF on the grid grad_pred uses: interpolated when the gradient is longer. */
  function AlignedGirf(girf: seq<seq<seq<Complex>>>, gradLen: nat, interp: (seq<Complex>, nat) -> seq<Complex>)
    : (a: seq<seq<seq<Complex>>>)
    requires GirfFits(girf, 0)
    requires forall x, n :: |interp(x, n)| == n
    ensures |a| == |girf| && GirfShaped(a, |girf[0]|, if gradLen > |girf[0][0]| then gradLen else |girf[0][0]|)
    ensures gradLen <= |girf[0][0]| ==> a == girf
  {
    if gradLen > |girf[0][0]| then
      seq(|girf|, i requires 0 <= i < |girf| =>
        seq(|girf[i]|, d requires 0 <= d < |girf[i]| => interp(girf[i][d], gradLen)))
    else girf
  }

  /**
   * The result grad_pred specifies: output axis dim (k0 first) is the inverse
   * transform of the per-frequency combination of all input axes (zero for
   * output axes past ndim), cut back to the gradient length.
   */
  function PredictedGradient(grad: seq<seq<Complex>>, girf: seq<seq<seq<Complex>>>,
                             fft: RowTransform, ifft: RowTransform,
                             interp: (seq<Complex>, nat) -> seq<Complex>): (p: seq<seq<Complex>>)
    requires |grad| > 0 && Rectangular(grad, |grad[0]|) && GirfFits(girf, |grad|)
    requires LengthPreserving(fft) && LengthPreserving(ifft) && forall x, n :: |interp(x, n)| == n
    ensures |p| == |girf[0]| && Rectangular(p, |grad[0]|)
  {
    var gradLen := |grad[0]|;
    var len := if gradLen > |girf[0][0]| then gradLen else |girf[0][0]|;
    var spectrum := MapRows(PadRows(grad, len), fft);
    var g := AlignedGirf(girf, gradLen, interp);
    seq(|girf[0]|, d requires 0 <= d < |girf[0]| => PredictedAxis(spectrum, g, d, |grad|, len, gradLen, ifft))
  }

  /** One output axis of the prediction, inverse-transformed and cut to `gradLen` samples. */
  function PredictedAxis(spectrum: seq<seq<Complex>>, girf: seq<seq<seq<Complex>>>, d: nat, ndim: nat,
                         len: nat, gradLen: nat, ifft: RowTransform): (row: seq<Complex>)
    requires ndim <= |spectrum| && ndim <= |girf| && |girf| > 0 && Rectangular(spectrum, len) && gradLen <= len
    requires d < |girf[0]| && GirfShaped(girf, |girf[0]|, len) && LengthPreserving(ifft)
    ensures |row| == gradLen
  {
    (if d <= ndim then ifft(Combine(spectrum, girf, d, ndim, len)) else ifft(Zeros(len)))[..gradLen]
  }

  /**
   * grad_pred: zero-fill or interpolate to a common length, transform,
   * combine the input axes into every output axis in a loop, transform back
   * and truncate.
   */
  method GradPred(grad: seq<seq<Complex>>, girf: seq<seq<seq<Complex>>>,
                  fft: RowTransform, ifft: RowTransform,
                  interp: (seq<Complex>, nat) -> seq<Complex>) returns (pred: seq<seq<Complex>>)
    requires |grad| > 0 && Rectangular(grad, |grad[0]|) && GirfFits(girf, |grad|)
    requires LengthPreserving(fft) && LengthPreserving(ifft) && forall x, n :: |interp(x, n)| == n
    ensures pred == PredictedGradient(grad, girf, fft, ifft, interp)
  {
    var ndim := |grad|;
    var gradLen := |grad[0]|;
    var girfLen := |girf[0][0]|;
    var g := grad;
    var response := girf;
    if girfLen > gradLen {
      g := PadRows(grad, girfLen);
    } else {
      forall i | 0 <= i < |grad|
        ensures PadRows(grad, gradLen)[i] == grad[i]
      {
        assert PadRows(grad, gradLen)[i][..gradLen] == grad[i];
      }
    }
    if gradLen > girfLen {
      response := AlignedGirf(girf, gradLen, interp);
    }
    var len := if gradLen > girfLen then gradLen else girfLen;
    assert g == PadRows(grad, len);
    assert response == AlignedGirf(girf, gradLen, interp);
    g := MapRows(g, fft);
    var nOut := |girf[0]|;
    var acc := seq(nOut, _ => Zeros(len));
    for dim := 0 to ndim + 1
      invariant |acc| == nOut
      invariant forall d :: 0 <= d < dim ==> acc[d] == Combine(g, response, d, ndim, len)
      invariant forall d :: dim <= d < nOut ==> acc[d] == Zeros(len)
    {
      acc := acc[dim := Combine(g, response, dim, ndim, len)];
    }
    pred := seq(nOut, d requires 0 <= d < nOut => ifft(acc[d])[..gradLen]);
    forall d | 0 <= d < nOut
      ensures pred[d] == PredictedAxis(g, response, d, ndim, len, gradLen, ifft)
    {
    }
  }

  /** An all-pass response: input axis i feeds output axis i+1 with unit gain. */
  ghost predicate AllPass(girf: seq<seq<seq<Complex>>>, ndim: nat)
  {
    forall i, d, k :: 0 <= i < ndim && 0 <= i < |girf| && 0 <= d < |girf[i]| && 0 <= k < |girf[i][d]| ==>
      girf[i][d][k] == (if d == i + 1 then Lift(1.0) else Zero)
  }

  lemma {:induction false} AxisSumAllPass(g: seq<seq<Complex>>, girf: seq<seq<seq<Complex>>>, j: nat, k: nat, n: nat)
    requires n <= |g| && n <= |girf| && j < |g|
    requires forall i :: 0 <= i < n ==> k < |g[i]| && j + 1 < |girf[i]| && k < |girf[i][j + 1]|
    requires AllPass(girf, n)
    ensures AxisSum(g, girf, j + 1, k, n) == (if j < n then g[j][k] else Zero)
    decreases n
  {
    if n > 0 {
      AxisSumAllPass(g, girf, j, k, n - 1);
    }
  }

  /**
   * With an all-pass GIRF no longer than the gradient's own grid and an
   * inverse transform that undoes the forward one, the predicted axis i+1 is
   * the nominal axis i: padding and truncation lose nothing.
   */
  lemma AllPassReproducesGradient(grad: seq<seq<Complex>>, girf: seq<seq<seq<Complex>>>,
                                  fft: RowTransform, ifft: RowTransform,
                                  interp: (seq<Complex>, nat) -> seq<Complex>, j: nat)
    requires |grad| > 0 && Rectangular(grad, |grad[0]|) && GirfFits(girf, |grad|)
    requires LengthPreserving(fft) && LengthPreserving(ifft) && forall x, n :: |interp(x, n)| == n
    requires forall x :: ifft(fft(x)) == x
    requires |girf[0][0]| >= |grad[0]| && AllPass(girf, |grad|)
    requires j < |grad|
    ensures PredictedGradient(grad, girf, fft, ifft, interp)[j + 1] == grad[j]
  {
    var len := |girf[0][0]|;
    var padded := PadRows(grad, len);
    var spectrum := MapRows(padded, fft);
    var c := Combine(spectrum, girf, j + 1, |grad|, len);
    forall k | 0 <= k < len
      ensures c[k] == spectrum[j][k]
    {
      AxisSumAllPass(spectrum, girf, j, k, |grad|);
    }
    assert c == fft(padded[j]);
    assert ifft(c) == padded[j];
    assert AlignedGirf(girf, |grad[0]|, interp) == girf;
    assert PredictedGradient(grad, girf, fft, ifft, interp)[j + 1]
        == PredictedAxis(spectrum, girf, j + 1, |grad|, len, |grad[0]|, ifft);
    assert padded[j][..|grad[0]|] == grad[j];
  }
}
