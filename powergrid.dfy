/**
 * The PowerGrid spiral pipeline (powergrid_pulseq.py, process()): every record
 * goes through insert_acq with a non-Cartesian protocol; noise readouts feed a
 * one-time prewhitening estimate; phase-correction readouts are collected as
 * navigators and dummy readouts dropped; calibration readouts are buffered per
 * slice and calibrated on the slice's last one; imaging readouts are buffered
 * per [slice][contrast], later ADC segments are spliced into the segment-0
 * readout, and the completed readout is whitened, FOV-corrected, filtered and
 * phase-corrected in place. A record that closes a slice or repetition fills a
 * missing map from the raw data; one that closes the measurement submits all
 * buffers to PowerGrid. Data left at the end of the stream is dropped.
 */
module PowerGridRouter {
  import opened Mrd
  import opened ReconCalls
  import opened Routing
  import PulseqProt
  import SpiralSort
  import KSpaceSort

  /** A [channel][sample] readout. */
  type Readout = seq<seq<Complex>>

  /** The protocol's 'Directions' array: one diffusion direction per contrast after the first. */
  type Directions = seq<seq<real>>

  /** The unwrapped global phase derived from the navigators. */
  type NavPhase = seq<seq<real>>

  /**
   * What process() derives before its loop and the helpers it calls:
   * nSlc, nContr and nSegments are the encoding limits' slice, contrast and
   * segment maxima plus one; tMin and dwell the first sample time and the
   * dwell time [s]; dirs the 'Directions' protocol array if present. The
   * functions are insert_acq with the protocol file, apply_prewhitening,
   * fov_shift_spiral_reapply (given the buffered data, the segment-0 record
   * its predicted trajectory, rotation and shift come from, and the base
   * trajectory), filt_ksp, the navigator stacking and unwrapping, the
   * global phase correction, the sort inside sens_from_raw, and the
   * sort_into_kspace (recentred) inside process_acs.
   */
  datatype Config = Config(
    nSlc: nat, nContr: nat, nSegments: int, tMin: real, dwell: real, dirs: Option<Directions>,
    insert: (Acquisition, Acquisition) -> Result<PulseqProt.Inserted, PulseqProt.InsertError>,
    whiten: Whitening,
    reapply: (Readout, Acquisition, Option<seq<seq<real>>>) -> Readout,
    filt: (Readout, seq<seq<real>>) -> Readout,
    navPhase: seq<Readout> -> Option<NavPhase>,
    globalPhase: (Readout, NavPhase, Directions, nat) -> Option<Readout>,
    rawSort: seq<Acquisition> -> Result<SpiralSort.Sorted, SpiralSort.SortError>,
    acsSort: KSpaceSort.KSpaceSorter)

  /** The protocol insertion hands back a well-shaped record for a well-shaped one. */
  ghost predicate InsertKeepsShape(cfg: Config)
  {
    forall t, p :: Shaped(t) && Shaped(p) && cfg.insert(t, p).Success? ==> Shaped(cfg.insert(t, p).value.acq)
  }

  /**
   * The pipeline's own helpers: insert_acq(noncartesian=True) against the
   * protocol header, the sort_spiral_data of this file inside sens_from_raw,
   * and this file's sort_into_kspace, recentred, on the dataset header hdr
   * inside process_acs.
   */
  function Configure(c: Config, protHdr: Header, hdr: Header, calcTraj: nat -> PulseqProt.TrajPrediction)
    : (cfg: Config)
    ensures cfg == c.(insert := cfg.insert, rawSort := cfg.rawSort, acsSort := cfg.acsSort)
    ensures forall t, p :: Shaped(t) && Shaped(p) ==>
      cfg.insert(t, p) == PulseqProt.InsertAcq(t, p, protHdr, true, calcTraj)
    ensures forall g :: AllShaped(g) ==> cfg.rawSort(g) == SpiralSort.PowerGridSorted(g)
    ensures forall g, d ::
      cfg.acsSort(g, d) == KSpaceSort.KSpaceOf(g, KSpaceSort.PowerGridGeometry(hdr.encodedMatrix), hdr.receiverChannels, d, c.whiten, true)
    ensures InsertKeepsShape(cfg)
  {
    c.(insert := (t, p) =>
         if Shaped(t) && Shaped(p) then PulseqProt.InsertAcq(t, p, protHdr, true, calcTraj)
         else Failure(PulseqProt.TrajectoryShape),
       rawSort := g => if AllShaped(g) then SpiralSort.PowerGridSorted(g) else Failure(SpiralSort.Ragged),
       acsSort := (g, d) =>
         KSpaceSort.KSpaceOf(g, KSpaceSort.PowerGridGeometry(hdr.encodedMatrix), hdr.receiverChannels, d, c.whiten, true))
  }

  /** phs: not yet seen, a list of navigator readouts, or the array derived from it. */
  datatype Nav = NoNav | Collecting(records: seq<Readout>) | Converted(phase: NavPhase)

  /** One call of process_raw: the [slice][contrast] buffers and the maps as they stand. */
  datatype Job = Job(acq: seq<seq<seq<Acquisition>>>, sensmaps: seq<Option<SensMap>>)

  /** noiseGroup, dmtx, phs and base_trj: what the records before the imaging branch update. */
  datatype Ctx = Ctx(
    noise: seq<Acquisition>,
    dmtx: Option<Prewhitening>,
    nav: Nav,
    base: Option<seq<seq<real>>>)

  /**
   * acsGroup, sensmaps, acqGroup, the segment-0 record that pred_trj, rotmat
   * and shift were last taken from, and the jobs submitted so far.
   */
  datatype Buffers = Buffers(
    acs: seq<seq<Acquisition>>,
    sensmaps: seq<Option<SensMap>>,
    acq: seq<seq<seq<Acquisition>>>,
    seg0: Option<Acquisition>,
    jobs: seq<Job>)

  /** The local state of process(). */
  datatype State = State(ctx: Ctx, buf: Buffers)

  /** The buffers process() allocates: one per slice, and one per slice and contrast. */
  function Init(cfg: Config): (s: State)
    ensures |s.buf.acs| == cfg.nSlc && |s.buf.sensmaps| == cfg.nSlc && |s.buf.acq| == cfg.nSlc
    ensures forall sl :: 0 <= sl < cfg.nSlc ==>
      s.buf.acs[sl] == [] && s.buf.sensmaps[sl].None? && |s.buf.acq[sl]| == cfg.nContr
      && forall c :: 0 <= c < cfg.nContr ==> s.buf.acq[sl][c] == []
    ensures s.ctx == Ctx([], None, NoNav, None) && s.buf.seg0.None? && s.buf.jobs == []
  {
    State(Ctx([], None, NoNav, None),
          Buffers(seq(cfg.nSlc, _ => []), seq(cfg.nSlc, _ => None), seq(cfg.nSlc, _ => seq(cfg.nContr, _ => [])), None, []))
  }

  /**
   * traj[:, 3] = t_min + dwelltime * arange(nsamples): column 3 of sample i
   * becomes its acquisition time, every other trajectory entry and the
   * data stay as they were.
   */
  function WithTime(a: Acquisition, tMin: real, dwell: real): (t: Acquisition)
    requires Shaped(a) && a.trajDims >= 4
    ensures Shaped(t) && t == a.(traj := t.traj) && |t.traj| == |a.traj|
    ensures forall i, d :: 0 <= i < |t.traj| && 0 <= d < t.trajDims ==>
      t.traj[i][d] == if d == 3 then tMin + dwell * i as real else a.traj[i][d]
  {
    a.(traj := seq(|a.traj|, i requires 0 <= i < |a.traj| => a.traj[i][3 := tMin + dwell * i as real]))
  }

  /** A phase-correction readout joins the navigator list; appending to the converted array raises. */
  function Collected(nav: Nav, a: Acquisition): Result<Nav, RouteError>
  {
    match nav
    case NoNav => Success(Collecting([a.data]))
    case Collecting(r) => Success(Collecting(r + [a.data]))
    case Converted(_) => Failure(NavigatorAppend)
  }

  /** `if type(phs) == list`: the navigator list becomes the phase array before any other record. */
  function ConvertedNav(cfg: Config, nav: Nav): Result<Nav, RouteError>
  {
    match nav
    case Collecting(r) =>
      (match cfg.navPhase(r)
       case None => Failure(NavigatorShape)
       case Some(p) => Success(Converted(p)))
    case _ => Success(nav)
  }

  /**
   * A calibration readout joins its slice's buffer; the slice's last one
   * calibrates the slice's map and empties the buffer; process_acs raises
   * when its k-space sort does.
   */
  function CalibrationStep(cfg: Config, dmtx: Option<Prewhitening>, b: Buffers, a: Acquisition)
    : (r: Result<Buffers, RouteError>)
    ensures r.Success? ==> r.value == b.(acs := r.value.acs, sensmaps := r.value.sensmaps)
  {
    var sl := a.idx.slice as nat;
    if sl >= |b.acs| then Failure(SliceOutOfRange)
    else
      var acs := b.acs[sl := b.acs[sl] + [a]];
      if !Has(a, LastInSlice) then Success(b.(acs := acs))
      else if sl >= |b.sensmaps| then Failure(SliceOutOfRange)
      else
        var m := ProcessAcs(acs[sl], dmtx, cfg.acsSort(acs[sl], dmtx));
        if m.Failure? then Failure(m.error)
        else Success(b.(sensmaps := b.sensmaps[sl := m.value], acs := acs[sl := []]))
  }

  /** The [slice][contrast] list a readout belongs to exists. */
  predicate Listed(b: Buffers, a: Acquisition)
  {
    a.idx.slice as nat < |b.acq| && a.idx.contrast as nat < |b.acq[a.idx.slice]|
  }

  /**
   * ADC segments: a segment-0 readout gets its sample times and is appended
   * to its [slice][contrast] list (and is the record the FOV correction reads
   * from); a later segment is spliced into that list's last readout.
   */
  function Placed(cfg: Config, b: Buffers, a: Acquisition): (r: Result<Buffers, RouteError>)
    requires Shaped(a) && Listed(b, a)
    ensures r.Success? ==>
      && r.value == b.(acq := r.value.acq, seg0 := r.value.seg0)
      && OnlyListChanged(b.acq, r.value.acq, a.idx.slice as nat, a.idx.contrast as nat)
      && |r.value.acq[a.idx.slice][a.idx.contrast]| > 0
  {
    var sl := a.idx.slice as nat;
    var c := a.idx.contrast as nat;
    var lst := b.acq[sl][c];
    if a.idx.segment == 0 then
      if a.trajDims < 4 then Failure(NoTimeColumn)
      else
        var t := WithTime(a, cfg.tMin, cfg.dwell);
        Success(b.(acq := b.acq[sl := b.acq[sl][c := lst + [t]]], seg0 := Some(t)))
    else if |lst| == 0 then Failure(NoOpenReadout)
    else
      var e := Splice(lst[|lst| - 1], a);
      if e.None? then Failure(SegmentShape)
      else Success(b.(acq := b.acq[sl := b.acq[sl][c := ReplaceLast(lst, e.value)]]))
  }

  /**
   * The global phase correction of a later contrast: the navigator phase
   * projected on the contrast's direction multiplies the readout in place.
   * phs is None when no navigator arrived, and 'dirs' is unbound when the
   * protocol has no 'Directions' array; both raise.
   */
  function PhaseCorrected(cfg: Config, nav: Nav, e: Acquisition, c: nat): (r: Result<Acquisition, RouteError>)
    ensures r.Success? ==> r.value == e.(data := r.value.data) && |r.value.data| == |e.data|
    ensures r.Success? ==> forall ch :: 0 <= ch < |e.data| ==> |r.value.data[ch]| == |e.data[ch]|
  {
    if c == 0 then Success(e)
    else if !nav.Converted? then Failure(NoNavigators)
    else if cfg.dirs.None? then Failure(NoDirections)
    else
      var d := cfg.globalPhase(e.data, nav.phase, cfg.dirs.value, c);
      if d.None? then Failure(SegmentShape)
      else
        var e2 := WriteAll(e, d.value);
        if e2.None? then Failure(SegmentShape) else Success(e2.value)
  }

  /**
   * The last segment completes the readout: its own buffered data, whitened
   * when a matrix exists, is FOV-corrected with the segment-0 prediction,
   * filtered with its trajectory, written back, and phase-corrected.
   */
  function Finished(cfg: Config, ctx: Ctx, b: Buffers, a: Acquisition): (r: Result<Buffers, RouteError>)
    requires Listed(b, a) && |b.acq[a.idx.slice][a.idx.contrast]| > 0
    ensures r.Success? ==>
      && r.value == b.(acq := r.value.acq)
      && OnlyListChanged(b.acq, r.value.acq, a.idx.slice as nat, a.idx.contrast as nat)
      && |r.value.acq[a.idx.slice][a.idx.contrast]| == |b.acq[a.idx.slice][a.idx.contrast]|
  {
    var sl := a.idx.slice as nat;
    var c := a.idx.contrast as nat;
    var lst := b.acq[sl][c];
    var entry := lst[|lst| - 1];
    if b.seg0.None? then Failure(NoSegmentZero)
    else
      var data := cfg.filt(cfg.reapply(Whitened(entry.data, ctx.dmtx, cfg.whiten), b.seg0.value, ctx.base), entry.traj);
      var e1 := WriteAll(entry, data);
      if e1.None? then Failure(SegmentShape)
      else
        var e2 := PhaseCorrected(cfg, ctx.nav, e1.value, c);
        if e2.Failure? then Failure(e2.error)
        else Success(b.(acq := b.acq[sl := b.acq[sl][c := ReplaceLast(lst, e2.value)]]))
  }

  /**
   * The last-segment branch as written: without a prewhitening matrix the
   * data are read from `acqGroup[slice][-1]`, which is the list of the last
   * contrast, and `.data` on a list raises AttributeError.
   */
  function FinishedAsWritten(cfg: Config, ctx: Ctx, b: Buffers, a: Acquisition): (r: Result<Buffers, RouteError>)
    requires Listed(b, a) && |b.acq[a.idx.slice][a.idx.contrast]| > 0
    ensures ctx.dmtx.Some? ==> r == Finished(cfg, ctx, b, a)
  {
    if ctx.dmtx.None? then Failure(ListHasNoData) else Finished(cfg, ctx, b, a)
  }

  /** A slice or repetition closes: a missing map is estimated from the readouts just completed. */
  function Completed(cfg: Config, b: Buffers, a: Acquisition): (r: Result<Buffers, RouteError>)
    requires Listed(b, a)
    ensures r.Success? ==> r.value == b.(sensmaps := r.value.sensmaps) && |r.value.sensmaps| == |b.sensmaps|
  {
    var sl := a.idx.slice as nat;
    var c := a.idx.contrast as nat;
    if !(Has(a, LastInSlice) || Has(a, LastInRepetition)) then Success(b)
    else if sl >= |b.sensmaps| then Failure(SliceOutOfRange)
    else if b.sensmaps[sl].Some? then Success(b)
    else if cfg.rawSort(b.acq[sl][c]).Failure? then Failure(SortFailed)
    else Success(b.(sensmaps := b.sensmaps[sl := Some(FromRaw(b.acq[sl][c]))]))
  }

  /** The last record of the measurement hands every buffer to process_raw. */
  function Submitted(b: Buffers, a: Acquisition): Buffers
  {
    if Has(a, LastInMeasurement) then b.(jobs := b.jobs + [Job(b.acq, b.sensmaps)]) else b
  }

  /** An imaging readout: placed, completed on its last segment, then the slice and measurement flags. */
  function Imaging(cfg: Config, ctx: Ctx, b: Buffers, a: Acquisition): (r: Result<Buffers, RouteError>)
    requires Shaped(a)
    ensures r.Success? ==> r.value.acs == b.acs
  {
    if a.idx.slice as nat >= |b.acq| then Failure(SliceOutOfRange)
    else if a.idx.contrast as nat >= |b.acq[a.idx.slice]| then Failure(ContrastOutOfRange)
    else
      var p := Placed(cfg, b, a);
      if p.Failure? then p
      else
        var f := if a.idx.segment as int == cfg.nSegments - 1 then Finished(cfg, ctx, p.value, a) else p;
        if f.Failure? then f
        else
          var m := Completed(cfg, f.value, a);
          if m.Failure? then m else Success(Submitted(m.value, a))
  }

  /**
   * The part of one iteration before the slice check, for an inserted
   * record: the context after it, and whether the record goes on to the
   * calibration or imaging branch (noise, navigator and dummy readouts stop).
   */
  function Admitted(cfg: Config, ctx: Ctx, ins: PulseqProt.Inserted): Result<(Ctx, bool), RouteError>
  {
    var a := ins.acq;
    var c0 := ctx.(base := if ins.base.Some? then ins.base else ctx.base);
    if Has(a, NoiseMeasurement) then Success((c0.(noise := c0.noise + [a]), false))
    else
      var w := Prewhiten(c0.noise, c0.dmtx, true);
      var c1 := c0.(noise := w.0, dmtx := w.1);
      if Has(a, PhaseCorrData) then
        var n := Collected(c1.nav, a);
        if n.Failure? then Failure(n.error) else Success((c1.(nav := n.value), false))
      else if Has(a, DummyScanData) then Success((c1, false))
      else
        var n := ConvertedNav(cfg, c1.nav);
        if n.Failure? then Failure(n.error) else Success((c1.(nav := n.value), true))
  }

  /** One iteration of the routing loop for one raw record and its protocol record. */
  function Step(cfg: Config, s: State, item: Acquisition, prot: Acquisition): Result<State, RouteError>
    requires InsertKeepsShape(cfg) && Shaped(item) && Shaped(prot)
  {
    var r := cfg.insert(item, prot);
    if r.Failure? then Failure(InsertFailed)
    else
      var a := r.value.acq;
      var adm := Admitted(cfg, s.ctx, r.value);
      if adm.Failure? then Failure(adm.error)
      else if !adm.value.1 then Success(State(adm.value.0, s.buf))
      else
        var ctx := adm.value.0;
        var b := if Has(a, ParallelCalibration) then CalibrationStep(cfg, ctx.dmtx, s.buf, a) else Imaging(cfg, ctx, s.buf, a);
        if b.Failure? then Failure(b.error) else Success(State(ctx, b.value))
  }

  /** The state after the first `i` records (the protocol must hold a record for each). */
  function RunTo(cfg: Config, s0: State, items: seq<Acquisition>, prots: seq<Acquisition>, i: nat)
    : Result<State, RouteError>
    requires i <= |items| && AllShaped(items) && AllShaped(prots) && InsertKeepsShape(cfg)
  {
    if i == 0 then Success(s0)
    else match RunTo(cfg, s0, items, prots, i - 1)
      case Failure(e) => Failure(e)
      case Success(s) => if i - 1 < |prots| then Step(cfg, s, items[i - 1], prots[i - 1]) else Failure(InsertFailed)
  }

  /** Once a record raises, the loop is over: every longer prefix ends in the same exception. */
  lemma {:induction false} RunStopsAtFailure(cfg: Config, s0: State, items: seq<Acquisition>, prots: seq<Acquisition>,
                                             i: nat, j: nat)
    requires i <= j <= |items| && AllShaped(items) && AllShaped(prots) && InsertKeepsShape(cfg)
    requires RunTo(cfg, s0, items, prots, i).Failure?
    ensures RunTo(cfg, s0, items, prots, j) == RunTo(cfg, s0, items, prots, i)
    decreases j
  {
    if j > i {
      RunStopsAtFailure(cfg, s0, items, prots, i, j - 1);
    }
  }

  /**
   * A whole connection: the routing loop over every record. The loop
   * variable `item` is read after the loop, which raises when the stream had
   * no record; untriggered data is dropped.
   */
  function Outcome(cfg: Config, items: seq<Acquisition>, prots: seq<Acquisition>): Result<State, RouteError>
    requires AllShaped(items) && AllShaped(prots) && InsertKeepsShape(cfg)
  {
    if |items| == 0 then Failure(NoRecords) else RunTo(cfg, Init(cfg), items, prots, |items|)
  }

  /**
   * A connection without records raises; any other ends in the state the
   * loop reaches, and its untriggered data is not reconstructed.
   */
  lemma EmptyStreamRaises(cfg: Config, items: seq<Acquisition>, prots: seq<Acquisition>)
    requires AllShaped(items) && AllShaped(prots) && InsertKeepsShape(cfg)
    ensures |items| == 0 ==> Outcome(cfg, items, prots) == Failure(NoRecords)
    ensures |items| > 0 ==> Outcome(cfg, items, prots) == RunTo(cfg, Init(cfg), items, prots, |items|)
  {
  }

  // ---------------------------------------------------------------------
  // Properties of one routing step
  // ---------------------------------------------------------------------

  /**
   * A noise readout only joins the noise buffer. The first other record
   * after buffered noise estimates the matrix from all of it and empties the
   * buffer; an existing matrix is never replaced.
   */
  lemma NoiseAndPrewhitening(cfg: Config, s: State, item: Acquisition, prot: Acquisition)
    requires InsertKeepsShape(cfg) && Shaped(item) && Shaped(prot)
    requires Step(cfg, s, item, prot).Success?
    ensures var a := cfg.insert(item, prot).value.acq; var t := Step(cfg, s, item, prot).value;
      && (Has(a, NoiseMeasurement) ==>
            t.ctx.noise == s.ctx.noise + [a] && t.ctx.dmtx == s.ctx.dmtx && t.ctx.nav == s.ctx.nav && t.buf == s.buf)
      && (!Has(a, NoiseMeasurement) && s.ctx.dmtx.None? && |s.ctx.noise| > 0 ==>
            t.ctx.dmtx == Some(Prewhitening(s.ctx.noise)) && t.ctx.noise == [])
      && (s.ctx.dmtx.Some? ==> t.ctx.dmtx == s.ctx.dmtx)
      && (!Has(a, NoiseMeasurement) && s.ctx.dmtx.Some? ==> t.ctx.noise == s.ctx.noise)
  {
  }

  /**
   * Phase-correction and dummy readouts never reach the calibration or
   * imaging buffers, the maps or the jobs; a phase-correction readout is
   * appended to the navigator list, which raises once the list was converted.
   */
  lemma NavigatorsAndDummiesDiverted(cfg: Config, s: State, item: Acquisition, prot: Acquisition)
    requires InsertKeepsShape(cfg) && Shaped(item) && Shaped(prot)
    requires cfg.insert(item, prot).Success?
    requires var a := cfg.insert(item, prot).value.acq;
      !Has(a, NoiseMeasurement) && (Has(a, PhaseCorrData) || Has(a, DummyScanData))
    ensures var a := cfg.insert(item, prot).value.acq; var r := Step(cfg, s, item, prot);
      && (r.Failure? <==> Has(a, PhaseCorrData) && s.ctx.nav.Converted?)
      && (r.Success? ==>
            && r.value.buf == s.buf
            && (Has(a, PhaseCorrData) ==>
                  r.value.ctx.nav == Collecting((if s.ctx.nav.Collecting? then s.ctx.nav.records else []) + [a.data]))
            && (!Has(a, PhaseCorrData) ==> r.value.ctx.nav == s.ctx.nav))
  {
  }

  /**
   * Inside the routing loop, a calibration readout goes to the calibration
   * step with the matrix as this record left it, an imaging readout to the
   * imaging step, and a navigator list is converted before either.
   */
  lemma CalibrationAndImagingRouted(cfg: Config, s: State, item: Acquisition, prot: Acquisition)
    requires InsertKeepsShape(cfg) && Shaped(item) && Shaped(prot)
    requires cfg.insert(item, prot).Success?
    requires var a := cfg.insert(item, prot).value.acq;
      !Has(a, NoiseMeasurement) && !Has(a, PhaseCorrData) && !Has(a, DummyScanData)
    requires Step(cfg, s, item, prot).Success?
    ensures var a := cfg.insert(item, prot).value.acq; var t := Step(cfg, s, item, prot).value;
      && Shaped(a)
      && t.ctx.dmtx == Prewhiten(s.ctx.noise, s.ctx.dmtx, true).1
      && (Has(a, ParallelCalibration) ==> CalibrationStep(cfg, t.ctx.dmtx, s.buf, a) == Success(t.buf))
      && (!Has(a, ParallelCalibration) ==> Imaging(cfg, t.ctx, s.buf, a) == Success(t.buf))
      && !t.ctx.nav.Collecting?
  {
  }

  /**
   * A calibration readout joins only its slice's calibration buffer; the
   * slice's last one replaces the slice's map by the calibration of the
   * whole buffer and empties the buffer.
   */
  lemma CalibrationBuffered(cfg: Config, dmtx: Option<Prewhitening>, b: Buffers, a: Acquisition)
    requires CalibrationStep(cfg, dmtx, b, a).Success?
    ensures var t := CalibrationStep(cfg, dmtx, b, a).value; var sl := a.idx.slice as nat;
      && sl < |b.acs| && |t.acs| == |b.acs|
      && t.acq == b.acq && t.jobs == b.jobs && t.seg0 == b.seg0
      && (forall k :: 0 <= k < |b.acs| && k != sl ==> t.acs[k] == b.acs[k])
      && (!Has(a, LastInSlice) ==> t.acs[sl] == b.acs[sl] + [a] && t.sensmaps == b.sensmaps)
      && (Has(a, LastInSlice) ==>
            && t.acs[sl] == [] && sl < |b.sensmaps|
            && cfg.acsSort(b.acs[sl] + [a], dmtx).Success?
            && t.sensmaps == b.sensmaps[sl := Some(Calibrated(b.acs[sl] + [a], dmtx))])
  {
  }

  /**
   * The slice's last calibration readout raises exactly when the k-space
   * sort of the whole buffer inside process_acs raises.
   */
  lemma CalibrationRaisesWithSort(cfg: Config, dmtx: Option<Prewhitening>, b: Buffers, a: Acquisition)
    requires a.idx.slice as nat < |b.acs| && a.idx.slice as nat < |b.sensmaps| && Has(a, LastInSlice)
    ensures CalibrationStep(cfg, dmtx, b, a).Failure? <==> cfg.acsSort(b.acs[a.idx.slice] + [a], dmtx).Failure?
  {
  }

  /**
   * A segment-0 readout with a time column is appended to its list, with
   * its sample times, and becomes the reference for the FOV correction.
   */
  lemma SegmentZeroAppended(cfg: Config, b: Buffers, a: Acquisition)
    requires Shaped(a) && a.idx.segment == 0 && a.trajDims >= 4 && Listed(b, a)
    ensures Placed(cfg, b, a).Success?
    ensures var t := Placed(cfg, b, a).value; var sl := a.idx.slice as nat; var c := a.idx.contrast as nat;
      && t.acq[sl][c] == b.acq[sl][c] + [WithTime(a, cfg.tMin, cfg.dwell)]
      && t.seg0 == Some(WithTime(a, cfg.tMin, cfg.dwell))
  {
  }

  /**
   * A later segment of matching channel count that fits in the open readout
   * overwrites exactly its columns [s*n, (s+1)*n) of the list's last
   * readout: the list keeps its length and earlier readouts, the readout
   * keeps its sample count and every other column.
   */
  lemma LaterSegmentSpliced(cfg: Config, b: Buffers, a: Acquisition)
    requires Shaped(a) && a.idx.segment > 0 && Listed(b, a)
    requires var lst := b.acq[a.idx.slice][a.idx.contrast];
      && |lst| > 0 && Shaped(lst[|lst| - 1]) && |a.data| == |lst[|lst| - 1].data|
      && SegmentStart(a) + a.samples as int <= lst[|lst| - 1].samples as int
    ensures Placed(cfg, b, a).Success?
    ensures var sl := a.idx.slice as nat; var c := a.idx.contrast as nat;
      var lst := b.acq[sl][c]; var n := |lst|; var entry := lst[n - 1];
      var t := Placed(cfg, b, a).value; var e := t.acq[sl][c][n - 1];
      && |t.acq[sl][c]| == n && t.acq[sl][c][..n - 1] == lst[..n - 1] && t.seg0 == b.seg0
      && e.samples == entry.samples && Shaped(e) && |e.data| == |entry.data|
      && (forall ch, j :: 0 <= ch < |e.data| && 0 <= j < e.samples ==>
            e.data[ch][j] ==
              if SegmentStart(a) <= j < SegmentStart(a) + a.samples as int
              then a.data[ch][j - SegmentStart(a)]
              else entry.data[ch][j])
  {
    var lst := b.acq[a.idx.slice][a.idx.contrast];
    SpliceWritesSegment(lst[|lst| - 1], a);
  }

  /**
   * The corrected last-segment branch without a prewhitening matrix: the
   * completed readout of the first contrast is replaced by the filtered,
   * FOV-corrected version of its own buffered data.
   */
  lemma UnwhitenedLastSegmentProcessed(cfg: Config, ctx: Ctx, b: Buffers, a: Acquisition)
    requires Listed(b, a) && |b.acq[a.idx.slice][a.idx.contrast]| > 0
    requires ctx.dmtx.None? && b.seg0.Some? && a.idx.contrast == 0
    requires var lst := b.acq[a.idx.slice][a.idx.contrast]; var entry := lst[|lst| - 1];
      var out := cfg.filt(cfg.reapply(entry.data, b.seg0.value, ctx.base), entry.traj);
      && Shaped(entry) && |out| == |entry.data| && |out| > 0 && Rows(out, entry.samples)
    ensures Finished(cfg, ctx, b, a).Success?
    ensures var sl := a.idx.slice as nat; var lst := b.acq[sl][0]; var entry := lst[|lst| - 1];
      Finished(cfg, ctx, b, a).value.acq[sl][0] ==
        lst[|lst| - 1 := entry.(data := cfg.filt(cfg.reapply(entry.data, b.seg0.value, ctx.base), entry.traj))]
  {
    var lst := b.acq[a.idx.slice][a.idx.contrast];
    var entry := lst[|lst| - 1];
    WriteAllReplaces(entry, cfg.filt(cfg.reapply(entry.data, b.seg0.value, ctx.base), entry.traj));
  }

  /**
   * As written, the same branch raises whenever the stream carried no noise
   * readout before the last segment, whatever the buffers hold.
   */
  lemma UnwhitenedLastSegmentRaisesAsWritten(cfg: Config, ctx: Ctx, b: Buffers, a: Acquisition)
    requires Listed(b, a) && |b.acq[a.idx.slice][a.idx.contrast]| > 0
    requires ctx.dmtx.None?
    ensures FinishedAsWritten(cfg, ctx, b, a) == Failure(ListHasNoData)
  {
  }

  /**
   * The last segment in general: the readout's own buffered data, whitened
   * when a matrix exists, is FOV-corrected, filtered with its trajectory and
   * written back; a later contrast is then phase-corrected, which needs the
   * converted navigators and the 'Directions' array. Only that readout of
   * the list changes.
   */
  lemma LastSegmentProcessed(cfg: Config, ctx: Ctx, b: Buffers, a: Acquisition)
    requires Listed(b, a) && |b.acq[a.idx.slice][a.idx.contrast]| > 0 && b.seg0.Some?
    requires var lst := b.acq[a.idx.slice][a.idx.contrast]; var entry := lst[|lst| - 1];
      var out := cfg.filt(cfg.reapply(Whitened(entry.data, ctx.dmtx, cfg.whiten), b.seg0.value, ctx.base), entry.traj);
      && Shaped(entry) && |out| == |entry.data| && |out| > 0 && Rows(out, entry.samples)
    ensures var sl := a.idx.slice as nat; var c := a.idx.contrast as nat;
      var lst := b.acq[sl][c]; var entry := lst[|lst| - 1];
      var out := cfg.filt(cfg.reapply(Whitened(entry.data, ctx.dmtx, cfg.whiten), b.seg0.value, ctx.base), entry.traj);
      var pc := PhaseCorrected(cfg, ctx.nav, entry.(data := out), c);
      var r := Finished(cfg, ctx, b, a);
      && (r.Success? <==> pc.Success?)
      && (r.Success? ==> r.value.acq[sl][c] == lst[|lst| - 1 := pc.value])
      && (c == 0 ==> pc == Success(entry.(data := out)))
      && (c > 0 && pc.Success? ==> ctx.nav.Converted? && cfg.dirs.Some?)
  {
    var lst := b.acq[a.idx.slice][a.idx.contrast];
    var entry := lst[|lst| - 1];
    WriteAllReplaces(entry, cfg.filt(cfg.reapply(Whitened(entry.data, ctx.dmtx, cfg.whiten), b.seg0.value, ctx.base), entry.traj));
  }

  /**
   * A closing record fills the slice's map from the raw readouts only when
   * it is missing; an existing map is kept, and no other slot changes.
   */
  lemma RawMapOnlyIfMissing(cfg: Config, b: Buffers, a: Acquisition)
    requires Listed(b, a) && (Has(a, LastInSlice) || Has(a, LastInRepetition))
    requires a.idx.slice as nat < |b.sensmaps|
    ensures var sl := a.idx.slice as nat; var r := Completed(cfg, b, a);
      && (b.sensmaps[sl].Some? ==> r == Success(b))
      && (b.sensmaps[sl].None? ==>
            (r.Failure? <==> cfg.rawSort(b.acq[sl][a.idx.contrast]).Failure?)
            && (r.Success? ==> r.value == b.(sensmaps := b.sensmaps[sl := Some(FromRaw(b.acq[sl][a.idx.contrast]))])))
  {
  }

  /** The last record of the measurement submits one job holding the buffers as they stand. */
  lemma MeasurementSubmitsOnce(b: Buffers, a: Acquisition)
    ensures Has(a, LastInMeasurement) ==> Submitted(b, a).jobs == b.jobs + [Job(b.acq, b.sensmaps)]
    ensures !Has(a, LastInMeasurement) ==> Submitted(b, a) == b
    ensures Submitted(b, a).acq == b.acq && Submitted(b, a).sensmaps == b.sensmaps
  {
  }

  // ---------------------------------------------------------------------
  // Invariants of the routing loop
  // ---------------------------------------------------------------------

  /** Every readout in a [slice][contrast] list has the shape its header declares. */
  ghost predicate ListsShaped(acq: seq<seq<seq<Acquisition>>>)
  {
    forall sl, c, k :: 0 <= sl < |acq| && 0 <= c < |acq[sl]| && 0 <= k < |acq[sl][c]| ==> Shaped(acq[sl][c][k])
  }

  /**
   * The buffers keep the dimensions process() allocated, and every buffered
   * readout the shape its header declares.
   */
  ghost predicate WellFormed(cfg: Config, b: Buffers)
  {
    && |b.acs| == cfg.nSlc && |b.sensmaps| == cfg.nSlc && |b.acq| == cfg.nSlc
    && (forall sl :: 0 <= sl < |b.acq| ==> |b.acq[sl]| == cfg.nContr)
    && ListsShaped(b.acq)
  }

  /** Replacing one list by a well-shaped one keeps every list well-shaped. */
  lemma ListsShapedUpdate(acq: seq<seq<seq<Acquisition>>>, sl: nat, c: nat, lst: seq<Acquisition>)
    requires ListsShaped(acq) && sl < |acq| && c < |acq[sl]| && AllShaped(lst)
    ensures ListsShaped(acq[sl := acq[sl][c := lst]])
  {
    var acq' := acq[sl := acq[sl][c := lst]];
    forall sl', c', k | 0 <= sl' < |acq'| && 0 <= c' < |acq'[sl']| && 0 <= k < |acq'[sl'][c']|
      ensures Shaped(acq'[sl'][c'][k])
    {
      if sl' == sl && c' == c {
        assert acq'[sl'][c'][k] == lst[k];
      } else {
        assert acq'[sl'][c'][k] == acq[sl'][c'][k];
      }
    }
  }

  /** Placing a well-shaped readout keeps the buffers well-formed. */
  lemma PlacedKeepsShape(cfg: Config, b: Buffers, a: Acquisition)
    requires Shaped(a) && Listed(b, a) && WellFormed(cfg, b) && Placed(cfg, b, a).Success?
    ensures WellFormed(cfg, Placed(cfg, b, a).value)
  {
    var sl := a.idx.slice as nat;
    var c := a.idx.contrast as nat;
    var lst := b.acq[sl][c];
    var lst' := Placed(cfg, b, a).value.acq[sl][c];
    forall k | 0 <= k < |lst'|
      ensures Shaped(lst'[k])
    {
      if k < |lst| && k != |lst| - 1 {
        assert lst'[k] == lst[k];
      } else if a.idx.segment != 0 {
        assert lst'[k] == Splice(lst[|lst| - 1], a).value;
      }
    }
    ListsShapedUpdate(b.acq, sl, c, lst');
  }

  /** Completing the last segment keeps the buffers well-formed. */
  lemma FinishedKeepsShape(cfg: Config, ctx: Ctx, b: Buffers, a: Acquisition)
    requires Listed(b, a) && |b.acq[a.idx.slice][a.idx.contrast]| > 0 && WellFormed(cfg, b)
    requires Finished(cfg, ctx, b, a).Success?
    ensures WellFormed(cfg, Finished(cfg, ctx, b, a).value)
  {
    var sl := a.idx.slice as nat;
    var c := a.idx.contrast as nat;
    var lst := b.acq[sl][c];
    var lst' := Finished(cfg, ctx, b, a).value.acq[sl][c];
    forall k | 0 <= k < |lst'|
      ensures Shaped(lst'[k])
    {
      if k != |lst| - 1 {
        assert lst'[k] == lst[k];
      }
    }
    ListsShapedUpdate(b.acq, sl, c, lst');
  }

  /** The imaging branch keeps the buffers well-formed. */
  lemma ImagingKeepsShape(cfg: Config, ctx: Ctx, b: Buffers, a: Acquisition)
    requires Shaped(a) && WellFormed(cfg, b) && Imaging(cfg, ctx, b, a).Success?
    ensures WellFormed(cfg, Imaging(cfg, ctx, b, a).value)
  {
    PlacedKeepsShape(cfg, b, a);
    if a.idx.segment as int == cfg.nSegments - 1 {
      FinishedKeepsShape(cfg, ctx, Placed(cfg, b, a).value, a);
    }
  }

  /** One routing step keeps the buffers well-formed. */
  lemma StepKeepsShape(cfg: Config, s: State, item: Acquisition, prot: Acquisition)
    requires InsertKeepsShape(cfg) && Shaped(item) && Shaped(prot)
    requires WellFormed(cfg, s.buf) && Step(cfg, s, item, prot).Success?
    ensures WellFormed(cfg, Step(cfg, s, item, prot).value.buf)
  {
    var ins := cfg.insert(item, prot).value;
    var adm := Admitted(cfg, s.ctx, ins).value;
    if adm.1 && !Has(ins.acq, ParallelCalibration) {
      ImagingKeepsShape(cfg, adm.0, s.buf, ins.acq);
    }
  }

  /** Every state the routing loop reaches has well-formed buffers. */
  lemma {:induction false} ReachableWellFormed(cfg: Config, items: seq<Acquisition>, prots: seq<Acquisition>, i: nat)
    requires i <= |items| && AllShaped(items) && AllShaped(prots) && InsertKeepsShape(cfg)
    requires RunTo(cfg, Init(cfg), items, prots, i).Success?
    ensures WellFormed(cfg, RunTo(cfg, Init(cfg), items, prots, i).value.buf)
  {
    if i > 0 {
      ReachableWellFormed(cfg, items, prots, i - 1);
      StepKeepsShape(cfg, RunTo(cfg, Init(cfg), items, prots, i - 1).value, items[i - 1], prots[i - 1]);
    }
  }

  /** Once estimated, the prewhitening matrix stays the same for the rest of the connection. */
  lemma {:induction false} PrewhiteningStaysFixed(cfg: Config, s0: State, items: seq<Acquisition>, prots: seq<Acquisition>,
                                                  i: nat, j: nat)
    requires i <= j <= |items| && AllShaped(items) && AllShaped(prots) && InsertKeepsShape(cfg)
    requires RunTo(cfg, s0, items, prots, j).Success?
    requires RunTo(cfg, s0, items, prots, i).Success? && RunTo(cfg, s0, items, prots, i).value.ctx.dmtx.Some?
    ensures RunTo(cfg, s0, items, prots, j).value.ctx.dmtx == RunTo(cfg, s0, items, prots, i).value.ctx.dmtx
    decreases j
  {
    if j > i {
      PrewhiteningStaysFixed(cfg, s0, items, prots, i, j - 1);
      NoiseAndPrewhitening(cfg, RunTo(cfg, s0, items, prots, j - 1).value, items[j - 1], prots[j - 1]);
    }
  }

  /** process(): the routing loop's buffers as the fields of one object. */
  class Router {
    const cfg: Config
    var noiseGroup: seq<Acquisition>
    var dmtx: Option<Prewhitening>
    var phs: Nav
    var baseTrj: Option<seq<seq<real>>>
    var acsGroup: seq<seq<Acquisition>>
    var sensmaps: seq<Option<SensMap>>
    var acqGroup: seq<seq<seq<Acquisition>>>
    var segmentZero: Option<Acquisition>
    var jobs: seq<Job>

    function Context(): Ctx
      reads this
    {
      Ctx(noiseGroup, dmtx, phs, baseTrj)
    }

    function Buffered(): Buffers
      reads this
    {
      Buffers(acsGroup, sensmaps, acqGroup, segmentZero, jobs)
    }

    function View(): State
      reads this
    {
      State(Context(), Buffered())
    }

    constructor(cfg: Config)
      ensures this.cfg == cfg && View() == Init(cfg)
    {
      this.cfg := cfg;
      noiseGroup := [];
      dmtx := None;
      phs := NoNav;
      baseTrj := None;
      acsGroup := seq(cfg.nSlc, _ => []);
      sensmaps := seq(cfg.nSlc, _ => None);
      acqGroup := seq(cfg.nSlc, _ => seq(cfg.nContr, _ => []));
      segmentZero := None;
      jobs := [];
    }

    /** Everything before the slice check: protocol base trajectory, noise, navigators, dummies. */
    method Admit(ins: PulseqProt.Inserted) returns (err: Option<RouteError>, more: bool)
      modifies this
      ensures Buffered() == old(Buffered())
      ensures Admitted(cfg, old(Context()), ins) == if err.None? then Success((Context(), more)) else Failure(err.value)
    {
      var a := ins.acq;
      if ins.base.Some? {
        baseTrj := ins.base;
      }
      if Has(a, NoiseMeasurement) {
        noiseGroup := noiseGroup + [a];
        return None, false;
      }
      if |noiseGroup| > 0 && dmtx.None? {
        dmtx := Some(Prewhitening(noiseGroup));
        noiseGroup := [];
      }
      if Has(a, PhaseCorrData) {
        match phs {
          case NoNav => phs := Collecting([a.data]);
          case Collecting(rs) => phs := Collecting(rs + [a.data]);
          case Converted(_) => return Some(NavigatorAppend), false;
        }
        return None, false;
      }
      if Has(a, DummyScanData) {
        return None, false;
      }
      if phs.Collecting? {
        var p := cfg.navPhase(phs.records);
        if p.None? {
          return Some(NavigatorShape), false;
        }
        phs := Converted(p.value);
      }
      return None, true;
    }

    /** A calibration readout. */
    method Calibrate(a: Acquisition) returns (err: Option<RouteError>)
      modifies this
      ensures Context() == old(Context())
      ensures CalibrationStep(cfg, dmtx, old(Buffered()), a) == if err.None? then Success(Buffered()) else Failure(err.value)
    {
      var sl := a.idx.slice as nat;
      if sl >= |acsGroup| {
        return Some(SliceOutOfRange);
      }
      acsGroup := acsGroup[sl := acsGroup[sl] + [a]];
      if Has(a, LastInSlice) {
        if sl >= |sensmaps| {
          return Some(SliceOutOfRange);
        }
        var m := ProcessAcs(acsGroup[sl], dmtx, cfg.acsSort(acsGroup[sl], dmtx));
        if m.Failure? {
          return Some(m.error);
        }
        sensmaps := sensmaps[sl := m.value];
        acsGroup := acsGroup[sl := []];
      }
      return None;
    }

    /** Append a segment-0 readout or splice a later segment into the last one. */
    method Place(a: Acquisition) returns (err: Option<RouteError>)
      requires Shaped(a) && Listed(Buffered(), a)
      modifies this
      ensures Context() == old(Context())
      ensures Placed(cfg, old(Buffered()), a) == if err.None? then Success(Buffered()) else Failure(err.value)
    {
      var sl := a.idx.slice as nat;
      var c := a.idx.contrast as nat;
      var lst := acqGroup[sl][c];
      if a.idx.segment == 0 {
        if a.trajDims < 4 {
          return Some(NoTimeColumn);
        }
        var t := WithTime(a, cfg.tMin, cfg.dwell);
        acqGroup := acqGroup[sl := acqGroup[sl][c := lst + [t]]];
        segmentZero := Some(t);
        return None;
      }
      if |lst| == 0 {
        return Some(NoOpenReadout);
      }
      var e := Splice(lst[|lst| - 1], a);
      if e.None? {
        return Some(SegmentShape);
      }
      acqGroup := acqGroup[sl := acqGroup[sl][c := ReplaceLast(lst, e.value)]];
      return None;
    }

    /** Whiten, FOV-correct, filter and phase-correct the completed readout in place. */
    method Finish(a: Acquisition) returns (err: Option<RouteError>)
      requires Listed(Buffered(), a) && |acqGroup[a.idx.slice][a.idx.contrast]| > 0
      modifies this
      ensures Context() == old(Context())
      ensures Finished(cfg, Context(), old(Buffered()), a) == if err.None? then Success(Buffered()) else Failure(err.value)
    {
      var sl := a.idx.slice as nat;
      var c := a.idx.contrast as nat;
      var lst := acqGroup[sl][c];
      var entry := lst[|lst| - 1];
      if segmentZero.None? {
        return Some(NoSegmentZero);
      }
      var data := Whitened(entry.data, dmtx, cfg.whiten);
      data := cfg.reapply(data, segmentZero.value, baseTrj);
      data := cfg.filt(data, entry.traj);
      var e1 := WriteAll(entry, data);
      if e1.None? {
        return Some(SegmentShape);
      }
      var e2 := PhaseCorrected(cfg, phs, e1.value, c);
      if e2.Failure? {
        return Some(e2.error);
      }
      acqGroup := acqGroup[sl := acqGroup[sl][c := ReplaceLast(lst, e2.value)]];
      return None;
    }

    /** Fill a missing map from the raw readouts of a closed slice or repetition. */
    method Complete(a: Acquisition) returns (err: Option<RouteError>)
      requires Listed(Buffered(), a)
      modifies this
      ensures Context() == old(Context())
      ensures Completed(cfg, old(Buffered()), a) == if err.None? then Success(Buffered()) else Failure(err.value)
    {
      var sl := a.idx.slice as nat;
      var c := a.idx.contrast as nat;
      if !(Has(a, LastInSlice) || Has(a, LastInRepetition)) {
        return None;
      }
      if sl >= |sensmaps| {
        return Some(SliceOutOfRange);
      }
      if sensmaps[sl].None? {
        if cfg.rawSort(acqGroup[sl][c]).Failure? {
          return Some(SortFailed);
        }
        sensmaps := sensmaps[sl := Some(FromRaw(acqGroup[sl][c]))];
      }
      return None;
    }

    /** An imaging readout. */
    method Image(a: Acquisition) returns (err: Option<RouteError>)
      requires Shaped(a)
      modifies this
      ensures Context() == old(Context())
      ensures Imaging(cfg, Context(), old(Buffered()), a) == if err.None? then Success(Buffered()) else Failure(err.value)
    {
      if a.idx.slice as nat >= |acqGroup| {
        return Some(SliceOutOfRange);
      }
      if a.idx.contrast as nat >= |acqGroup[a.idx.slice]| {
        return Some(ContrastOutOfRange);
      }
      err := Place(a);
      if err.Some? {
        return;
      }
      if a.idx.segment as int == cfg.nSegments - 1 {
        err := Finish(a);
        if err.Some? {
          return;
        }
      }
      err := Complete(a);
      if err.Some? {
        return;
      }
      if Has(a, LastInMeasurement) {
        jobs := jobs + [Job(acqGroup, sensmaps)];
      }
    }

    /** One iteration of the routing loop. */
    method Route(raw: Acquisition, prot: Acquisition) returns (err: Option<RouteError>)
      requires InsertKeepsShape(cfg) && Shaped(raw) && Shaped(prot)
      modifies this
      ensures Step(cfg, old(View()), raw, prot) == if err.None? then Success(View()) else Failure(err.value)
    {
      var r := cfg.insert(raw, prot);
      if r.Failure? {
        return Some(InsertFailed);
      }
      var a := r.value.acq;
      var more;
      err, more := Admit(r.value);
      if err.Some? || !more {
        return;
      }
      if Has(a, ParallelCalibration) {
        err := Calibrate(a);
      } else {
        err := Image(a);
      }
    }
  }

  /** The routing loop of process(): every record in order, stopping at the first exception. */
  method RouteAll(router: Router, items: seq<Acquisition>, prots: seq<Acquisition>) returns (err: Option<RouteError>)
    requires AllShaped(items) && AllShaped(prots) && InsertKeepsShape(router.cfg)
    modifies router
    ensures RunTo(router.cfg, old(router.View()), items, prots, |items|) ==
      if err.None? then Success(router.View()) else Failure(err.value)
  {
    ghost var s0 := router.View();
    var i := 0;
    while i < |items|
      invariant 0 <= i <= |items|
      invariant RunTo(router.cfg, s0, items, prots, i) == Success(router.View())
    {
      if i >= |prots| {
        RunStopsAtFailure(router.cfg, s0, items, prots, i + 1, |items|);
        return Some(InsertFailed);
      }
      ghost var before := router.View();
      err := router.Route(items[i], prots[i]);
      assert RunTo(router.cfg, s0, items, prots, i + 1) == Step(router.cfg, before, items[i], prots[i]);
      if err.Some? {
        RunStopsAtFailure(router.cfg, s0, items, prots, i + 1, |items|);
        return err;
      }
      i := i + 1;
    }
    return None;
  }

  /** process(): route every record in order; the submitted jobs are the result. */
  method Process(cfg: Config, items: seq<Acquisition>, prots: seq<Acquisition>) returns (r: Result<State, RouteError>)
    requires AllShaped(items) && AllShaped(prots) && InsertKeepsShape(cfg)
    ensures r == Outcome(cfg, items, prots)
  {
    var router := new Router(cfg);
    var err := RouteAll(router, items, prots);
    if err.Some? {
      return Failure(err.value);
    }
    if |items| == 0 {
      return Failure(NoRecords);
    }
    return Success(router.View());
  }
}
