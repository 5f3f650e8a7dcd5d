/**
 * The JEMRIS simulation pipeline (bart_jemris.py): no protocol is inserted;
 * noise readouts feed a one-time prewhitening estimate; surface-coil
 * records are reshaped and collected; dummy and phase-correction readouts
 * are dropped; calibration readouts are buffered per slice and calibrated
 * lazily, before the slice's first imaging readout. Imaging readouts are
 * buffered per slice and a record that closes a slice or repetition
 * reconstructs and empties its slice's group. Data left at the end of the
 * stream is dropped.
 */
module JemrisRouter {
  import opened Mrd
  import opened ReconCalls
  import opened Routing
  import SpiralSort

  /** A magnitude image volume. */
  type Volume = seq<seq<seq<real>>>

  /** A NumPy array as its shape and its row-major elements. */
  datatype NdArray = NdArray(shape: seq<int>, flat: seq<Complex>)

  /**
   * What process derives before its loop and the helpers it calls: nSlc is
   * the encoding limits' slice maximum plus one; sort is sort_data; recon
   * the BART NUFFT or PICS reconstruction (with or without a map); parts the
   * partition count data.shape[-1] of the reconstructed volume.
   */
  datatype Config = Config(
    nSlc: nat,
    sort: (seq<Acquisition>, Option<Prewhitening>) -> Result<SpiralSort.Sorted, SpiralSort.SortError>,
    recon: (SpiralSort.Sorted, Option<SensMap>) -> Volume,
    parts: Volume -> nat)

  /** The pipeline's own sort_data, scaling trajectories by fov / (2 pi). */
  function Configure(c: Config, whiten: Whitening, scale: real): (cfg: Config)
    ensures cfg == c.(sort := cfg.sort)
    ensures forall g, d :: AllShaped(g) ==> cfg.sort(g, d) == SpiralSort.JemrisSorted(g, d, whiten, scale)
  {
    c.(sort := (g, d) => if AllShaped(g) then SpiralSort.JemrisSorted(g, d, whiten, scale) else Failure(SpiralSort.Ragged))
  }

  /** An image sent to the client: the readout it is built from, its partition, image_index and image_series_index. */
  datatype Image = Image(head: Acquisition, partition: nat, index: int, series: int)

  /** noiseGroup and dmtx. */
  datatype Ctx = Ctx(noise: seq<Acquisition>, dmtx: Option<Prewhitening>)

  /** acsGroup, sensmaps, sensmaps_jemris and acqGroup[slice]. */
  datatype Buffers = Buffers(
    acs: seq<seq<Acquisition>>,
    sensmaps: seq<Option<SensMap>>,
    coilMaps: seq<NdArray>,
    acq: seq<seq<Acquisition>>)

  /** The local state of process and the images sent so far. */
  datatype State = State(ctx: Ctx, buf: Buffers, sent: seq<Image>)

  /** The buffers process allocates. */
  function Init(cfg: Config): (s: State)
    ensures |s.buf.acs| == cfg.nSlc && |s.buf.sensmaps| == cfg.nSlc && |s.buf.acq| == cfg.nSlc
    ensures forall sl :: 0 <= sl < cfg.nSlc ==> s.buf.acs[sl] == [] && s.buf.sensmaps[sl].None? && s.buf.acq[sl] == []
    ensures s.ctx == Ctx([], None) && s.buf.coilMaps == [] && s.sent == []
  {
    State(Ctx([], None), Buffers(seq(cfg.nSlc, _ => []), seq(cfg.nSlc, _ => None), [], seq(cfg.nSlc, _ => [])), [])
  }

  // ---------------------------------------------------------------------
  // Surface-coil records
  // ---------------------------------------------------------------------

  /** The [channel][sample] data in row-major order, as `data[:]` is read by reshape. */
  function Flatten(d: seq<seq<Complex>>): (f: seq<Complex>)
  {
    if |d| == 0 then [] else d[0] + Flatten(d[1..])
  }

  /** Sample j of channel ch is element ch*n + j of the flattened data. */
  lemma {:induction false} FlattenRowMajor(d: seq<seq<Complex>>, n: nat, ch: nat, j: nat)
    requires Rows(d, n) && ch < |d| && j < n
    ensures |Flatten(d)| == |d| * n
    ensures ch * n + j < |Flatten(d)| && Flatten(d)[ch * n + j] == d[ch][j]
  {
    if ch == 0 {
      FlattenLength(d, n);
    } else {
      FlattenRowMajor(d[1..], n, ch - 1, j);
      FlattenLength(d, n);
      assert ch * n + j == n + ((ch - 1) * n + j);
    }
  }

  /** The flattened data has every sample. */
  lemma {:induction false} FlattenLength(d: seq<seq<Complex>>, n: nat)
    requires Rows(d, n)
    ensures |Flatten(d)| == |d| * n
  {
    if |d| > 0 {
      FlattenLength(d[1..], n);
      assert |d| * n == n + (|d| - 1) * n;
    }
  }

  /** The number of elements an array of the given shape holds. */
  function Product(shape: seq<int>): int
  {
    if |shape| == 0 then 1 else shape[0] * Product(shape[1..])
  }

  /**
   * `item.data[:].reshape(item.traj[0].astype(int))`: the shape is the
   * first trajectory sample, each coordinate truncated toward zero; the
   * reshape fails unless the shape holds exactly the record's elements.
   */
  function Reshaped(a: Acquisition): (r: Option<NdArray>)
    ensures r.Some? ==> r.value.flat == Flatten(a.data) && Product(r.value.shape) == |Flatten(a.data)|
    ensures r.Some? ==> |a.traj| > 0 && |r.value.shape| == |a.traj[0]|
  {
    if |a.traj| == 0 then None
    else
      var shape := seq(|a.traj[0]|, d requires 0 <= d < |a.traj[0]| => TruncToInt(a.traj[0][d]));
      if (forall d :: 0 <= d < |shape| ==> shape[d] >= 0) && Product(shape) == |Flatten(a.data)|
      then Some(NdArray(shape, Flatten(a.data)))
      else None
  }

  /**
   * A reshaped coil record keeps every sample of the record: sample j of
   * channel ch is element ch*samples + j of the array.
   */
  lemma CoilMapKeepsSamples(a: Acquisition, ch: nat, j: nat)
    requires Shaped(a) && Reshaped(a).Some? && ch < |a.data| && j < a.samples
    ensures var m := Reshaped(a).value;
      ch * a.samples as int + j < |m.flat| && m.flat[ch * a.samples as int + j] == a.data[ch][j]
  {
    FlattenRowMajor(a.data, a.samples as nat, ch, j);
  }

  /** np.stack needs arrays of one shape. */
  predicate Stackable(maps: seq<NdArray>)
  {
    forall k :: 0 <= k < |maps| ==> maps[k].shape == maps[0].shape
  }

  // ---------------------------------------------------------------------
  // process_raw and process_acs
  // ---------------------------------------------------------------------

  /**
   * The images of one call: with several partitions, partition p is
   * numbered 1 + p in series 1; otherwise one image numbered 1 + slice in
   * series 1 + repetition.
   */
  function Numbered(head: Acquisition, nPar: nat): (imgs: seq<Image>)
    requires nPar > 0
    ensures |imgs| == nPar
    ensures forall k :: 0 <= k < |imgs| ==> imgs[k].head == head && imgs[k].partition == k
  {
    if nPar > 1 then seq(nPar, p requires 0 <= p < nPar => Image(head, p, 1 + p, 1))
    else [Image(head, 0, 1 + head.idx.slice as int, 1 + head.idx.repetition as int)]
  }

  /** No two images share a series and an index. */
  predicate DistinctNumbers(imgs: seq<Image>)
  {
    forall i, j :: 0 <= i < j < |imgs| ==> imgs[i].series != imgs[j].series || imgs[i].index != imgs[j].index
  }

  /**
   * Within one call the images are told apart by their numbers; the
   * single-partition image of a slice is told apart from that of every other
   * slice of the same repetition.
   */
  lemma NumbersDistinct(h1: Acquisition, h2: Acquisition, nPar: nat)
    requires nPar > 0
    ensures DistinctNumbers(Numbered(h1, nPar))
    ensures nPar == 1 && h1.idx.repetition == h2.idx.repetition && h1.idx.slice != h2.idx.slice ==>
      Numbered(h1, 1)[0].index != Numbered(h2, 1)[0].index && Numbered(h1, 1)[0].series == Numbered(h2, 1)[0].series
  {
  }

  /** The numbering loop of process_raw. */
  method NumberImages(head: Acquisition, nPar: nat) returns (imgs: seq<Image>)
    requires nPar > 0
    ensures imgs == Numbered(head, nPar)
  {
    if nPar > 1 {
      imgs := [];
      for par := 0 to nPar
        invariant |imgs| == par && forall k :: 0 <= k < par ==> imgs[k] == Image(head, k, 1 + k, 1)
      {
        imgs := imgs + [Image(head, par, 1 + par, 1)];
      }
    } else {
      imgs := [Image(head, 0, 1 + head.idx.slice as int, 1 + head.idx.repetition as int)];
    }
  }

  /**
   * process_raw: sort the group, stack the JEMRIS coil maps when the slice
   * has no map of its own (the result is not used further), reconstruct and
   * number the images.
   */
  function ProcessRaw(cfg: Config, group: seq<Acquisition>, dmtx: Option<Prewhitening>, smap: Option<SensMap>,
                      coilMaps: seq<NdArray>): (r: Result<seq<Image>, RouteError>)
    ensures r.Success? ==> |group| > 0 && cfg.sort(group, dmtx).Success? && |r.value| > 0
    ensures r.Success? ==> forall k :: 0 <= k < |r.value| ==> r.value[k].head == group[0]
  {
    var sorted := cfg.sort(group, dmtx);
    if sorted.Failure? || |group| == 0 then Failure(SortFailed)
    else if smap.None? && |coilMaps| > 0 && !Stackable(coilMaps) then Failure(CoilMapShape)
    else
      var nPar := cfg.parts(cfg.recon(sorted.value, smap));
      if nPar == 0 then Failure(EmptyImage)
      else Success(Numbered(group[0], nPar))
  }

  // ---------------------------------------------------------------------
  // The routing loop
  // ---------------------------------------------------------------------

  /**
   * The part of one iteration before the branch on the record's role: a
   * noise readout is buffered and stops here; any other record first
   * estimates the matrix from buffered noise.
   */
  function Admitted(ctx: Ctx, a: Acquisition): (r: (Ctx, bool))
    ensures r.1 <==> !Has(a, NoiseMeasurement)
  {
    if Has(a, NoiseMeasurement) then (ctx.(noise := ctx.noise + [a]), false)
    else
      var w := Prewhiten(ctx.noise, ctx.dmtx, true);
      (Ctx(w.0, w.1), true)
  }

  /** A surface-coil record is reshaped and collected. */
  function CoilCollected(b: Buffers, a: Acquisition): (r: Result<Buffers, RouteError>)
    ensures r.Success? ==> r.value == b.(coilMaps := r.value.coilMaps)
  {
    var m := Reshaped(a);
    if m.None? then Failure(CoilMapShape) else Success(b.(coilMaps := b.coilMaps + [m.value]))
  }

  /** A calibration readout joins its slice's buffer and triggers nothing. */
  function CalibrationStep(b: Buffers, a: Acquisition): (r: Result<Buffers, RouteError>)
    ensures r.Success? ==> r.value == b.(acs := r.value.acs)
  {
    var sl := a.idx.slice as nat;
    if sl >= |b.acs| then Failure(SliceOutOfRange) else Success(b.(acs := b.acs[sl := b.acs[sl] + [a]]))
  }

  /**
   * Before a slice's imaging readout: a slice without a map is calibrated
   * from its calibration buffer, which is then emptied.
   */
  function MapReady(cfg: Config, dmtx: Option<Prewhitening>, b: Buffers, sl: nat): (r: Result<Buffers, RouteError>)
    requires sl < |b.sensmaps|
    ensures r.Success? ==> r.value == b.(acs := r.value.acs, sensmaps := r.value.sensmaps)
  {
    if b.sensmaps[sl].Some? then Success(b)
    else if sl >= |b.acs| then Failure(SliceOutOfRange)
    else
      var m := ProcessAcs(b.acs[sl], dmtx, cfg.sort(b.acs[sl], dmtx));
      if m.Failure? then Failure(m.error)
      else Success(b.(sensmaps := b.sensmaps[sl := m.value], acs := b.acs[sl := []]))
  }

  /**
   * An imaging readout: ready the slice's map, append the readout to the
   * slice's group and, when it closes a slice or a repetition, reconstruct
   * the group, send the images and empty the group.
   */
  function Imaging(cfg: Config, ctx: Ctx, b: Buffers, sent: seq<Image>, a: Acquisition)
    : (r: Result<(Buffers, seq<Image>), RouteError>)
    ensures r.Success? ==> r.value.0.coilMaps == b.coilMaps && |r.value.0.acq| == |b.acq|
  {
    var sl := a.idx.slice as nat;
    if sl >= |b.sensmaps| then Failure(SliceOutOfRange)
    else
      var b1 := MapReady(cfg, ctx.dmtx, b, sl);
      if b1.Failure? then Failure(b1.error)
      else if sl >= |b1.value.acq| then Failure(SliceOutOfRange)
      else
        var group := b1.value.acq[sl] + [a];
        if !(Has(a, LastInSlice) || Has(a, LastInRepetition)) then
          Success((b1.value.(acq := b1.value.acq[sl := group]), sent))
        else
          var p := ProcessRaw(cfg, group, ctx.dmtx, b1.value.sensmaps[sl], b1.value.coilMaps);
          if p.Failure? then Failure(p.error)
          else Success((b1.value.(acq := b1.value.acq[sl := []]), sent + p.value))
  }

  /** One iteration of the routing loop. */
  function Step(cfg: Config, s: State, a: Acquisition): Result<State, RouteError>
  {
    var (ctx, more) := Admitted(s.ctx, a);
    if !more then Success(s.(ctx := ctx))
    else if Has(a, SurfaceCoilCorrectionScanData) then
      var b := CoilCollected(s.buf, a);
      if b.Failure? then Failure(b.error) else Success(State(ctx, b.value, s.sent))
    else if Has(a, DummyScanData) || Has(a, PhaseCorrData) then Success(s.(ctx := ctx))
    else if Has(a, ParallelCalibration) then
      var b := CalibrationStep(s.buf, a);
      if b.Failure? then Failure(b.error) else Success(State(ctx, b.value, s.sent))
    else
      var t := Imaging(cfg, ctx, s.buf, s.sent, a);
      if t.Failure? then Failure(t.error) else Success(State(ctx, t.value.0, t.value.1))
  }

  /** The state after the first `i` records. */
  function RunTo(cfg: Config, s0: State, items: seq<Acquisition>, i: nat): Result<State, RouteError>
    requires i <= |items|
  {
    if i == 0 then Success(s0)
    else match RunTo(cfg, s0, items, i - 1)
      case Failure(e) => Failure(e)
      case Success(s) => Step(cfg, s, items[i - 1])
  }

  /** Once a record raises, the loop is over: every longer prefix ends in the same exception. */
  lemma {:induction false} RunStopsAtFailure(cfg: Config, s0: State, items: seq<Acquisition>, i: nat, j: nat)
    requires i <= j <= |items|
    requires RunTo(cfg, s0, items, i).Failure?
    ensures RunTo(cfg, s0, items, j) == RunTo(cfg, s0, items, i)
    decreases j
  {
    if j > i {
      RunStopsAtFailure(cfg, s0, items, i, j - 1);
    }
  }

  /** A whole connection: the routing loop over every record; data left in the buffers is dropped. */
  function Outcome(cfg: Config, items: seq<Acquisition>): Result<State, RouteError>
  {
    RunTo(cfg, Init(cfg), items, |items|)
  }

  // ---------------------------------------------------------------------
  // Properties
  // ---------------------------------------------------------------------

  /**
   * A noise readout only joins the noise buffer. The first other record
   * after buffered noise estimates the matrix from all of it and empties the
   * buffer; an existing matrix is never replaced.
   */
  lemma NoiseAndPrewhitening(cfg: Config, s: State, a: Acquisition)
    requires Step(cfg, s, a).Success?
    ensures var t := Step(cfg, s, a).value;
      && (Has(a, NoiseMeasurement) ==> t == s.(ctx := s.ctx.(noise := s.ctx.noise + [a])))
      && (!Has(a, NoiseMeasurement) && s.ctx.dmtx.None? && |s.ctx.noise| > 0 ==>
            t.ctx == Ctx([], Some(Prewhitening(s.ctx.noise))))
      && (s.ctx.dmtx.Some? ==> t.ctx.dmtx == s.ctx.dmtx)
  {
  }

  /**
   * A surface-coil record (that is not a noise readout) only adds its
   * reshaped data to the JEMRIS coil maps; dummy and phase-correction
   * readouts change no buffer at all.
   */
  lemma CoilAndSkippedRecords(cfg: Config, s: State, a: Acquisition)
    requires !Has(a, NoiseMeasurement)
    ensures Has(a, SurfaceCoilCorrectionScanData) ==>
      (Step(cfg, s, a).Success? <==> Reshaped(a).Some?)
      && (Step(cfg, s, a).Success? ==>
            Step(cfg, s, a).value.buf == s.buf.(coilMaps := s.buf.coilMaps + [Reshaped(a).value])
            && Step(cfg, s, a).value.sent == s.sent)
    ensures !Has(a, SurfaceCoilCorrectionScanData) && (Has(a, DummyScanData) || Has(a, PhaseCorrData)) ==>
      Step(cfg, s, a).Success? && Step(cfg, s, a).value.buf == s.buf && Step(cfg, s, a).value.sent == s.sent
  {
  }

  /** A calibration readout joins only its own slice's buffer, and no map is computed on its arrival. */
  lemma CalibrationOnlyBuffered(cfg: Config, s: State, a: Acquisition)
    requires !Has(a, NoiseMeasurement) && !Has(a, SurfaceCoilCorrectionScanData)
    requires !Has(a, DummyScanData) && !Has(a, PhaseCorrData) && Has(a, ParallelCalibration)
    ensures Step(cfg, s, a).Success? <==> a.idx.slice as nat < |s.buf.acs|
    ensures Step(cfg, s, a).Success? ==>
      var t := Step(cfg, s, a).value; var sl := a.idx.slice as nat;
      t.buf == s.buf.(acs := s.buf.acs[sl := s.buf.acs[sl] + [a]]) && t.sent == s.sent
  {
  }

  /**
   * Lazy calibration: a slice that has a map keeps it and its calibration
   * buffer; a slice without one gets the calibration of its whole buffer
   * (None for an empty buffer) and the buffer is emptied.
   */
  lemma LazyCalibration(cfg: Config, dmtx: Option<Prewhitening>, b: Buffers, sl: nat)
    requires sl < |b.sensmaps| && MapReady(cfg, dmtx, b, sl).Success?
    ensures var t := MapReady(cfg, dmtx, b, sl).value;
      && (b.sensmaps[sl].Some? ==> t == b)
      && (b.sensmaps[sl].None? ==>
            && sl < |b.acs| && t.acs == b.acs[sl := []]
            && (|b.acs[sl]| > 0 ==> cfg.sort(b.acs[sl], dmtx).Success?)
            && t.sensmaps == b.sensmaps[sl := if |b.acs[sl]| == 0 then None else Some(Calibrated(b.acs[sl], dmtx))])
  {
  }

  /**
   * An imaging readout is appended to its slice's group; a record that
   * closes a slice or repetition sends the images of the whole group,
   * reconstructed with the slice's (possibly just calibrated) map, and
   * empties exactly that group.
   */
  lemma GroupProcessedOnClose(cfg: Config, ctx: Ctx, b: Buffers, sent: seq<Image>, a: Acquisition)
    requires Imaging(cfg, ctx, b, sent, a).Success?
    ensures var (t, out) := Imaging(cfg, ctx, b, sent, a).value; var sl := a.idx.slice as nat;
      var ready := MapReady(cfg, ctx.dmtx, b, sl).value;
      && sl < |b.acq| && sl < |b.sensmaps|
      && (forall k :: 0 <= k < |b.acq| && k != sl ==> t.acq[k] == b.acq[k])
      && (!(Has(a, LastInSlice) || Has(a, LastInRepetition)) ==> t.acq[sl] == b.acq[sl] + [a] && out == sent)
      && (Has(a, LastInSlice) || Has(a, LastInRepetition) ==>
            && t.acq[sl] == []
            && |out| > |sent| && out[..|sent|] == sent
            && ProcessRaw(cfg, b.acq[sl] + [a], ctx.dmtx, ready.sensmaps[sl], b.coilMaps) == Success(out[|sent|..]))
  {
    var (t, out) := Imaging(cfg, ctx, b, sent, a).value;
    var sl := a.idx.slice as nat;
    var ready := MapReady(cfg, ctx.dmtx, b, sl).value;
    if Has(a, LastInSlice) || Has(a, LastInRepetition) {
      var p := ProcessRaw(cfg, b.acq[sl] + [a], ctx.dmtx, ready.sensmaps[sl], b.coilMaps).value;
      assert out == sent + p;
      assert out[|sent|..] == p;
    }
  }

  /** A step never replaces a map a slice already has. */
  lemma StepKeepsMaps(cfg: Config, s: State, a: Acquisition)
    requires Step(cfg, s, a).Success?
    ensures var t := Step(cfg, s, a).value;
      |t.buf.sensmaps| == |s.buf.sensmaps| &&
      forall k :: 0 <= k < |s.buf.sensmaps| && s.buf.sensmaps[k].Some? ==> t.buf.sensmaps[k] == s.buf.sensmaps[k]
  {
  }

  /** Once a slice has a map, it keeps it for the rest of the connection. */
  lemma {:induction false} MapFixedOnceSet(cfg: Config, s0: State, items: seq<Acquisition>, i: nat, j: nat, k: nat)
    requires i <= j <= |items|
    requires RunTo(cfg, s0, items, j).Success? && RunTo(cfg, s0, items, i).Success?
    requires var m := RunTo(cfg, s0, items, i).value.buf.sensmaps; k < |m| && m[k].Some?
    ensures var m := RunTo(cfg, s0, items, i).value.buf.sensmaps;
      var n := RunTo(cfg, s0, items, j).value.buf.sensmaps;
      k < |n| && n[k] == m[k]
    decreases j
  {
    if j > i {
      var prev := RunTo(cfg, s0, items, j - 1);
      assert prev.Success? && RunTo(cfg, s0, items, j) == Step(cfg, prev.value, items[j - 1]);
      MapFixedOnceSet(cfg, s0, items, i, j - 1, k);
      StepKeepsMaps(cfg, prev.value, items[j - 1]);
    }
  }

  /** Once estimated, the prewhitening matrix stays the same for the rest of the connection. */
  lemma {:induction false} PrewhiteningStaysFixed(cfg: Config, s0: State, items: seq<Acquisition>, i: nat, j: nat)
    requires i <= j <= |items|
    requires RunTo(cfg, s0, items, j).Success?
    requires RunTo(cfg, s0, items, i).Success? && RunTo(cfg, s0, items, i).value.ctx.dmtx.Some?
    ensures RunTo(cfg, s0, items, j).value.ctx.dmtx == RunTo(cfg, s0, items, i).value.ctx.dmtx
    decreases j
  {
    if j > i {
      var prev := RunTo(cfg, s0, items, j - 1);
      assert prev.Success? && RunTo(cfg, s0, items, j) == Step(cfg, prev.value, items[j - 1]);
      PrewhiteningStaysFixed(cfg, s0, items, i, j - 1);
      NoiseAndPrewhitening(cfg, prev.value, items[j - 1]);
    }
  }

  // ---------------------------------------------------------------------
  // process as an object
  // ---------------------------------------------------------------------

  /** The local variables of process, as the fields of one object. */
  class Router {
    const cfg: Config
    var noiseGroup: seq<Acquisition>
    var dmtx: Option<Prewhitening>
    var acsGroup: seq<seq<Acquisition>>
    var sensmaps: seq<Option<SensMap>>
    var sensmapsJemris: seq<NdArray>
    var acqGroup: seq<seq<Acquisition>>
    var sent: seq<Image>

    function Context(): Ctx
      reads this
    {
      Ctx(noiseGroup, dmtx)
    }

    function Buffered(): Buffers
      reads this
    {
      Buffers(acsGroup, sensmaps, sensmapsJemris, acqGroup)
    }

    function View(): State
      reads this
    {
      State(Context(), Buffered(), sent)
    }

    constructor(cfg: Config)
      ensures this.cfg == cfg && View() == Init(cfg)
    {
      this.cfg := cfg;
      noiseGroup := [];
      dmtx := None;
      acsGroup := seq(cfg.nSlc, _ => []);
      sensmaps := seq(cfg.nSlc, _ => None);
      sensmapsJemris := [];
      acqGroup := seq(cfg.nSlc, _ => []);
      sent := [];
    }

    /** Calibrate a slice that has no map yet. */
    method ReadyMap(sl: nat) returns (err: Option<RouteError>)
      requires sl < |sensmaps|
      modifies this
      ensures Context() == old(Context()) && sent == old(sent)
      ensures MapReady(cfg, dmtx, old(Buffered()), sl) == if err.None? then Success(Buffered()) else Failure(err.value)
    {
      if sensmaps[sl].Some? {
        return None;
      }
      if sl >= |acsGroup| {
        return Some(SliceOutOfRange);
      }
      var m := ProcessAcs(acsGroup[sl], dmtx, cfg.sort(acsGroup[sl], dmtx));
      if m.Failure? {
        return Some(m.error);
      }
      sensmaps := sensmaps[sl := m.value];
      acsGroup := acsGroup[sl := []];
      return None;
    }

    /** process_raw on one group; returns the images to send. */
    method Reconstruct(group: seq<Acquisition>, smap: Option<SensMap>) returns (err: Option<RouteError>, images: seq<Image>)
      ensures ProcessRaw(cfg, group, dmtx, smap, sensmapsJemris) ==
        if err.None? then Success(images) else Failure(err.value)
    {
      images := [];
      var sorted := cfg.sort(group, dmtx);
      if sorted.Failure? || |group| == 0 {
        return Some(SortFailed), images;
      }
      if smap.None? && |sensmapsJemris| > 0 && !Stackable(sensmapsJemris) {
        return Some(CoilMapShape), images;
      }
      var nPar := cfg.parts(cfg.recon(sorted.value, smap));
      if nPar == 0 {
        return Some(EmptyImage), images;
      }
      images := NumberImages(group[0], nPar);
      return None, images;
    }

    /** An imaging readout. */
    method Image(a: Acquisition) returns (err: Option<RouteError>)
      modifies this
      ensures Context() == old(Context())
      ensures Imaging(cfg, Context(), old(Buffered()), old(sent), a) ==
        if err.None? then Success((Buffered(), sent)) else Failure(err.value)
    {
      var sl := a.idx.slice as nat;
      if sl >= |sensmaps| {
        return Some(SliceOutOfRange);
      }
      err := ReadyMap(sl);
      if err.Some? {
        return;
      }
      ghost var ready := Buffered();
      assert MapReady(cfg, dmtx, old(Buffered()), sl) == Success(ready);
      if sl >= |acqGroup| {
        return Some(SliceOutOfRange);
      }
      acqGroup := acqGroup[sl := acqGroup[sl] + [a]];
      if Has(a, LastInSlice) || Has(a, LastInRepetition) {
        var images;
        err, images := Reconstruct(acqGroup[sl], sensmaps[sl]);
        assert ProcessRaw(cfg, ready.acq[sl] + [a], dmtx, ready.sensmaps[sl], ready.coilMaps) ==
          if err.None? then Success(images) else Failure(err.value);
        if err.Some? {
          return;
        }
        sent := sent + images;
        acqGroup := acqGroup[sl := []];
        assert acqGroup == ready.acq[sl := []];
      }
    }

    /** One iteration of the routing loop. */
    method Route(a: Acquisition) returns (err: Option<RouteError>)
      modifies this
      ensures Step(cfg, old(View()), a) == if err.None? then Success(View()) else Failure(err.value)
    {
      if Has(a, NoiseMeasurement) {
        noiseGroup := noiseGroup + [a];
        return None;
      }
      if |noiseGroup| > 0 && dmtx.None? {
        dmtx := Some(Prewhitening(noiseGroup));
        noiseGroup := [];
      }
      if Has(a, SurfaceCoilCorrectionScanData) {
        var m := Reshaped(a);
        if m.None? {
          return Some(CoilMapShape);
        }
        sensmapsJemris := sensmapsJemris + [m.value];
        return None;
      }
      if Has(a, DummyScanData) || Has(a, PhaseCorrData) {
        return None;
      }
      if Has(a, ParallelCalibration) {
        var sl := a.idx.slice as nat;
        if sl >= |acsGroup| {
          return Some(SliceOutOfRange);
        }
        acsGroup := acsGroup[sl := acsGroup[sl] + [a]];
        return None;
      }
      err := Image(a);
    }
  }

  /** The routing loop of process: every record in order, stopping at the first exception. */
  method RouteAll(router: Router, items: seq<Acquisition>) returns (err: Option<RouteError>)
    modifies router
    ensures RunTo(router.cfg, old(router.View()), items, |items|) ==
      if err.None? then Success(router.View()) else Failure(err.value)
  {
    ghost var s0 := router.View();
    var i := 0;
    while i < |items|
      invariant 0 <= i <= |items|
      invariant RunTo(router.cfg, s0, items, i) == Success(router.View())
    {
      ghost var before := router.View();
      err := router.Route(items[i]);
      assert RunTo(router.cfg, s0, items, i + 1) == Step(router.cfg, before, items[i]);
      if err.Some? {
        RunStopsAtFailure(router.cfg, s0, items, i + 1, |items|);
        return err;
      }
      i := i + 1;
    }
    return None;
  }

  /** process: route every record in order; the images sent are the result. */
  method Process(cfg: Config, items: seq<Acquisition>) returns (r: Result<State, RouteError>)
    ensures r == Outcome(cfg, items)
  {
    var router := new Router(cfg);
    var err := RouteAll(router, items);
    if err.Some? {
      return Failure(err.value);
    }
    return Success(router.View());
  }
}
