/**
 * The Cartesian BART PICS pipeline (bart_pics_pulseq.py): every record is
 * relabelled from the protocol; noise readouts feed a prewhitening estimate;
 * phase-correction readouts are dropped; calibration readouts are buffered
 * per slice; everything else goes into one group that is reconstructed when
 * a record closes a slice or a repetition, and once more after the stream
 * if anything is left. The reconstruction sorts k-space, lets BART or the
 * FFT produce a magnitude volume, fixes the intensity scale from the first
 * volume it ever sees, and crops the readout oversampling.
 */
module PicsRouter {
  import opened Mrd
  import opened ReconCalls
  import opened Routing
  import PulseqProt
  import KSpaceSort

  /** acsGroup and sensmaps hold a hard-coded 256 slices. */
  const Slots: nat := 256

  /** A magnitude image volume [readout][phase][partition]. */
  type Volume = seq<seq<seq<real>>>

  /**
   * fov_shift followed by the FFT (no map) or `bart pics` (with a map): sorted
   * k-space, the group's first readout and the optional map to a magnitude volume.
   */
  type Reconstruction = (KSpaceSort.KSpace, Acquisition, Option<SensMap>) -> Volume

  /** sort_into_kspace as process_raw and process_acs call it: a group and the optional prewhitening matrix. */
  type Sorter = (seq<Acquisition>, Option<Prewhitening>) -> Result<KSpaceSort.KSpace, KSpaceSort.SortError>

  /**
   * The dataset header after insert_hdr, calc_traj's numerics (unused on the
   * Cartesian path), the k-space sort of process_raw, the reconstruction,
   * and the recentred k-space sort of process_acs.
   */
  datatype Config = Config(hdr: Header, calcTraj: nat -> PulseqProt.TrajPrediction, sort: Sorter,
                           recon: Reconstruction, acsSort: Sorter)

  /**
   * The pipeline's own configuration: the sort is sort_into_kspace on the
   * encoded matrix x, y, z with the header's receiver channel count and
   * without recentring in process_raw, and with recentring in process_acs.
   */
  function Configure(hdr: Header, calcTraj: nat -> PulseqProt.TrajPrediction, whiten: Whitening,
                     recon: Reconstruction): (cfg: Config)
    ensures cfg.hdr == hdr && cfg.recon == recon
    ensures forall g, d ::
      cfg.sort(g, d) == KSpaceSort.KSpaceOf(g, KSpaceSort.PicsGeometry(hdr.encodedMatrix), hdr.receiverChannels, d, whiten, false)
    ensures forall g, d ::
      cfg.acsSort(g, d) == KSpaceSort.KSpaceOf(g, KSpaceSort.PicsGeometry(hdr.encodedMatrix), hdr.receiverChannels, d, whiten, true)
  {
    Config(hdr, calcTraj,
           (g, d) => KSpaceSort.KSpaceOf(g, KSpaceSort.PicsGeometry(hdr.encodedMatrix), hdr.receiverChannels, d, whiten, false),
           recon,
           (g, d) => KSpaceSort.KSpaceOf(g, KSpaceSort.PicsGeometry(hdr.encodedMatrix), hdr.receiverChannels, d, whiten, true))
  }

  /**
   * An image sent to the client: the readout it is built from, the cropped
   * volume before int16 conversion, the volume its scale 0.8/max was taken
   * from, and its image_index.
   */
  datatype Image = Image(head: Acquisition, pixels: Volume, scaleFrom: Volume, index: int)

  /**
   * The local state of process(): noiseGroup, dmtx, acsGroup, sensmaps,
   * acqGroup, the imascale attribute of process_raw, the images sent so far,
   * and the loop variable `item` (as insert_acq left it).
   */
  datatype State = State(
    noise: seq<Acquisition>,
    dmtx: Option<Prewhitening>,
    acs: seq<seq<Acquisition>>,
    sensmaps: seq<Option<SensMap>>,
    acq: seq<Acquisition>,
    imascale: Option<Volume>,
    sent: seq<Image>,
    current: Option<Acquisition>)

  /**
   * The state before the first record; the scale survives between
   * connections as a function attribute, so it is an input.
   */
  function Init(imascale: Option<Volume>): (s: State)
    ensures |s.acs| == Slots && |s.sensmaps| == Slots
    ensures s.acq == [] && s.noise == [] && s.dmtx.None? && s.sent == [] && s.imascale == imascale
    ensures forall k :: 0 <= k < Slots ==> s.acs[k] == [] && s.sensmaps[k].None?
  {
    State([], None, seq(Slots, _ => []), seq(Slots, _ => None), [], imascale, [], None)
  }

  /** The record as insert_acq(noncartesian=False) leaves it. */
  function Labelled(item: Acquisition, prot: Acquisition): (a: Acquisition)
    ensures a.data == item.data && a.idx.slice == prot.idx.slice
  {
    PulseqProt.Relabel(item, prot)
  }

  /**
   * On the Cartesian path insert_acq never raises and returns None: the
   * record is only relabelled from the protocol record.
   */
  lemma CartesianInsertOnlyRelabels(cfg: Config, item: Acquisition, prot: Acquisition)
    requires Shaped(item) && Shaped(prot)
    ensures PulseqProt.InsertAcq(item, prot, cfg.hdr, false, cfg.calcTraj) == Success(PulseqProt.Inserted(Labelled(item, prot), None))
  {
  }

  /** Rows [int(nRO/4), int(nRO*3/4)) of the volume: the readout oversampling removed. */
  function Crop(v: Volume): (c: Volume)
    ensures |c| == (3 * |v|) / 4 - |v| / 4
    ensures forall i :: 0 <= i < |c| ==> c[i] == v[|v| / 4 + i]
  {
    v[|v| / 4 .. (3 * |v|) / 4]
  }

  /**
   * For an even readout length the crop keeps exactly the central half:
   * it drops as many rows before it as after it, or one fewer before.
   */
  lemma CropKeepsCentralHalf(v: Volume)
    requires |v| % 2 == 0
    ensures |Crop(v)| == |v| / 2
    ensures var before := |v| / 4; var after := |v| - before - |Crop(v)|;
      before <= after <= before + 1
  {
    var n := |v|;
    var m := n / 2;
    assert n == 2 * m;
    if m % 2 == 0 {
      assert n / 4 == m / 2;
      assert (3 * n) / 4 == 3 * (m / 2);
    } else {
      assert n / 4 == (m - 1) / 2;
      assert (3 * n) / 4 == (3 * m - 1) / 2;
    }
  }

  /**
   * process_raw: sort the group into k-space, reconstruct, take the scale
   * from this volume unless one is already cached, crop, and number the
   * image 1.
   */
  function ProcessRaw(cfg: Config, group: seq<Acquisition>, dmtx: Option<Prewhitening>, sensmap: Option<SensMap>,
                      imascale: Option<Volume>): (r: Result<(Image, Volume), RouteError>)
    ensures r.Failure? <==> |group| == 0 || cfg.sort(group, dmtx).Failure?
    ensures r.Success? ==> |group| > 0 && r.value.0.head == group[0] && r.value.0.index == 1
    ensures r.Success? ==> r.value.0.scaleFrom == r.value.1
    ensures r.Success? && imascale.Some? ==> r.value.1 == imascale.value
  {
    if |group| == 0 then Failure(SortFailed)
    else match cfg.sort(group, dmtx)
    case Failure(_) => Failure(SortFailed)
    case Success(k) =>
      var vol := cfg.recon(k, group[0], sensmap);
      var scale := if imascale.Some? then imascale.value else vol;
      Success((Image(group[0], Crop(vol), scale, 1), scale))
  }

  /** The slice's map for a reconstruction: its own, or else process_acs of its calibration buffer. */
  function SliceMap(cfg: Config, s: State, slice: nat): Result<Option<SensMap>, RouteError>
    requires slice < |s.sensmaps| && (s.sensmaps[slice].Some? || slice < |s.acs|)
  {
    if s.sensmaps[slice].Some? then Success(s.sensmaps[slice])
    else ProcessAcs(s.acs[slice], s.dmtx, cfg.acsSort(s.acs[slice], s.dmtx))
  }

  /**
   * The calibration and processing of the open group when a record of
   * `slice` closes it: the slice's map is computed from its calibration
   * buffer only if it is still missing (process_acs raises when its
   * k-space sort does), the group is reconstructed and the group is emptied.
   */
  function Processed(cfg: Config, s: State, slice: nat): Result<State, RouteError>
  {
    if slice >= |s.sensmaps| || (s.sensmaps[slice].None? && slice >= |s.acs|) then Failure(SliceOutOfRange)
    else
      var m := SliceMap(cfg, s, slice);
      if m.Failure? then Failure(m.error)
      else
        var smap := m.value;
        match ProcessRaw(cfg, s.acq, s.dmtx, smap, s.imascale)
        case Failure(e) => Failure(e)
        case Success((img, scale)) =>
          Success(s.(sensmaps := s.sensmaps[slice := smap], acq := [], imascale := Some(scale), sent := s.sent + [img]))
  }

  /** One iteration of the routing loop for one raw record and its protocol record. */
  function Step(cfg: Config, s: State, item: Acquisition, prot: Acquisition): Result<State, RouteError>
    requires Shaped(item) && Shaped(prot)
  {
    var a := Labelled(item, prot);
    var s0 := s.(current := Some(a));
    if Has(a, NoiseMeasurement) then Success(s0.(noise := s0.noise + [a]))
    else
      var s1 := s0.(dmtx := Prewhiten(s0.noise, s0.dmtx, false).1);
      if Has(a, PhaseCorrData) then Success(s1)
      else if Has(a, ParallelCalibration) then
        if a.idx.slice >= |s1.acs| then Failure(SliceOutOfRange)
        else Success(s1.(acs := s1.acs[a.idx.slice := s1.acs[a.idx.slice] + [a]]))
      else
        var s2 := s1.(acq := s1.acq + [a]);
        if Has(a, LastInSlice) || Has(a, LastInRepetition) then Processed(cfg, s2, a.idx.slice)
        else Success(s2)
  }

  /** The state after the first `i` records (the protocol must hold a record for each). */
  function RunTo(cfg: Config, s0: State, items: seq<Acquisition>, prots: seq<Acquisition>, i: nat)
    : Result<State, RouteError>
    requires i <= |items| && AllShaped(items) && AllShaped(prots)
  {
    if i == 0 then Success(s0)
    else match RunTo(cfg, s0, items, prots, i - 1)
      case Failure(e) => Failure(e)
      case Success(s) => if i - 1 < |prots| then Step(cfg, s, items[i - 1], prots[i - 1]) else Failure(InsertFailed)
  }

  /** A record with a protocol entry moves the loop on by one step. */
  lemma RunToNext(cfg: Config, s0: State, items: seq<Acquisition>, prots: seq<Acquisition>, i: nat, s: State)
    requires i < |items| && i < |prots| && AllShaped(items) && AllShaped(prots)
    requires RunTo(cfg, s0, items, prots, i) == Success(s)
    ensures RunTo(cfg, s0, items, prots, i + 1) == Step(cfg, s, items[i], prots[i])
  {
  }

  /** Once a record raises, the loop is over: every longer prefix ends in the same exception. */
  lemma {:induction false} RunStopsAtFailure(cfg: Config, s0: State, items: seq<Acquisition>, prots: seq<Acquisition>,
                                             i: nat, j: nat)
    requires i <= j <= |items| && AllShaped(items) && AllShaped(prots)
    requires RunTo(cfg, s0, items, prots, i).Failure?
    ensures RunTo(cfg, s0, items, prots, j) == RunTo(cfg, s0, items, prots, i)
    decreases j
  {
    if j > i {
      RunStopsAtFailure(cfg, s0, items, prots, i, j - 1);
    }
  }

  /** After the loop: a non-empty group is processed with the slice of the last record. */
  function Flushed(cfg: Config, s: State): Result<State, RouteError>
  {
    if |s.acq| > 0 && s.current.Some? then Processed(cfg, s, s.current.value.idx.slice) else Success(s)
  }

  /** A whole connection: the routing loop over every record, then the trailing flush. */
  function Outcome(cfg: Config, items: seq<Acquisition>, prots: seq<Acquisition>, imascale: Option<Volume>)
    : Result<State, RouteError>
    requires AllShaped(items) && AllShaped(prots)
  {
    match RunTo(cfg, Init(imascale), items, prots, |items|)
    case Failure(e) => Failure(e)
    case Success(s) => Flushed(cfg, s)
  }

  // ---------------------------------------------------------------------
  // Properties of one routing step
  // ---------------------------------------------------------------------

  /**
   * A noise readout only joins the noise buffer. Any other record finds the
   * matrix estimated from the buffered noise if none existed, an existing
   * matrix unchanged, and the noise buffer as it was: this pipeline never
   * clears it, and it never estimates the matrix twice.
   */
  lemma NoiseAndPrewhitening(cfg: Config, s: State, item: Acquisition, prot: Acquisition)
    requires Shaped(item) && Shaped(prot) && Step(cfg, s, item, prot).Success?
    ensures var a := Labelled(item, prot); var t := Step(cfg, s, item, prot).value;
      && (Has(a, NoiseMeasurement) ==>
            t == s.(noise := s.noise + [a], current := Some(a)))
      && (!Has(a, NoiseMeasurement) ==> t.noise == s.noise)
      && (!Has(a, NoiseMeasurement) && s.dmtx.None? && |s.noise| > 0 ==> t.dmtx == Some(Prewhitening(s.noise)))
      && (s.dmtx.Some? ==> t.dmtx == s.dmtx)
      && (!Has(a, NoiseMeasurement) && s.dmtx.None? && |s.noise| == 0 ==> t.dmtx.None?)
  {
  }

  /**
   * Phase-correction readouts are dropped and calibration readouts only
   * join their slice's calibration buffer: neither reaches the imaging group,
   * the maps or the images. A calibration slice beyond the 256 slots raises.
   */
  lemma DivertedRecords(cfg: Config, s: State, item: Acquisition, prot: Acquisition)
    requires Shaped(item) && Shaped(prot)
    requires !Has(Labelled(item, prot), NoiseMeasurement)
    requires Has(Labelled(item, prot), PhaseCorrData) || Has(Labelled(item, prot), ParallelCalibration)
    ensures var a := Labelled(item, prot); var r := Step(cfg, s, item, prot);
      && (r.Failure? <==> !Has(a, PhaseCorrData) && a.idx.slice >= |s.acs|)
      && (r.Success? ==>
            && r.value.acq == s.acq && r.value.sensmaps == s.sensmaps && r.value.sent == s.sent
            && r.value.imascale == s.imascale
            && r.value.acs == (if Has(a, PhaseCorrData) then s.acs else s.acs[a.idx.slice := s.acs[a.idx.slice] + [a]]))
  {
  }

  /**
   * Every other record, dummy readouts included, joins the imaging group in
   * arrival order; without a last-in-slice or last-in-repetition flag
   * nothing else happens.
   */
  lemma ImagingRecordAppended(cfg: Config, s: State, item: Acquisition, prot: Acquisition)
    requires Shaped(item) && Shaped(prot)
    requires var a := Labelled(item, prot);
      && !Has(a, NoiseMeasurement) && !Has(a, PhaseCorrData) && !Has(a, ParallelCalibration)
      && !Has(a, LastInSlice) && !Has(a, LastInRepetition)
    ensures Step(cfg, s, item, prot).Success?
    ensures var t := Step(cfg, s, item, prot).value;
      && t.acq == s.acq + [Labelled(item, prot)]
      && t.acs == s.acs && t.sensmaps == s.sensmaps && t.sent == s.sent && t.imascale == s.imascale
  {
  }

  /**
   * A record that closes a slice or a repetition completes the group: the
   * slice's map is computed from its calibration buffer only if it was
   * missing (and stays missing for an empty buffer), exactly one image is
   * sent, built from the group's first readout, and the group is emptied.
   */
  lemma ClosingRecordProcessesGroup(cfg: Config, s: State, item: Acquisition, prot: Acquisition)
    requires Shaped(item) && Shaped(prot)
    requires var a := Labelled(item, prot);
      && !Has(a, NoiseMeasurement) && !Has(a, PhaseCorrData) && !Has(a, ParallelCalibration)
      && (Has(a, LastInSlice) || Has(a, LastInRepetition))
    requires Step(cfg, s, item, prot).Success?
    ensures var a := Labelled(item, prot); var t := Step(cfg, s, item, prot).value;
      && a.idx.slice < |s.sensmaps|
      && t.acq == [] && t.acs == s.acs
      && |t.sent| == |s.sent| + 1 && t.sent[..|s.sent|] == s.sent
      && t.sent[|s.sent|].head == (s.acq + [a])[0] && t.sent[|s.sent|].index == 1
      && t.sensmaps == s.sensmaps[a.idx.slice := t.sensmaps[a.idx.slice]]
      && (s.sensmaps[a.idx.slice].Some? ==> t.sensmaps[a.idx.slice] == s.sensmaps[a.idx.slice])
      && (s.sensmaps[a.idx.slice].None? ==>
            && a.idx.slice < |s.acs|
            && (|s.acs[a.idx.slice]| == 0 ==> t.sensmaps[a.idx.slice].None?)
            && (|s.acs[a.idx.slice]| > 0 ==>
                  cfg.acsSort(s.acs[a.idx.slice], t.dmtx).Success?
                  && t.sensmaps[a.idx.slice] == Some(Calibrated(s.acs[a.idx.slice], t.dmtx))))
  {
    var a := Labelled(item, prot);
    var s1 := s.(current := Some(a), dmtx := Prewhiten(s.noise, s.dmtx, false).1);
    var s2 := s1.(acq := s1.acq + [a]);
    assert Step(cfg, s, item, prot) == Processed(cfg, s2, a.idx.slice);
  }

  /**
   * A closing record of a slice without a map calibrates it lazily; when
   * the slice's buffer holds readouts whose recentred k-space sort raises,
   * process_acs raises and the connection ends.
   */
  lemma ClosingCalibrationRaises(cfg: Config, s: State, item: Acquisition, prot: Acquisition)
    requires Shaped(item) && Shaped(prot)
    requires var a := Labelled(item, prot);
      && !Has(a, NoiseMeasurement) && !Has(a, PhaseCorrData) && !Has(a, ParallelCalibration)
      && (Has(a, LastInSlice) || Has(a, LastInRepetition))
      && a.idx.slice < |s.sensmaps| && a.idx.slice < |s.acs| && s.sensmaps[a.idx.slice].None?
      && |s.acs[a.idx.slice]| > 0
      && cfg.acsSort(s.acs[a.idx.slice], Prewhiten(s.noise, s.dmtx, false).1).Failure?
    ensures Step(cfg, s, item, prot) == Failure(SortFailed)
  {
    var a := Labelled(item, prot);
    var s1 := s.(current := Some(a), dmtx := Prewhiten(s.noise, s.dmtx, false).1);
    var s2 := s1.(acq := s1.acq + [a]);
    assert Step(cfg, s, item, prot) == Processed(cfg, s2, a.idx.slice);
  }

  /**
   * The trailing flush: a non-empty remainder is processed exactly once,
   * adding one image and emptying the group; an empty one changes nothing.
   */
  lemma FlushProcessesRemainderOnce(cfg: Config, s: State)
    ensures |s.acq| == 0 ==> Flushed(cfg, s) == Success(s)
    ensures |s.acq| > 0 && Flushed(cfg, s).Success? ==>
      var t := Flushed(cfg, s).value;
      && s.current.Some? ==> (t.acq == [] && |t.sent| == |s.sent| + 1 && t.sent[..|s.sent|] == s.sent
                              && t.sent[|s.sent|].head == s.acq[0])
  {
  }

  // ---------------------------------------------------------------------
  // The intensity scale of process_raw
  // ---------------------------------------------------------------------

  /**
   * Every image sent so far was scaled from the cached volume, the cache is
   * filled once an image was sent, and a cache given at the start is kept.
   */
  predicate ScaleConsistent(s: State, start: Option<Volume>)
  {
    && (start.Some? ==> s.imascale == start)
    && (|s.sent| > 0 ==> s.imascale.Some?)
    && (forall k :: 0 <= k < |s.sent| ==> s.sent[k].scaleFrom == s.imascale.value)
  }

  /** One step keeps the scale cache consistent and never overwrites it. */
  lemma StepKeepsScale(cfg: Config, s: State, item: Acquisition, prot: Acquisition, start: Option<Volume>)
    requires Shaped(item) && Shaped(prot) && Step(cfg, s, item, prot).Success?
    requires ScaleConsistent(s, start)
    ensures ScaleConsistent(Step(cfg, s, item, prot).value, start)
    ensures s.imascale.Some? ==> Step(cfg, s, item, prot).value.imascale == s.imascale
  {
    var a := Labelled(item, prot);
    var t := Step(cfg, s, item, prot).value;
    if !Has(a, NoiseMeasurement) && !Has(a, PhaseCorrData) && !Has(a, ParallelCalibration)
       && (Has(a, LastInSlice) || Has(a, LastInRepetition)) {
      ClosingRecordProcessesGroup(cfg, s, item, prot);
      var s2 := s.(current := Some(a), dmtx := Prewhiten(s.noise, s.dmtx, false).1, acq := s.acq + [a]);
      var slice := a.idx.slice;
      var smap := SliceMap(cfg, s2, slice).value;
      var out := ProcessRaw(cfg, s2.acq, s2.dmtx, smap, s2.imascale).value;
      assert t.imascale == Some(out.1) && t.sent == s.sent + [out.0];
      assert out.0.scaleFrom == out.1;
      forall k | 0 <= k < |t.sent|
        ensures t.sent[k].scaleFrom == t.imascale.value
      {
        if k < |s.sent| {
          assert t.sent[k] == s.sent[k];
        }
      }
    }
  }

  /**
   * process_raw.imascale is assigned only on the first reconstruction:
   * along the whole loop every image carries the scale of the first volume
   * (or the one inherited from an earlier connection), and the cache is
   * never overwritten.
   */
  lemma {:induction false} ScaleFixedByFirstImage(cfg: Config, items: seq<Acquisition>, prots: seq<Acquisition>,
                                                  start: Option<Volume>, i: nat)
    requires i <= |items| && AllShaped(items) && AllShaped(prots)
    requires RunTo(cfg, Init(start), items, prots, i).Success?
    ensures ScaleConsistent(RunTo(cfg, Init(start), items, prots, i).value, start)
  {
    if i > 0 {
      ScaleFixedByFirstImage(cfg, items, prots, start, i - 1);
      var s := RunTo(cfg, Init(start), items, prots, i - 1).value;
      StepKeepsScale(cfg, s, items[i - 1], prots[i - 1], start);
    }
  }

  /**
   * Once estimated, the prewhitening matrix stays the same for the rest of
   * the connection.
   */
  lemma {:induction false} PrewhiteningStaysFixed(cfg: Config, s0: State, items: seq<Acquisition>, prots: seq<Acquisition>,
                                                  i: nat, j: nat)
    requires i <= j <= |items| && AllShaped(items) && AllShaped(prots)
    requires RunTo(cfg, s0, items, prots, j).Success?
    requires RunTo(cfg, s0, items, prots, i).Success? && RunTo(cfg, s0, items, prots, i).value.dmtx.Some?
    ensures RunTo(cfg, s0, items, prots, j).value.dmtx == RunTo(cfg, s0, items, prots, i).value.dmtx
    decreases j
  {
    if j > i {
      PrewhiteningStaysFixed(cfg, s0, items, prots, i, j - 1);
      NoiseAndPrewhitening(cfg, RunTo(cfg, s0, items, prots, j - 1).value, items[j - 1], prots[j - 1]);
    }
  }

  /** process(): the routing loop's buffers as the fields of one object. */
  class Router {
    const cfg: Config
    var noiseGroup: seq<Acquisition>
    var dmtx: Option<Prewhitening>
    var acsGroup: seq<seq<Acquisition>>
    var sensmaps: seq<Option<SensMap>>
    var acqGroup: seq<Acquisition>
    var imascale: Option<Volume>
    var sent: seq<Image>
    var item: Option<Acquisition>

    function View(): State
      reads this
    {
      State(noiseGroup, dmtx, acsGroup, sensmaps, acqGroup, imascale, sent, item)
    }

    constructor(cfg: Config, imascale: Option<Volume>)
      ensures this.cfg == cfg && View() == Init(imascale)
    {
      this.cfg := cfg;
      noiseGroup := [];
      dmtx := None;
      acsGroup := seq(Slots, _ => []);
      sensmaps := seq(Slots, _ => None);
      acqGroup := [];
      this.imascale := imascale;
      sent := [];
      item := None;
    }

    /** Calibrate if needed, reconstruct the open group and empty it. */
    method ProcessGroup(slice: nat) returns (err: Option<RouteError>)
      modifies this
      ensures Processed(cfg, old(View()), slice) == if err.None? then Success(View()) else Failure(err.value)
    {
      if slice >= |sensmaps| || (sensmaps[slice].None? && slice >= |acsGroup|) {
        assert Processed(cfg, old(View()), slice) == Failure(SliceOutOfRange);
        return Some(SliceOutOfRange);
      }
      if sensmaps[slice].None? {
        var m := ProcessAcs(acsGroup[slice], dmtx, cfg.acsSort(acsGroup[slice], dmtx));
        if m.Failure? {
          return Some(m.error);
        }
        sensmaps := sensmaps[slice := m.value];
      } else {
        assert sensmaps[slice := sensmaps[slice]] == sensmaps;
      }
      ghost var calibrated := old(View()).(sensmaps := sensmaps);
      assert Processed(cfg, old(View()), slice) == 
        match ProcessRaw(cfg, acqGroup, dmtx, sensmaps[slice], imascale)
        case Failure(e) => Failure(e)
        case Success((img, scale)) => Success(calibrated.(acq := [], imascale := Some(scale), sent := sent + [img]));
      if |acqGroup| == 0 {
        return Some(SortFailed);
      }
      var k := cfg.sort(acqGroup, dmtx);
      if k.Failure? {
        assert ProcessRaw(cfg, acqGroup, dmtx, sensmaps[slice], imascale) == Failure(SortFailed);
        return Some(SortFailed);
      }
      var vol := cfg.recon(k.value, acqGroup[0], sensmaps[slice]);
      if imascale.None? {
        imascale := Some(vol);
      }
      var img := Image(acqGroup[0], Crop(vol), imascale.value, 1);
      assert ProcessRaw(cfg, acqGroup, dmtx, sensmaps[slice], old(imascale)) == Success((img, imascale.value));
      sent := sent + [img];
      acqGroup := [];
      assert sensmaps == calibrated.sensmaps;
      return None;
    }

    /** One iteration of the routing loop. */
    method Route(raw: Acquisition, prot: Acquisition) returns (err: Option<RouteError>)
      requires Shaped(raw) && Shaped(prot)
      modifies this
      ensures Step(cfg, old(View()), raw, prot) == if err.None? then Success(View()) else Failure(err.value)
    {
      var a := Labelled(raw, prot);
      item := Some(a);
      if Has(a, NoiseMeasurement) {
        noiseGroup := noiseGroup + [a];
        return None;
      }
      if |noiseGroup| > 0 && dmtx.None? {
        dmtx := Some(Prewhitening(noiseGroup));
      }
      if Has(a, PhaseCorrData) {
        return None;
      }
      if Has(a, ParallelCalibration) {
        if a.idx.slice >= |acsGroup| {
          return Some(SliceOutOfRange);
        }
        acsGroup := acsGroup[a.idx.slice := acsGroup[a.idx.slice] + [a]];
        return None;
      }
      acqGroup := acqGroup + [a];
      if Has(a, LastInSlice) || Has(a, LastInRepetition) {
        err := ProcessGroup(a.idx.slice);
      } else {
        err := None;
      }
    }

    /** The untriggered remainder, processed with the last record's slice. */
    method Flush() returns (err: Option<RouteError>)
      modifies this
      ensures Flushed(cfg, old(View())) == if err.None? then Success(View()) else Failure(err.value)
    {
      if |acqGroup| > 0 && item.Some? {
        err := ProcessGroup(item.value.idx.slice);
      } else {
        err := None;
      }
    }
  }

  /** The routing loop of process(): every record in order, stopping at the first exception. */
  method RouteAll(router: Router, items: seq<Acquisition>, prots: seq<Acquisition>) returns (err: Option<RouteError>)
    requires AllShaped(items) && AllShaped(prots)
    modifies router
    ensures RunTo(router.cfg, old(router.View()), items, prots, |items|) ==
      if err.None? then Success(router.View()) else Failure(err.value)
  {
    ghost var s0 := router.View();
    var i := 0;
    while i < |items|
      invariant 0 <= i <= |items|
      invariant RunTo(router.cfg, s0, items, prots, i) == Success(router.View())
    {
      if i >= |prots| {
        RunStopsAtFailure(router.cfg, s0, items, prots, i + 1, |items|);
        return Some(InsertFailed);
      }
      RunToNext(router.cfg, s0, items, prots, i, router.View());
      err := router.Route(items[i], prots[i]);
      if err.Some? {
        RunStopsAtFailure(router.cfg, s0, items, prots, i + 1, |items|);
        return err;
      }
      i := i + 1;
    }
    return None;
  }

  /** process(): route every record in order, then flush the remainder. */
  method Process(cfg: Config, items: seq<Acquisition>, prots: seq<Acquisition>, imascale: Option<Volume>)
    returns (r: Result<State, RouteError>)
    requires AllShaped(items) && AllShaped(prots)
    ensures r == Outcome(cfg, items, prots, imascale)
  {
    var router := new Router(cfg, imascale);
    var err := RouteAll(router, items, prots);
    if err.Some? {
      return Failure(err.value);
    }
    err := router.Flush();
    if err.Some? {
      return Failure(err.value);
    }
    return Success(router.View());
  }
}
