/**
 * The spiral DREAM B1-mapping pipeline (bart_pulseq_spiral_dream.py): every
 * record goes through insert_acq with a non-Cartesian protocol; noise
 * readouts feed a one-time prewhitening estimate; phase-correction and dummy
 * readouts are dropped; calibration readouts are buffered per slice and
 * calibrated on the slice's last one. Before each imaging readout, missing
 * maps are copied from the neighbouring slice; imaging readouts are buffered
 * per [contrast][slice], later ADC segments are spliced into the segment-0
 * readout, and the last segment is FOV-corrected in place. A record that
 * closes a slice or repetition reconstructs its group and empties it.
 * process_raw keeps per-contrast caches between calls: the intensity scale,
 * and the raw data and images of each contrast until all contrasts are
 * present and the flip-angle and reference-voltage maps can be computed.
 */
module DreamRouter {
  import opened Mrd
  import opened ReconCalls
  import opened Routing
  import PulseqProt
  import SpiralSort
  import KSpaceSort

  /** A [channel][sample] readout. */
  type Readout = seq<seq<Complex>>

  /** A magnitude image volume. */
  type Volume = seq<seq<seq<real>>>

  /**
   * The `data` of process_raw once it is sent: a reconstructed volume, or the
   * sorted raw data itself when the FID contrast is not reconstructed because
   * the global filter is active.
   */
  datatype Pixels = Reconstructed(volume: Volume) | Unreconstructed(raw: SpiralSort.Sorted)

  /**
   * What process_spiral_dream derives before its loop and the helpers it
   * calls: nSlc, nContr and nSegments are the encoding limits' slice,
   * contrast and segment maxima plus one; hdr the dataset header (its user
   * parameters hold the current reference voltage); dream the protocol's
   * 'dream' array if present. The functions are insert_acq with the protocol
   * file, sort_spiral_data, fov_shift_spiral_reapply (given the buffered data,
   * the segment-0 record the predicted trajectory and shift come from, and
   * the base trajectory), the BART reconstruction of one contrast, the
   * reconstruction of the globally filtered FID from the STE and FID raw
   * data, the partition count data.shape[-1] of what is sent, and the
   * sort_into_kspace (recentred) inside process_acs.
   */
  datatype Config = Config(
    nSlc: nat, nContr: nat, nSegments: int, hdr: Header, dream: Option<seq<real>>,
    insert: (Acquisition, Acquisition) -> Result<PulseqProt.Inserted, PulseqProt.InsertError>,
    sort: (seq<Acquisition>, Option<Prewhitening>) -> Result<SpiralSort.Sorted, SpiralSort.SortError>,
    reapply: (Readout, Acquisition, Option<seq<seq<real>>>) -> Readout,
    recon: (SpiralSort.Sorted, Option<SensMap>) -> Volume,
    fidRecon: (SpiralSort.Sorted, SpiralSort.Sorted, seq<real>, seq<Acquisition>, Option<SensMap>) -> Volume,
    parts: Pixels -> nat,
    acsSort: KSpaceSort.KSpaceSorter)

  /**
   * The pipeline's own helpers: insert_acq against the protocol header (it is
   * passed the dataset header where `noncartesian` is expected, which is
   * truthy), the sort_spiral_data of this file, and this file's
   * sort_into_kspace, recentred, on the dataset header inside process_acs.
   */
  function Configure(c: Config, protHdr: Header, calcTraj: nat -> PulseqProt.TrajPrediction, whiten: Whitening,
                     filt: SpiralSort.ReadoutFilter): (cfg: Config)
    ensures cfg == c.(insert := cfg.insert, sort := cfg.sort, acsSort := cfg.acsSort)
    ensures forall t, p :: Shaped(t) && Shaped(p) ==>
      cfg.insert(t, p) == PulseqProt.InsertAcq(t, p, protHdr, true, calcTraj)
    ensures forall g, d :: AllShaped(g) ==> cfg.sort(g, d) == SpiralSort.DreamSorted(g, d, whiten, filt)
    ensures forall g, d ::
      cfg.acsSort(g, d) == KSpaceSort.KSpaceOf(g, KSpaceSort.PowerGridGeometry(c.hdr.encodedMatrix), c.hdr.receiverChannels, d, whiten, true)
  {
    c.(insert := (t, p) =>
         if Shaped(t) && Shaped(p) then PulseqProt.InsertAcq(t, p, protHdr, true, calcTraj)
         else Failure(PulseqProt.TrajectoryShape),
       sort := (g, d) => if AllShaped(g) then SpiralSort.DreamSorted(g, d, whiten, filt) else Failure(SpiralSort.Ragged),
       acsSort := (g, d) =>
         KSpaceSort.KSpaceOf(g, KSpaceSort.PowerGridGeometry(c.hdr.encodedMatrix), c.hdr.receiverChannels, d, whiten, true))
  }

  datatype ImageKind = Magnitude | FlipAngleMap | RefVoltageMap

  /**
   * An image sent to the client: the readout it is built from, what it
   * shows, its partition, image_index and image_series_index, and for a
   * magnitude image the data its intensity scale 0.8/max was taken from.
   */
  datatype Image = Image(head: Acquisition, kind: ImageKind, partition: nat, index: int, series: int,
                         scaleFrom: Option<Pixels>)

  /** The function attributes process_raw.rawdata, .imagesets and .imascale, one slot per contrast. */
  datatype Caches = Caches(
    rawdata: seq<Option<SpiralSort.Sorted>>,
    imagesets: seq<Option<Pixels>>,
    imascale: seq<Option<Pixels>>)

  /** noiseGroup, dmtx, base_trj and the loop variable `item` (as insert_acq left it). */
  datatype Ctx = Ctx(
    noise: seq<Acquisition>,
    dmtx: Option<Prewhitening>,
    base: Option<seq<seq<real>>>,
    current: Option<Acquisition>)

  /**
   * acsGroup, sensmaps, old_grid, acqGroup[contrast][slice], and the
   * segment-0 record pred_trj and shift were last taken from.
   */
  datatype Buffers = Buffers(
    acs: seq<seq<Acquisition>>,
    sensmaps: seq<Option<SensMap>>,
    oldGrid: seq<nat>,
    acq: seq<seq<seq<Acquisition>>>,
    seg0: Option<Acquisition>)

  /** The caches of process_raw and the images sent so far. */
  datatype Output = Output(cache: Caches, sent: seq<Image>)

  /** The local state of process_spiral_dream and the attributes of process_raw. */
  datatype State = State(ctx: Ctx, buf: Buffers, out: Output)

  /** `[None] * n` for each cache. */
  function EmptyCaches(n: nat): (c: Caches)
    ensures |c.rawdata| == n && |c.imagesets| == n && |c.imascale| == n
    ensures forall k :: 0 <= k < n ==> c.rawdata[k].None? && c.imagesets[k].None? && c.imascale[k].None?
  {
    Caches(seq(n, _ => None), seq(n, _ => None), seq(n, _ => None))
  }

  /** The buffers and caches process_spiral_dream allocates. */
  function Init(cfg: Config): (s: State)
    ensures |s.buf.acs| == cfg.nSlc && |s.buf.sensmaps| == cfg.nSlc && |s.buf.acq| == cfg.nContr
    ensures forall sl :: 0 <= sl < cfg.nSlc ==> s.buf.acs[sl] == [] && s.buf.sensmaps[sl].None?
    ensures forall c :: 0 <= c < cfg.nContr ==>
      |s.buf.acq[c]| == cfg.nSlc && forall sl :: 0 <= sl < cfg.nSlc ==> s.buf.acq[c][sl] == []
    ensures s.ctx == Ctx([], None, None, None) && s.buf.oldGrid == [] && s.buf.seg0.None?
    ensures s.out == Output(EmptyCaches(cfg.nContr), [])
  {
    State(Ctx([], None, None, None),
          Buffers(seq(cfg.nSlc, _ => []), seq(cfg.nSlc, _ => None), [], seq(cfg.nContr, _ => seq(cfg.nSlc, _ => [])), None),
          Output(EmptyCaches(cfg.nContr), []))
  }

  // ---------------------------------------------------------------------
  // process_raw: the per-contrast caches and the image numbering
  // ---------------------------------------------------------------------

  /** Every contrast has its images: `all(elem is not None for elem in imagesets)`. */
  predicate Full(sets: seq<Option<Pixels>>)
  {
    forall k :: 0 <= k < |sets| ==> sets[k].Some?
  }

  /** int(n_contr - 1 - dream[0]): the FID contrast, dream[0] being the STE contrast. */
  function FidContrast(nContr: nat, d: seq<real>): int
    requires |d| > 0
  {
    TruncToInt(nContr as real - 1.0 - d[0])
  }

  /**
   * What one contrast contributes: with the global filter active (more than
   * two entries in the 'dream' array) the FID contrast is kept as raw data,
   * every other contrast is reconstructed.
   */
  function Pictured(cfg: Config, sorted: SpiralSort.Sorted, smap: Option<SensMap>, d: seq<real>, c: nat): (p: Pixels)
    requires |d| > 0
    ensures p.Unreconstructed? <==> c == FidContrast(cfg.nContr, d) && |d| > 2
  {
    if c == FidContrast(cfg.nContr, d) && |d| > 2 then Unreconstructed(sorted) else Reconstructed(cfg.recon(sorted, smap))
  }

  /**
   * The map branch, once every contrast has its images: the STE images are
   * looked up, and with the global filter the FID is reconstructed again from
   * the filtered raw data and becomes the data sent; the reference voltage
   * is read from the sixth user parameter and the nominal flip angle from
   * dream[1]. Returns the data sent.
   */
  function Mapped(cfg: Config, raw: seq<Option<SpiralSort.Sorted>>, sets: seq<Option<Pixels>>, d: seq<real>,
                  group: seq<Acquisition>, smap: Option<SensMap>, data: Pixels): (r: Result<Pixels, RouteError>)
    requires |d| > 0
    ensures r.Success? && |d| <= 2 ==> r.value == data
    ensures r.Success? ==> |cfg.hdr.userDoubles| > 5 && |d| >= 2
  {
    var ste := PyIndex(TruncToInt(d[0]), |sets|);
    if ste.None? then Failure(DreamArrayIndex)
    else if |d| > 2 then
      if |d| < 6 then Failure(DreamArrayIndex)
      else
        var si := PyIndex(TruncToInt(d[0]), |raw|);
        var fi := PyIndex(FidContrast(cfg.nContr, d), |raw|);
        if si.None? || fi.None? then Failure(DreamArrayIndex)
        else if raw[si.value].None? || raw[fi.value].None? then Failure(EmptyCacheSlot)
        else if |cfg.hdr.userDoubles| <= 5 then Failure(DreamArrayIndex)
        else Success(Reconstructed(cfg.fidRecon(raw[si.value].value, raw[fi.value].value, d, group, smap)))
    else
      var fi := PyIndex(FidContrast(cfg.nContr, d), |sets|);
      if fi.None? || |cfg.hdr.userDoubles| <= 5 || |d| < 2 then Failure(DreamArrayIndex)
      else Success(data)
  }

  /** One image per partition, partition p numbered first + p. */
  function PartitionImages(head: Acquisition, kind: ImageKind, nPar: nat, first: int, series: int,
                           scale: Option<Pixels>): (imgs: seq<Image>)
    ensures |imgs| == nPar
    ensures forall p :: 0 <= p < nPar ==> imgs[p] == Image(head, kind, p, first + p, series, scale)
  {
    seq(nPar, p requires 0 <= p < nPar => Image(head, kind, p, first + p, series, scale))
  }

  /**
   * The images of one call: with several partitions, each partition's
   * magnitude image is numbered 1 + contrast*n_par + par in series 1 and the
   * maps 1 + par in series 2 and 3; otherwise one magnitude image numbered
   * 1 + contrast*n_slc + slice in series 1 + repetition, and the maps under
   * the same number in series 2 and 3.
   */
  function Numbered(head: Acquisition, nPar: nat, nSlc: nat, scale: Pixels, maps: bool): (imgs: seq<Image>)
    ensures |imgs| == (if nPar > 1 then nPar else 1) * (if maps then 3 else 1)
    ensures forall k :: 0 <= k < |imgs| ==>
      imgs[k].head == head && (imgs[k].kind == Magnitude <==> imgs[k].scaleFrom == Some(scale))
    ensures forall k :: 0 <= k < |imgs| ==> (imgs[k].kind != Magnitude <==> maps && k >= |imgs| / 3)
  {
    var c := head.idx.contrast as int;
    if nPar > 1 then
      PartitionImages(head, Magnitude, nPar, 1 + c * nPar, 1, Some(scale))
      + (if maps then PartitionImages(head, FlipAngleMap, nPar, 1, 2, None) + PartitionImages(head, RefVoltageMap, nPar, 1, 3, None)
         else [])
    else
      var idx := 1 + c * nSlc + head.idx.slice as int;
      [Image(head, Magnitude, 0, idx, 1 + head.idx.repetition as int, Some(scale))]
      + (if maps then [Image(head, FlipAngleMap, 0, idx, 2, None), Image(head, RefVoltageMap, 0, idx, 3, None)] else [])
  }

  /**
   * process_raw: sort the group, record its raw data and its images under
   * its contrast, compute the maps and empty both caches once every contrast
   * is present, take the contrast's intensity scale from this call unless one
   * is cached, and number the images.
   */
  function ProcessRaw(cfg: Config, cache: Caches, group: seq<Acquisition>, dmtx: Option<Prewhitening>,
                      smap: Option<SensMap>, dream: Option<seq<real>>): (r: Result<(Caches, seq<Image>), RouteError>)
    ensures r.Success? ==> |group| > 0 && cfg.sort(group, dmtx).Success? && dream.Some?
    ensures r.Success? ==> forall k :: 0 <= k < |r.value.1| ==> r.value.1[k].head == group[0]
  {
    if |group| == 0 then Failure(SortFailed)
    else
      var sorted := cfg.sort(group, dmtx);
      if sorted.Failure? then Failure(SortFailed)
      else if dream.None? then Failure(NoProtArrays)
      else
        var c := group[0].idx.contrast as nat;
        if c >= |cache.rawdata| || |dream.value| == 0 || c >= |cache.imagesets| then Failure(DreamArrayIndex)
        else Recorded(cfg, cache, group, sorted.value, smap, dream.value)
  }

  /**
   * process_raw once the group is sorted and the 'dream' array is there:
   * the caches are updated, the maps computed if every contrast is present,
   * the scale chosen and the images numbered.
   */
  function Recorded(cfg: Config, cache: Caches, group: seq<Acquisition>, sorted: SpiralSort.Sorted,
                    smap: Option<SensMap>, d: seq<real>): (r: Result<(Caches, seq<Image>), RouteError>)
    requires |group| > 0 && |d| > 0
    requires group[0].idx.contrast as nat < |cache.rawdata| && group[0].idx.contrast as nat < |cache.imagesets|
    ensures r.Success? ==> forall k :: 0 <= k < |r.value.1| ==> r.value.1[k].head == group[0]
  {
    var c := group[0].idx.contrast as nat;
    var raw := cache.rawdata[c := Some(sorted)];
    var data := Pictured(cfg, sorted, smap, d, c);
    var sets := cache.imagesets[c := Some(data)];
    var maps := Full(sets);
    var m := if maps then Mapped(cfg, raw, sets, d, group, smap, data) else Success(data);
    if m.Failure? then Failure(m.error)
    else if c >= |cache.imascale| then Failure(DreamArrayIndex)
    else
      var scale := if cache.imascale[c].Some? then cache.imascale[c].value else m.value;
      var nPar := cfg.parts(m.value);
      if nPar == 0 then Failure(EmptyImage)
      else
        var next := if maps then Caches(seq(cfg.nContr, _ => None), seq(cfg.nContr, _ => None), cache.imascale[c := Some(scale)])
                    else Caches(raw, sets, cache.imascale[c := Some(scale)]);
        Success((next, Numbered(group[0], nPar, cfg.nSlc, scale, maps)))
  }

  /** The images of one call carry a flip-angle map. */
  predicate HasMaps(imgs: seq<Image>)
  {
    exists k :: 0 <= k < |imgs| && imgs[k].kind == FlipAngleMap
  }

  /**
   * process_raw.imascale[contr] is assigned on the first call for a
   * contrast and never overwritten; no other contrast's scale changes, and
   * every magnitude image of the call is scaled from the cached value.
   */
  lemma ImascaleSetOnce(cfg: Config, cache: Caches, group: seq<Acquisition>, dmtx: Option<Prewhitening>,
                        smap: Option<SensMap>, dream: Option<seq<real>>)
    requires ProcessRaw(cfg, cache, group, dmtx, smap, dream).Success?
    ensures var (next, imgs) := ProcessRaw(cfg, cache, group, dmtx, smap, dream).value;
      var c := group[0].idx.contrast as nat;
      && c < |cache.imascale| && |next.imascale| == |cache.imascale| && next.imascale[c].Some?
      && (cache.imascale[c].Some? ==> next.imascale[c] == cache.imascale[c])
      && (forall k :: 0 <= k < |cache.imascale| && k != c ==> next.imascale[k] == cache.imascale[k])
      && (forall k :: 0 <= k < |imgs| && imgs[k].kind == Magnitude ==> imgs[k].scaleFrom == next.imascale[c])
  {
  }

  /** Every contrast but c has its images. */
  predicate OthersPresent(sets: seq<Option<Pixels>>, c: nat)
  {
    forall k :: 0 <= k < |sets| && k != c ==> sets[k].Some?
  }

  /** Recording contrast c completes the image cache exactly when every other contrast is present. */
  lemma FullAfterRecording(sets: seq<Option<Pixels>>, c: nat, p: Pixels)
    requires c < |sets|
    ensures Full(sets[c := Some(p)]) <==> OthersPresent(sets, c)
  {
    var after := sets[c := Some(p)];
    if OthersPresent(sets, c) {
      forall k | 0 <= k < |after| ensures after[k].Some? {
        if k != c {
          assert after[k] == sets[k];
        }
      }
    } else {
      var k :| 0 <= k < |sets| && k != c && sets[k].None?;
      assert after[k].None?;
    }
  }

  /**
   * The maps are sent exactly when, with this call's contrast recorded,
   * every contrast has its images.
   */
  lemma MapsOnlyWhenFull(cfg: Config, cache: Caches, group: seq<Acquisition>, dmtx: Option<Prewhitening>,
                         smap: Option<SensMap>, dream: Option<seq<real>>)
    requires ProcessRaw(cfg, cache, group, dmtx, smap, dream).Success?
    ensures HasMaps(ProcessRaw(cfg, cache, group, dmtx, smap, dream).value.1)
        <==> OthersPresent(cache.imagesets, group[0].idx.contrast as nat)
  {
    var d := dream.value;
    var c := group[0].idx.contrast as nat;
    var sorted := cfg.sort(group, dmtx).value;
    var data := Pictured(cfg, sorted, smap, d, c);
    var sets := cache.imagesets[c := Some(data)];
    var m := if Full(sets) then Mapped(cfg, cache.rawdata[c := Some(sorted)], sets, d, group, smap, data) else Success(data);
    var scale := if cache.imascale[c].Some? then cache.imascale[c].value else m.value;
    assert ProcessRaw(cfg, cache, group, dmtx, smap, dream).value.1
        == Numbered(group[0], cfg.parts(m.value), cfg.nSlc, scale, Full(sets));
    NumberedMaps(group[0], cfg.parts(m.value), cfg.nSlc, scale, Full(sets));
    FullAfterRecording(cache.imagesets, c, data);
  }

  /**
   * Once every contrast has its images both caches are reset to all None;
   * otherwise this call's raw data and images are recorded under its
   * contrast and nothing else in them changes.
   */
  lemma CachesResetWhenFull(cfg: Config, cache: Caches, group: seq<Acquisition>, dmtx: Option<Prewhitening>,
                            smap: Option<SensMap>, dream: Option<seq<real>>)
    requires ProcessRaw(cfg, cache, group, dmtx, smap, dream).Success?
    ensures var next := ProcessRaw(cfg, cache, group, dmtx, smap, dream).value.0;
      var c := group[0].idx.contrast as nat;
      && c < |cache.imagesets| && c < |cache.rawdata|
      && (OthersPresent(cache.imagesets, c) ==>
            next.rawdata == EmptyCaches(cfg.nContr).rawdata && next.imagesets == EmptyCaches(cfg.nContr).imagesets)
      && (!OthersPresent(cache.imagesets, c) ==>
            && next.rawdata == cache.rawdata[c := Some(cfg.sort(group, dmtx).value)]
            && |next.imagesets| == |cache.imagesets| && next.imagesets[c].Some?
            && forall k :: 0 <= k < |cache.imagesets| && k != c ==> next.imagesets[k] == cache.imagesets[k])
  {
    var c := group[0].idx.contrast as nat;
    FullAfterRecording(cache.imagesets, c, Pictured(cfg, cfg.sort(group, dmtx).value, smap, dream.value, c));
  }

  /** The images of a call carry maps exactly when the call computed them. */
  lemma NumberedMaps(head: Acquisition, nPar: nat, nSlc: nat, scale: Pixels, maps: bool)
    ensures HasMaps(Numbered(head, nPar, nSlc, scale, maps)) <==> maps
  {
    var imgs := Numbered(head, nPar, nSlc, scale, maps);
    if maps {
      assert imgs[|imgs| / 3].kind != Magnitude;
      if nPar > 1 {
        assert imgs[nPar].kind == FlipAngleMap;
      } else {
        assert imgs[1].kind == FlipAngleMap;
      }
    }
  }

  /** The raw-data and image caches are sized per contrast and filled together. */
  predicate CachesInStep(cache: Caches, n: nat)
  {
    && |cache.rawdata| == n && |cache.imagesets| == n && |cache.imascale| == n
    && forall k :: 0 <= k < n ==> (cache.rawdata[k].Some? <==> cache.imagesets[k].Some?)
  }

  /**
   * process_raw keeps the caches in step; so once every contrast has its
   * images, the raw data of the STE and FID contrasts is there, and the map
   * branch never reads an empty raw-data slot.
   */
  lemma ProcessRawKeepsCaches(cfg: Config, cache: Caches, group: seq<Acquisition>, dmtx: Option<Prewhitening>,
                              smap: Option<SensMap>, dream: Option<seq<real>>)
    requires CachesInStep(cache, cfg.nContr)
    ensures ProcessRaw(cfg, cache, group, dmtx, smap, dream) != Failure(EmptyCacheSlot)
    ensures ProcessRaw(cfg, cache, group, dmtx, smap, dream).Success? ==>
      CachesInStep(ProcessRaw(cfg, cache, group, dmtx, smap, dream).value.0, cfg.nContr)
  {
    if |group| > 0 && cfg.sort(group, dmtx).Success? && dream.Some? && |dream.value| > 0 {
      var c := group[0].idx.contrast as nat;
      if c < cfg.nContr {
        var sorted := cfg.sort(group, dmtx).value;
        var raw := cache.rawdata[c := Some(sorted)];
        var sets := cache.imagesets[c := Some(Pictured(cfg, sorted, smap, dream.value, c))];
        if Full(sets) {
          assert forall k :: 0 <= k < |raw| ==> raw[k].Some? by {
            forall k | 0 <= k < |raw| ensures raw[k].Some? {
              assert sets[k].Some?;
            }
          }
        }
      }
    }
  }

  /** Two numbers 1 + m*n + p with p < n coincide only for the same m and p. */
  lemma ImageIndexInjective(c1: nat, p1: nat, c2: nat, p2: nat, n: nat)
    requires p1 < n && p2 < n
    ensures 1 + c1 * n + p1 == 1 + c2 * n + p2 <==> c1 == c2 && p1 == p2
  {
    if c1 < c2 {
      BlocksOrdered(c1, p1, c2, p2, n);
    } else if c2 < c1 {
      BlocksOrdered(c2, p2, c1, p1, n);
    }
  }

  /** Every number in block c1 is below every number in a later block c2. */
  lemma BlocksOrdered(c1: nat, p1: nat, c2: nat, p2: nat, n: nat)
    requires p1 < n && c1 < c2
    ensures c1 * n + p1 < c2 * n + p2
  {
    var k: nat := c2 - c1 - 1;
    assert c2 * n == c1 * n + n + k * n by {
      assert c2 == c1 + 1 + k;
    }
    assert k * n >= 0;
  }

  /** No two images share a series and an index. */
  predicate DistinctNumbers(imgs: seq<Image>)
  {
    forall i, j :: 0 <= i < j < |imgs| ==> imgs[i].series != imgs[j].series || imgs[i].index != imgs[j].index
  }

  /** With several partitions the images of one call never share a series and an index. */
  lemma PartitionNumbersDistinct(head: Acquisition, nPar: nat, nSlc: nat, scale: Pixels, maps: bool)
    requires nPar > 1
    ensures DistinctNumbers(Numbered(head, nPar, nSlc, scale, maps))
  {
    var imgs := Numbered(head, nPar, nSlc, scale, maps);
    forall i, j | 0 <= i < j < |imgs|
      ensures imgs[i].series != imgs[j].series || imgs[i].index != imgs[j].index
    {
      if j < nPar {
        assert imgs[i].index == 1 + head.idx.contrast as int * nPar + i;
        assert imgs[j].index == 1 + head.idx.contrast as int * nPar + j;
      } else if i < nPar {
        assert imgs[i].series == 1 && imgs[j].series != 1;
      } else if j < 2 * nPar {
        assert imgs[i].index == 1 + (i - nPar) && imgs[j].index == 1 + (j - nPar);
      } else if i < 2 * nPar {
        assert imgs[i].series == 2 && imgs[j].series == 3;
      } else {
        assert imgs[i].index == 1 + (i - 2 * nPar) && imgs[j].index == 1 + (j - 2 * nPar);
      }
    }
  }

  /**
   * With one partition the images of one call share a series and an index
   * exactly when maps are sent and the repetition is 1 or 2: the magnitude
   * image's series 1 + repetition is then the series of a map under the
   * same index.
   */
  lemma SinglePartitionNumbersClash(head: Acquisition, nPar: nat, nSlc: nat, scale: Pixels, maps: bool)
    requires nPar <= 1
    ensures DistinctNumbers(Numbered(head, nPar, nSlc, scale, maps)) <==>
      !maps || (head.idx.repetition != 1 && head.idx.repetition != 2)
  {
    var imgs := Numbered(head, nPar, nSlc, scale, maps);
    if maps && head.idx.repetition == 1 {
      assert imgs[0].series == imgs[1].series && imgs[0].index == imgs[1].index;
    } else if maps && head.idx.repetition == 2 {
      assert imgs[0].series == imgs[2].series && imgs[0].index == imgs[2].index;
    }
  }

  /**
   * The numbering loops of process_raw: the magnitude images partition by
   * partition, then the flip-angle and reference-voltage images.
   */
  method NumberImages(head: Acquisition, nPar: nat, nSlc: nat, scale: Pixels, maps: bool) returns (imgs: seq<Image>)
    ensures imgs == Numbered(head, nPar, nSlc, scale, maps)
  {
    var c := head.idx.contrast as int;
    if nPar > 1 {
      imgs := [];
      for par := 0 to nPar
        invariant imgs == PartitionImages(head, Magnitude, nPar, 1 + c * nPar, 1, Some(scale))[..par]
      {
        imgs := imgs + [Image(head, Magnitude, par, 1 + c * nPar + par, 1, Some(scale))];
      }
      ghost var magnitudes := imgs;
      if maps {
        for par := 0 to nPar
          invariant imgs == magnitudes + PartitionImages(head, FlipAngleMap, nPar, 1, 2, None)[..par]
        {
          imgs := imgs + [Image(head, FlipAngleMap, par, 1 + par, 2, None)];
        }
        ghost var withFlipAngles := imgs;
        for par := 0 to nPar
          invariant imgs == withFlipAngles + PartitionImages(head, RefVoltageMap, nPar, 1, 3, None)[..par]
        {
          imgs := imgs + [Image(head, RefVoltageMap, par, 1 + par, 3, None)];
        }
      }
    } else {
      var idx := 1 + c * nSlc + head.idx.slice as int;
      imgs := [Image(head, Magnitude, 0, idx, 1 + head.idx.repetition as int, Some(scale))];
      if maps {
        imgs := imgs + [Image(head, FlipAngleMap, 0, idx, 2, None)];
        imgs := imgs + [Image(head, RefVoltageMap, 0, idx, 3, None)];
      }
    }
  }

  // ---------------------------------------------------------------------
  // The routing loop
  // ---------------------------------------------------------------------

  /**
   * The part of one iteration before the branch on calibration data, for an
   * inserted record: the context after it, and whether the record goes on
   * (noise, phase-correction and dummy readouts stop here).
   */
  function Admitted(ctx: Ctx, ins: PulseqProt.Inserted): (r: (Ctx, bool))
    ensures r.0.current == Some(ins.acq)
    ensures r.1 <==> !Has(ins.acq, NoiseMeasurement) && !Has(ins.acq, PhaseCorrData) && !Has(ins.acq, DummyScanData)
  {
    var a := ins.acq;
    var c0 := ctx.(base := if ins.base.Some? then ins.base else ctx.base, current := Some(a));
    if Has(a, NoiseMeasurement) then (c0.(noise := c0.noise + [a]), false)
    else
      var w := Prewhiten(c0.noise, c0.dmtx, true);
      (c0.(noise := w.0, dmtx := w.1), !Has(a, PhaseCorrData) && !Has(a, DummyScanData))
  }

  /**
   * A calibration readout joins its slice's buffer; the slice's last one
   * calibrates the slice's map from the buffer, records the slice in
   * old_grid and empties the buffer; process_acs raises when its k-space
   * sort does.
   */
  function CalibrationStep(cfg: Config, dmtx: Option<Prewhitening>, b: Buffers, a: Acquisition)
    : (r: Result<Buffers, RouteError>)
    ensures r.Success? ==> r.value.acq == b.acq && r.value.seg0 == b.seg0
  {
    var sl := a.idx.slice as nat;
    if sl >= |b.acs| then Failure(SliceOutOfRange)
    else
      var acs := b.acs[sl := b.acs[sl] + [a]];
      if !Has(a, LastInSlice) then Success(b.(acs := acs))
      else if sl >= |b.sensmaps| then Failure(SliceOutOfRange)
      else
        var m := ProcessAcs(acs[sl], dmtx, cfg.acsSort(acs[sl], dmtx));
        if m.Failure? then Failure(m.error)
        else Success(b.(acs := acs[sl := []], sensmaps := b.sensmaps[sl := m.value], oldGrid := b.oldGrid + [sl]))
  }

  /** The number of slices that have a map. */
  function Present(m: seq<Option<SensMap>>): (n: nat)
    ensures n <= |m|
  {
    if |m| == 0 then 0 else Present(m[..|m| - 1]) + if m[|m| - 1].Some? then 1 else 0
  }

  /** The count is full exactly when every slice has a map, and zero exactly when none has. */
  lemma {:induction false} PresentCounts(m: seq<Option<SensMap>>)
    ensures Present(m) == |m| <==> forall i :: 0 <= i < |m| ==> m[i].Some?
    ensures Present(m) == 0 <==> forall i :: 0 <= i < |m| ==> m[i].None?
  {
    if |m| > 0 {
      var init := m[..|m| - 1];
      PresentCounts(init);
      assert forall i :: 0 <= i < |init| ==> init[i] == m[i];
    }
  }

  /**
   * The slice whose map slice i receives when maps are duplicated: with an
   * even slice count each even slice takes the next one's, with an odd count
   * each odd slice takes the previous one's.
   */
  function Source(n: nat, i: nat): (j: Option<nat>)
    ensures j.Some? ==> i < n && j.value < n && j.value != i
  {
    if n % 2 == 0 then (if i % 2 == 0 && i + 1 < n then Some(i + 1) else None)
    else if i % 2 == 1 && i < n then Some(i - 1) else None
  }

  /** Every slice that is copied from has a map. */
  predicate SourcesPresent(m: seq<Option<SensMap>>)
  {
    forall i :: 0 <= i < |m| && Source(|m|, i).Some? ==> m[Source(|m|, i).value].Some?
  }

  /**
   * The map duplication before every imaging readout: when some but not all
   * slices have a map, each receiving slice takes its partner's map; a
   * partner without one raises (None has no copy()).
   */
  function Duplicated(m: seq<Option<SensMap>>): (r: Result<seq<Option<SensMap>>, RouteError>)
    ensures r.Failure? <==> 0 < Present(m) < |m| && !SourcesPresent(m)
    ensures r.Failure? ==> r.error == MissingSensMap
    ensures r.Success? ==> |r.value| == |m|
  {
    if Present(m) == 0 || Present(m) == |m| then Success(m)
    else if !SourcesPresent(m) then Failure(MissingSensMap)
    else Success(Copied(m))
  }

  /** The duplicated maps when some but not all slices have one and every partner has one. */
  function Copied(m: seq<Option<SensMap>>): (r: seq<Option<SensMap>>)
    ensures |r| == |m|
    ensures forall i :: 0 <= i < |m| ==> r[i] == if Source(|m|, i).Some? then m[Source(|m|, i).value] else m[i]
  {
    seq(|m|, i requires 0 <= i < |m| => if Source(|m|, i).Some? then m[Source(|m|, i).value] else m[i])
  }

  /** Every slice that receives no map is itself a partner, except the last slice of an odd count. */
  lemma ReceiverOrPartner(n: nat, i: nat)
    requires i < n && Source(n, i).None? && (n % 2 == 0 || i < n - 1)
    ensures var k := if n % 2 == 0 then i - 1 else i + 1; 0 <= k < n && Source(n, k) == Some(i)
  {
    if n % 2 == 0 {
      assert i % 2 == 1;
      assert (i - 1) % 2 == 0;
    } else {
      assert i % 2 == 0;
      assert (i + 1) % 2 == 1;
    }
  }

  /**
   * After a duplication every slice has a map except, with an odd slice
   * count, possibly the last one, which is never copied into.
   */
  lemma DuplicationFills(m: seq<Option<SensMap>>)
    requires Present(m) > 0 && Duplicated(m).Success?
    ensures var r := Duplicated(m).value;
      && (forall i :: 0 <= i < |m| && (|m| % 2 == 0 || i < |m| - 1) ==> r[i].Some?)
      && (|m| % 2 == 1 ==> r[|m| - 1] == m[|m| - 1])
  {
    if Present(m) == |m| {
      PresentCounts(m);
    } else {
      CopiedFills(m);
    }
  }

  /** Copying with every partner present fills all slices but the last of an odd count, and keeps that one. */
  lemma CopiedFills(m: seq<Option<SensMap>>)
    requires SourcesPresent(m)
    ensures forall i :: 0 <= i < |m| && (|m| % 2 == 0 || i < |m| - 1) ==> Copied(m)[i].Some?
    ensures |m| % 2 == 1 ==> Copied(m)[|m| - 1] == m[|m| - 1]
  {
    forall i | 0 <= i < |m| && (|m| % 2 == 0 || i < |m| - 1)
      ensures Copied(m)[i].Some?
    {
      CopiedFilled(m, i);
    }
    if |m| % 2 == 1 {
      LastOfOddCountKept(|m|);
    }
  }

  /** With an odd slice count the last slice is never copied into. */
  lemma LastOfOddCountKept(n: nat)
    requires n % 2 == 1
    ensures Source(n, n - 1).None?
  {
    assert (n - 1) % 2 == 0;
  }

  /** One slice after copying, when every partner has a map. */
  lemma CopiedFilled(m: seq<Option<SensMap>>, i: nat)
    requires SourcesPresent(m) && i < |m| && (|m| % 2 == 0 || i < |m| - 1)
    ensures Copied(m)[i].Some?
  {
    if Source(|m|, i).None? {
      ReceiverOrPartner(|m|, i);
      var k := if |m| % 2 == 0 then i - 1 else i + 1;
      assert m[Source(|m|, k).value].Some?;
    }
  }

  /** Duplicating again changes nothing. */
  lemma DuplicationIdempotent(m: seq<Option<SensMap>>)
    requires Duplicated(m).Success?
    ensures Duplicated(Duplicated(m).value) == Duplicated(m)
  {
    var r := Duplicated(m).value;
    PresentCounts(m);
    PresentCounts(r);
    if 0 < Present(m) < |m| {
      assert r == Copied(m);
      var k :| 0 <= k < |m| && m[k].Some?;
      assert r[k].Some?;
      forall i | 0 <= i < |r| && Source(|r|, i).Some?
        ensures r[Source(|r|, i).value] == m[Source(|m|, i).value]
      {
        SourceNotReceiver(|m|, i);
      }
      if Present(r) < |r| {
        assert Copied(r) == r;
      }
    }
  }

  /** A partner never receives a map itself. */
  lemma SourceNotReceiver(n: nat, i: nat)
    requires Source(n, i).Some?
    ensures Source(n, Source(n, i).value).None?
  {
    if n % 2 == 0 {
      assert (i + 1) % 2 == 1;
    } else {
      assert (i - 1) % 2 == 0;
    }
  }

  /** The [contrast][slice] list a readout belongs to exists. */
  predicate Listed(b: Buffers, a: Acquisition)
  {
    a.idx.contrast as nat < |b.acq| && a.idx.slice as nat < |b.acq[a.idx.contrast]|
  }

  /**
   * ADC segments: a segment-0 readout is appended to its [contrast][slice]
   * list and is the record the FOV correction takes its predicted
   * trajectory and shift from; a later segment is spliced into that list's
   * last readout.
   */
  function Placed(b: Buffers, a: Acquisition): (r: Result<Buffers, RouteError>)
    requires Listed(b, a)
    ensures r.Success? ==>
      && r.value == b.(acq := r.value.acq, seg0 := r.value.seg0)
      && OnlyListChanged(b.acq, r.value.acq, a.idx.contrast as nat, a.idx.slice as nat)
      && |r.value.acq[a.idx.contrast][a.idx.slice]| > 0
  {
    var c := a.idx.contrast as nat;
    var sl := a.idx.slice as nat;
    var lst := b.acq[c][sl];
    if a.idx.segment == 0 then Success(b.(acq := b.acq[c := b.acq[c][sl := lst + [a]]], seg0 := Some(a)))
    else if |lst| == 0 then Failure(NoOpenReadout)
    else
      var e := Splice(lst[|lst| - 1], a);
      if e.None? then Failure(SegmentShape)
      else Success(b.(acq := b.acq[c := b.acq[c][sl := ReplaceLast(lst, e.value)]]))
  }

  /**
   * The last segment: the completed readout's data is replaced in place by
   * its FOV-corrected version, computed from the segment-0 record's
   * predicted trajectory and shift and the current base trajectory.
   */
  function Reapplied(cfg: Config, base: Option<seq<seq<real>>>, b: Buffers, a: Acquisition): (r: Result<Buffers, RouteError>)
    requires Listed(b, a) && |b.acq[a.idx.contrast][a.idx.slice]| > 0
    ensures r.Success? ==>
      && r.value == b.(acq := r.value.acq)
      && OnlyListChanged(b.acq, r.value.acq, a.idx.contrast as nat, a.idx.slice as nat)
      && |r.value.acq[a.idx.contrast][a.idx.slice]| == |b.acq[a.idx.contrast][a.idx.slice]|
  {
    var c := a.idx.contrast as nat;
    var sl := a.idx.slice as nat;
    var lst := b.acq[c][sl];
    var entry := lst[|lst| - 1];
    if b.seg0.None? then Failure(NoSegmentZero)
    else
      var e := WriteAll(entry, cfg.reapply(entry.data, b.seg0.value, base));
      if e.None? then Failure(SegmentShape)
      else Success(b.(acq := b.acq[c := b.acq[c][sl := ReplaceLast(lst, e.value)]]))
  }

  /**
   * A record that closes a slice or a repetition: its [contrast][slice]
   * group is reconstructed with the slice's map, the images are sent and the
   * group is emptied.
   */
  function Closed(cfg: Config, dmtx: Option<Prewhitening>, b: Buffers, out: Output, a: Acquisition)
    : (r: Result<(Buffers, Output), RouteError>)
    requires Listed(b, a)
    ensures r.Success? ==> r.value.0 == b.(acq := r.value.0.acq)
  {
    var c := a.idx.contrast as nat;
    var sl := a.idx.slice as nat;
    if !(Has(a, LastInSlice) || Has(a, LastInRepetition)) then Success((b, out))
    else if sl >= |b.sensmaps| then Failure(SliceOutOfRange)
    else
      var p := ProcessRaw(cfg, out.cache, b.acq[c][sl], dmtx, b.sensmaps[sl], cfg.dream);
      if p.Failure? then Failure(p.error)
      else Success((b.(acq := b.acq[c := b.acq[c][sl := []]]), Output(p.value.0, out.sent + p.value.1)))
  }

  /** An imaging readout: duplicate the maps, place it, correct the last segment, reconstruct a closed group. */
  function Imaging(cfg: Config, ctx: Ctx, b: Buffers, out: Output, a: Acquisition): Result<(Buffers, Output), RouteError>
  {
    var m := Duplicated(b.sensmaps);
    if m.Failure? then Failure(m.error)
    else
      var b0 := b.(sensmaps := m.value);
      if a.idx.contrast as nat >= |b0.acq| then Failure(ContrastOutOfRange)
      else if a.idx.slice as nat >= |b0.acq[a.idx.contrast]| then Failure(SliceOutOfRange)
      else
        var b1 := Placed(b0, a);
        if b1.Failure? then Failure(b1.error)
        else
          var b2 := if a.idx.segment as int == cfg.nSegments - 1 then Reapplied(cfg, ctx.base, b1.value, a) else b1;
          if b2.Failure? then Failure(b2.error)
          else Closed(cfg, ctx.dmtx, b2.value, out, a)
  }

  /** One iteration of the routing loop for one raw record and its protocol record. */
  function Step(cfg: Config, s: State, item: Acquisition, prot: Acquisition): Result<State, RouteError>
  {
    var r := cfg.insert(item, prot);
    if r.Failure? then Failure(InsertFailed)
    else
      var a := r.value.acq;
      var adm := Admitted(s.ctx, r.value);
      if !adm.1 then Success(s.(ctx := adm.0))
      else if Has(a, ParallelCalibration) then
        var b := CalibrationStep(cfg, adm.0.dmtx, s.buf, a);
        if b.Failure? then Failure(b.error) else Success(State(adm.0, b.value, s.out))
      else
        var t := Imaging(cfg, adm.0, s.buf, s.out, a);
        if t.Failure? then Failure(t.error) else Success(State(adm.0, t.value.0, t.value.1))
  }

  /** The state after the first `i` records (the protocol must hold a record for each). */
  function RunTo(cfg: Config, s0: State, items: seq<Acquisition>, prots: seq<Acquisition>, i: nat)
    : Result<State, RouteError>
    requires i <= |items|
  {
    if i == 0 then Success(s0)
    else match RunTo(cfg, s0, items, prots, i - 1)
      case Failure(e) => Failure(e)
      case Success(s) => if i - 1 < |prots| then Step(cfg, s, items[i - 1], prots[i - 1]) else Failure(InsertFailed)
  }

  /** Once a record raises, the loop is over: every longer prefix ends in the same exception. */
  lemma {:induction false} RunStopsAtFailure(cfg: Config, s0: State, items: seq<Acquisition>, prots: seq<Acquisition>,
                                             i: nat, j: nat)
    requires i <= j <= |items|
    requires RunTo(cfg, s0, items, prots, i).Failure?
    ensures RunTo(cfg, s0, items, prots, j) == RunTo(cfg, s0, items, prots, i)
    decreases j
  {
    if j > i {
      RunStopsAtFailure(cfg, s0, items, prots, i, j - 1);
    }
  }

  /**
   * After the loop, the group of the last record (`item`) is reconstructed
   * if it is not empty, with a map calibrated from the slice's calibration
   * buffer if the slice has none, and the whole imaging buffer is dropped.
   * `dream` is the protocol's 'dream' array as passed to process_raw.
   */
  function FlushWith(cfg: Config, s: State, dream: Option<seq<real>>): (r: Result<State, RouteError>)
    ensures r.Success? ==> r.value.ctx == s.ctx
  {
    if s.ctx.current.None? then Failure(NoRecords)
    else
      var a := s.ctx.current.value;
      var c := a.idx.contrast as nat;
      var sl := a.idx.slice as nat;
      if c >= |s.buf.acq| then Failure(ContrastOutOfRange)
      else if sl >= |s.buf.acq[c]| then Failure(SliceOutOfRange)
      else if |s.buf.acq[c][sl]| == 0 then Success(s)
      else if sl >= |s.buf.sensmaps| || (s.buf.sensmaps[sl].None? && sl >= |s.buf.acs|) then Failure(SliceOutOfRange)
      else
        var m := FlushMap(cfg, s, sl);
        if m.Failure? then Failure(m.error)
        else
          var smap := m.value;
          var p := ProcessRaw(cfg, s.out.cache, s.buf.acq[c][sl], s.ctx.dmtx, smap, dream);
          if p.Failure? then Failure(p.error)
          else Success(State(s.ctx, s.buf.(sensmaps := s.buf.sensmaps[sl := smap], acq := []),
                             Output(p.value.0, s.out.sent + p.value.1)))
  }

  /** The map the untriggered reconstruction uses: the slice's own, or else process_acs of its calibration buffer. */
  function FlushMap(cfg: Config, s: State, sl: nat): Result<Option<SensMap>, RouteError>
    requires sl < |s.buf.sensmaps| && (s.buf.sensmaps[sl].Some? || sl < |s.buf.acs|)
  {
    if s.buf.sensmaps[sl].Some? then Success(s.buf.sensmaps[sl])
    else ProcessAcs(s.buf.acs[sl], s.ctx.dmtx, cfg.acsSort(s.buf.acs[sl], s.ctx.dmtx))
  }

  /** The untriggered reconstruction as written: process_raw is not given the protocol arrays. */
  function FlushedAsWritten(cfg: Config, s: State): Result<State, RouteError>
  {
    FlushWith(cfg, s, None)
  }

  /** The untriggered reconstruction with the protocol arrays, as the triggered one is called. */
  function Flushed(cfg: Config, s: State): Result<State, RouteError>
  {
    FlushWith(cfg, s, cfg.dream)
  }

  /** A whole connection: the routing loop over every record, then the untriggered reconstruction. */
  function Outcome(cfg: Config, items: seq<Acquisition>, prots: seq<Acquisition>): Result<State, RouteError>
  {
    match RunTo(cfg, Init(cfg), items, prots, |items|)
    case Failure(e) => Failure(e)
    case Success(s) => Flushed(cfg, s)
  }

  // ---------------------------------------------------------------------
  // Properties of one routing step
  // ---------------------------------------------------------------------

  /**
   * A noise readout only joins the noise buffer. The first other record
   * after buffered noise estimates the matrix from all of it and empties the
   * buffer; an existing matrix is never replaced. Every record becomes the
   * loop's current item.
   */
  lemma NoiseAndPrewhitening(cfg: Config, s: State, item: Acquisition, prot: Acquisition)
    requires Step(cfg, s, item, prot).Success?
    ensures var a := cfg.insert(item, prot).value.acq; var t := Step(cfg, s, item, prot).value;
      && t.ctx.current == Some(a)
      && (Has(a, NoiseMeasurement) ==>
            t.ctx.noise == s.ctx.noise + [a] && t.ctx.dmtx == s.ctx.dmtx && t.buf == s.buf && t.out == s.out)
      && (!Has(a, NoiseMeasurement) && s.ctx.dmtx.None? && |s.ctx.noise| > 0 ==>
            t.ctx.dmtx == Some(Prewhitening(s.ctx.noise)) && t.ctx.noise == [])
      && (s.ctx.dmtx.Some? ==> t.ctx.dmtx == s.ctx.dmtx)
  {
  }

  /** Phase-correction and dummy readouts change neither the buffers, the maps, the caches nor the images sent. */
  lemma SkippedRecords(cfg: Config, s: State, item: Acquisition, prot: Acquisition)
    requires cfg.insert(item, prot).Success?
    requires var a := cfg.insert(item, prot).value.acq;
      !Has(a, NoiseMeasurement) && (Has(a, PhaseCorrData) || Has(a, DummyScanData))
    ensures Step(cfg, s, item, prot).Success?
    ensures var t := Step(cfg, s, item, prot).value; t.buf == s.buf && t.out == s.out
  {
  }

  /**
   * Inside the routing loop, a calibration readout goes to the calibration
   * step with the matrix as this record left it and sends nothing; any
   * other readout goes to the imaging step.
   */
  lemma CalibrationAndImagingRouted(cfg: Config, s: State, item: Acquisition, prot: Acquisition)
    requires cfg.insert(item, prot).Success?
    requires var a := cfg.insert(item, prot).value.acq;
      !Has(a, NoiseMeasurement) && !Has(a, PhaseCorrData) && !Has(a, DummyScanData)
    requires Step(cfg, s, item, prot).Success?
    ensures var a := cfg.insert(item, prot).value.acq; var t := Step(cfg, s, item, prot).value;
      && t.ctx.dmtx == Prewhiten(s.ctx.noise, s.ctx.dmtx, true).1
      && (Has(a, ParallelCalibration) ==> CalibrationStep(cfg, t.ctx.dmtx, s.buf, a) == Success(t.buf) && t.out == s.out)
      && (!Has(a, ParallelCalibration) ==> Imaging(cfg, t.ctx, s.buf, s.out, a) == Success((t.buf, t.out)))
  {
  }

  /**
   * A calibration readout joins only its slice's calibration buffer; the
   * slice's last one replaces the slice's map by the calibration of the
   * whole buffer, records the slice in old_grid and empties the buffer.
   */
  lemma CalibrationBuffered(cfg: Config, dmtx: Option<Prewhitening>, b: Buffers, a: Acquisition)
    requires CalibrationStep(cfg, dmtx, b, a).Success?
    ensures var t := CalibrationStep(cfg, dmtx, b, a).value; var sl := a.idx.slice as nat;
      && sl < |b.acs| && |t.acs| == |b.acs|
      && (forall k :: 0 <= k < |b.acs| && k != sl ==> t.acs[k] == b.acs[k])
      && (!Has(a, LastInSlice) ==> t.acs[sl] == b.acs[sl] + [a] && t.sensmaps == b.sensmaps && t.oldGrid == b.oldGrid)
      && (Has(a, LastInSlice) ==>
            && t.acs[sl] == [] && sl < |b.sensmaps| && t.oldGrid == b.oldGrid + [sl]
            && cfg.acsSort(b.acs[sl] + [a], dmtx).Success?
            && t.sensmaps == b.sensmaps[sl := Some(Calibrated(b.acs[sl] + [a], dmtx))])
  {
  }

  /**
   * The slice's last calibration readout raises exactly when the k-space
   * sort of the whole buffer inside process_acs raises.
   */
  lemma CalibrationRaisesWithSort(cfg: Config, dmtx: Option<Prewhitening>, b: Buffers, a: Acquisition)
    requires a.idx.slice as nat < |b.acs| && a.idx.slice as nat < |b.sensmaps| && Has(a, LastInSlice)
    ensures CalibrationStep(cfg, dmtx, b, a).Failure? <==> cfg.acsSort(b.acs[a.idx.slice] + [a], dmtx).Failure?
  {
  }

  /**
   * An imaging readout first duplicates the maps (raising when a partner
   * slice has none) and changes no map or calibration buffer afterwards.
   */
  lemma ImagingDuplicatesFirst(cfg: Config, ctx: Ctx, b: Buffers, out: Output, a: Acquisition)
    ensures Duplicated(b.sensmaps).Failure? ==> Imaging(cfg, ctx, b, out, a) == Failure(MissingSensMap)
    ensures Imaging(cfg, ctx, b, out, a).Success? ==>
      var t := Imaging(cfg, ctx, b, out, a).value.0;
      Duplicated(b.sensmaps) == Success(t.sensmaps) && t.acs == b.acs && t.oldGrid == b.oldGrid
  {
    var m := Duplicated(b.sensmaps);
    if m.Success? && Listed(b.(sensmaps := m.value), a) {
      var b0 := b.(sensmaps := m.value);
      var b1 := Placed(b0, a);
      if b1.Success? {
        var b2 := if a.idx.segment as int == cfg.nSegments - 1 then Reapplied(cfg, ctx.base, b1.value, a) else b1;
        if b2.Success? {
          assert b2.value.sensmaps == m.value;
        }
      }
    }
  }

  /**
   * A segment-0 readout is appended to its list and becomes the record the
   * FOV correction reads its predicted trajectory and shift from.
   */
  lemma SegmentZeroAppended(b: Buffers, a: Acquisition)
    requires a.idx.segment == 0 && Listed(b, a)
    ensures Placed(b, a).Success?
    ensures var t := Placed(b, a).value; var c := a.idx.contrast as nat; var sl := a.idx.slice as nat;
      t.acq[c][sl] == b.acq[c][sl] + [a] && t.seg0 == Some(a)
  {
  }

  /**
   * A later segment of matching channel count that fits in the open readout
   * overwrites exactly its columns [s*n, (s+1)*n) of the list's last
   * readout: the list keeps its length and earlier readouts, the readout
   * keeps its sample count and every other column.
   */
  lemma LaterSegmentSpliced(b: Buffers, a: Acquisition)
    requires Shaped(a) && a.idx.segment > 0 && Listed(b, a)
    requires var lst := b.acq[a.idx.contrast][a.idx.slice];
      && |lst| > 0 && Shaped(lst[|lst| - 1]) && |a.data| == |lst[|lst| - 1].data|
      && SegmentStart(a) + a.samples as int <= lst[|lst| - 1].samples as int
    ensures Placed(b, a).Success?
    ensures var c := a.idx.contrast as nat; var sl := a.idx.slice as nat;
      var lst := b.acq[c][sl]; var n := |lst|; var entry := lst[n - 1];
      var t := Placed(b, a).value; var e := t.acq[c][sl][n - 1];
      && |t.acq[c][sl]| == n && t.acq[c][sl][..n - 1] == lst[..n - 1] && t.seg0 == b.seg0
      && e.samples == entry.samples && Shaped(e) && |e.data| == |entry.data|
      && (forall ch, j :: 0 <= ch < |e.data| && 0 <= j < e.samples ==>
            e.data[ch][j] ==
              if SegmentStart(a) <= j < SegmentStart(a) + a.samples as int
              then a.data[ch][j - SegmentStart(a)]
              else entry.data[ch][j])
  {
    var lst := b.acq[a.idx.contrast][a.idx.slice];
    SpliceWritesSegment(lst[|lst| - 1], a);
  }

  /**
   * The last segment: without a segment-0 record there is nothing to take
   * the trajectory from; otherwise a correction of the readout's own shape
   * replaces its data, and nothing else in the list changes.
   */
  lemma LastSegmentReapplied(cfg: Config, base: Option<seq<seq<real>>>, b: Buffers, a: Acquisition)
    requires Listed(b, a) && |b.acq[a.idx.contrast][a.idx.slice]| > 0
    ensures b.seg0.None? ==> Reapplied(cfg, base, b, a) == Failure(NoSegmentZero)
    ensures var lst := b.acq[a.idx.contrast][a.idx.slice]; var entry := lst[|lst| - 1];
      b.seg0.Some? && Shaped(entry) && |entry.data| > 0 ==>
        var d := cfg.reapply(entry.data, b.seg0.value, base);
        |d| == |entry.data| && Rows(d, entry.samples) ==>
          Reapplied(cfg, base, b, a) == Success(b.(acq := b.acq[a.idx.contrast := b.acq[a.idx.contrast][
            a.idx.slice := ReplaceLast(lst, entry.(data := d))]]))
  {
    var lst := b.acq[a.idx.contrast][a.idx.slice];
    var entry := lst[|lst| - 1];
    if b.seg0.Some? && Shaped(entry) && |entry.data| > 0 {
      var d := cfg.reapply(entry.data, b.seg0.value, base);
      if |d| == |entry.data| && Rows(d, entry.samples) {
        WriteAllReplaces(entry, d);
      }
    }
  }

  /**
   * A record that closes a slice or repetition sends the images process_raw
   * makes of its whole [contrast][slice] group with the slice's map, and
   * empties exactly that group; any other record sends nothing here.
   */
  lemma ClosingProcessesGroupOnce(cfg: Config, dmtx: Option<Prewhitening>, b: Buffers, out: Output, a: Acquisition)
    requires Listed(b, a) && Closed(cfg, dmtx, b, out, a).Success?
    ensures var (t, o) := Closed(cfg, dmtx, b, out, a).value; var c := a.idx.contrast as nat; var sl := a.idx.slice as nat;
      && (!(Has(a, LastInSlice) || Has(a, LastInRepetition)) ==> t == b && o == out)
      && (Has(a, LastInSlice) || Has(a, LastInRepetition) ==>
            && sl < |b.sensmaps| && t.acq[c][sl] == [] && OnlyListChanged(b.acq, t.acq, c, sl)
            && |o.sent| >= |out.sent| && o.sent[..|out.sent|] == out.sent
            && ProcessRaw(cfg, out.cache, b.acq[c][sl], dmtx, b.sensmaps[sl], cfg.dream)
               == Success((o.cache, o.sent[|out.sent|..])))
  {
    var (t, o) := Closed(cfg, dmtx, b, out, a).value;
    if Has(a, LastInSlice) || Has(a, LastInRepetition) {
      var p := ProcessRaw(cfg, out.cache, b.acq[a.idx.contrast][a.idx.slice], dmtx, b.sensmaps[a.idx.slice], cfg.dream);
      assert o.sent == out.sent + p.value.1;
      assert o.sent[|out.sent|..] == p.value.1;
    }
  }

  /** Every step keeps the caches in step, so no step reads an empty raw-data slot. */
  lemma StepKeepsCaches(cfg: Config, s: State, item: Acquisition, prot: Acquisition)
    requires CachesInStep(s.out.cache, cfg.nContr)
    ensures Step(cfg, s, item, prot) != Failure(EmptyCacheSlot)
    ensures Step(cfg, s, item, prot).Success? ==> CachesInStep(Step(cfg, s, item, prot).value.out.cache, cfg.nContr)
  {
    var r := cfg.insert(item, prot);
    if r.Success? {
      var a := r.value.acq;
      var adm := Admitted(s.ctx, r.value);
      if adm.1 && !Has(a, ParallelCalibration) {
        var m := Duplicated(s.buf.sensmaps);
        if m.Success? && Listed(s.buf.(sensmaps := m.value), a) {
          var b1 := Placed(s.buf.(sensmaps := m.value), a);
          if b1.Success? {
            var b2 := if a.idx.segment as int == cfg.nSegments - 1 then Reapplied(cfg, adm.0.base, b1.value, a) else b1;
            if b2.Success? && (Has(a, LastInSlice) || Has(a, LastInRepetition)) && a.idx.slice as nat < |b2.value.sensmaps| {
              ProcessRawKeepsCaches(cfg, s.out.cache, b2.value.acq[a.idx.contrast][a.idx.slice], adm.0.dmtx,
                                    b2.value.sensmaps[a.idx.slice], cfg.dream);
            }
          }
        }
      }
    }
  }

  /** The untriggered reconstruction keeps the caches in step too. */
  lemma FlushKeepsCaches(cfg: Config, s: State, dream: Option<seq<real>>)
    requires CachesInStep(s.out.cache, cfg.nContr)
    ensures FlushWith(cfg, s, dream) != Failure(EmptyCacheSlot)
    ensures FlushWith(cfg, s, dream).Success? ==> CachesInStep(FlushWith(cfg, s, dream).value.out.cache, cfg.nContr)
  {
    if s.ctx.current.Some? {
      var a := s.ctx.current.value;
      var c := a.idx.contrast as nat;
      var sl := a.idx.slice as nat;
      if c < |s.buf.acq| && sl < |s.buf.acq[c]| && sl < |s.buf.sensmaps| && (s.buf.sensmaps[sl].Some? || sl < |s.buf.acs|) {
        var m := FlushMap(cfg, s, sl);
        if m.Success? {
          ProcessRawKeepsCaches(cfg, s.out.cache, s.buf.acq[c][sl], s.ctx.dmtx, m.value, dream);
        }
      }
    }
  }

  /** Every state the loop reaches has its caches in step. */
  lemma {:induction false} ReachableCachesInStep(cfg: Config, items: seq<Acquisition>, prots: seq<Acquisition>, i: nat)
    requires i <= |items|
    ensures RunTo(cfg, Init(cfg), items, prots, i) != Failure(EmptyCacheSlot)
    ensures RunTo(cfg, Init(cfg), items, prots, i).Success? ==>
      CachesInStep(RunTo(cfg, Init(cfg), items, prots, i).value.out.cache, cfg.nContr)
  {
    if i > 0 {
      ReachableCachesInStep(cfg, items, prots, i - 1);
      var prev := RunTo(cfg, Init(cfg), items, prots, i - 1);
      if prev.Success? && i - 1 < |prots| {
        StepKeepsCaches(cfg, prev.value, items[i - 1], prots[i - 1]);
      }
    }
  }

  /**
   * No connection ends in the exception an empty raw-data slot would raise:
   * the STE and FID raw data are always there when the maps are computed.
   */
  lemma NoEmptyCacheSlot(cfg: Config, items: seq<Acquisition>, prots: seq<Acquisition>)
    ensures Outcome(cfg, items, prots) != Failure(EmptyCacheSlot)
  {
    ReachableCachesInStep(cfg, items, prots, |items|);
    var r := RunTo(cfg, Init(cfg), items, prots, |items|);
    if r.Success? {
      FlushKeepsCaches(cfg, r.value, cfg.dream);
    }
  }

  /** A step never changes an intensity scale that is already cached, nor the number of them. */
  lemma StepKeepsScale(cfg: Config, s: State, item: Acquisition, prot: Acquisition)
    requires Step(cfg, s, item, prot).Success?
    ensures var t := Step(cfg, s, item, prot).value;
      && |t.out.cache.imascale| == |s.out.cache.imascale|
      && forall k :: 0 <= k < |s.out.cache.imascale| && s.out.cache.imascale[k].Some? ==>
           t.out.cache.imascale[k] == s.out.cache.imascale[k]
  {
    var a := cfg.insert(item, prot).value.acq;
    var adm := Admitted(s.ctx, cfg.insert(item, prot).value);
    if adm.1 && !Has(a, ParallelCalibration) {
      var m := Duplicated(s.buf.sensmaps).value;
      var b1 := Placed(s.buf.(sensmaps := m), a).value;
      var b2 := if a.idx.segment as int == cfg.nSegments - 1 then Reapplied(cfg, adm.0.base, b1, a).value else b1;
      if Has(a, LastInSlice) || Has(a, LastInRepetition) {
        ImascaleSetOnce(cfg, s.out.cache, b2.acq[a.idx.contrast][a.idx.slice], adm.0.dmtx,
                        b2.sensmaps[a.idx.slice], cfg.dream);
      }
    }
  }

  /** Once a contrast has an intensity scale, it keeps it for the rest of the connection. */
  lemma {:induction false} ScaleFixedOnceSet(cfg: Config, s0: State, items: seq<Acquisition>, prots: seq<Acquisition>,
                                             i: nat, j: nat, k: nat)
    requires i <= j <= |items|
    requires RunTo(cfg, s0, items, prots, j).Success? && RunTo(cfg, s0, items, prots, i).Success?
    requires var c := RunTo(cfg, s0, items, prots, i).value.out.cache; k < |c.imascale| && c.imascale[k].Some?
    ensures var c := RunTo(cfg, s0, items, prots, i).value.out.cache;
      var d := RunTo(cfg, s0, items, prots, j).value.out.cache;
      k < |d.imascale| && d.imascale[k] == c.imascale[k]
    decreases j
  {
    if j > i {
      var prev := RunTo(cfg, s0, items, prots, j - 1);
      assert prev.Success? && j - 1 < |prots| && RunTo(cfg, s0, items, prots, j) == Step(cfg, prev.value, items[j - 1], prots[j - 1]);
      ScaleFixedOnceSet(cfg, s0, items, prots, i, j - 1, k);
      StepKeepsScale(cfg, prev.value, items[j - 1], prots[j - 1]);
    }
  }

  /** Once estimated, the prewhitening matrix stays the same for the rest of the connection. */
  lemma {:induction false} PrewhiteningStaysFixed(cfg: Config, s0: State, items: seq<Acquisition>, prots: seq<Acquisition>,
                                                  i: nat, j: nat)
    requires i <= j <= |items|
    requires RunTo(cfg, s0, items, prots, j).Success?
    requires RunTo(cfg, s0, items, prots, i).Success? && RunTo(cfg, s0, items, prots, i).value.ctx.dmtx.Some?
    ensures RunTo(cfg, s0, items, prots, j).value.ctx.dmtx == RunTo(cfg, s0, items, prots, i).value.ctx.dmtx
    decreases j
  {
    if j > i {
      var prev := RunTo(cfg, s0, items, prots, j - 1);
      PrewhiteningStaysFixed(cfg, s0, items, prots, i, j - 1);
      NoiseAndPrewhitening(cfg, prev.value, items[j - 1], prots[j - 1]);
    }
  }

  /**
   * The untriggered reconstruction as written can only do nothing or raise:
   * with a non-empty group left, process_raw fails either in the sort or on
   * the missing protocol arrays, so the remainder is never sent.
   */
  lemma FlushRaisesAsWritten(cfg: Config, s: State)
    requires s.ctx.current.Some? && Listed(s.buf, s.ctx.current.value)
    requires |s.buf.acq[s.ctx.current.value.idx.contrast][s.ctx.current.value.idx.slice]| > 0
    ensures FlushedAsWritten(cfg, s).Failure?
    ensures FlushedAsWritten(cfg, s).error in {SliceOutOfRange, SortFailed, NoProtArrays}
  {
  }

  /**
   * The corrected untriggered reconstruction: a non-empty group of the last
   * record is reconstructed with the slice's map (calibrated now if it has
   * none), its images are sent after the earlier ones, and the imaging
   * buffer is dropped.
   */
  lemma FlushProcessesRemainder(cfg: Config, s: State)
    requires s.ctx.current.Some? && Listed(s.buf, s.ctx.current.value)
    requires |s.buf.acq[s.ctx.current.value.idx.contrast][s.ctx.current.value.idx.slice]| > 0
    requires Flushed(cfg, s).Success?
    ensures var a := s.ctx.current.value; var c := a.idx.contrast as nat; var sl := a.idx.slice as nat;
      var t := Flushed(cfg, s).value;
      && sl < |s.buf.sensmaps|
      && (s.buf.sensmaps[sl].None? ==>
            sl < |s.buf.acs| && (|s.buf.acs[sl]| > 0 ==> cfg.acsSort(s.buf.acs[sl], s.ctx.dmtx).Success?))
      && var smap := if s.buf.sensmaps[sl].Some? then s.buf.sensmaps[sl]
                     else if |s.buf.acs[sl]| == 0 then None else Some(Calibrated(s.buf.acs[sl], s.ctx.dmtx));
      && t.buf.acq == [] && t.buf.sensmaps == s.buf.sensmaps[sl := smap]
      && |t.out.sent| > |s.out.sent| && t.out.sent[..|s.out.sent|] == s.out.sent
      && ProcessRaw(cfg, s.out.cache, s.buf.acq[c][sl], s.ctx.dmtx, smap, cfg.dream)
         == Success((t.out.cache, t.out.sent[|s.out.sent|..]))
  {
    var a := s.ctx.current.value;
    var sl := a.idx.slice as nat;
    var smap := FlushMap(cfg, s, sl).value;
    var p := ProcessRaw(cfg, s.out.cache, s.buf.acq[a.idx.contrast][sl], s.ctx.dmtx, smap, cfg.dream).value;
    var t := Flushed(cfg, s).value;
    assert t.out.sent == s.out.sent + p.1;
    assert t.out.sent[|s.out.sent|..] == p.1;
  }

  // ---------------------------------------------------------------------
  // process_spiral_dream as an object
  // ---------------------------------------------------------------------

  /** The local variables of process_spiral_dream and the attributes of process_raw, as the fields of one object. */
  class Router {
    const cfg: Config
    var noiseGroup: seq<Acquisition>
    var dmtx: Option<Prewhitening>
    var baseTrj: Option<seq<seq<real>>>
    var item: Option<Acquisition>
    var acsGroup: seq<seq<Acquisition>>
    var sensmaps: seq<Option<SensMap>>
    var oldGrid: seq<nat>
    var acqGroup: seq<seq<seq<Acquisition>>>
    var segmentZero: Option<Acquisition>
    var rawdata: seq<Option<SpiralSort.Sorted>>
    var imagesets: seq<Option<Pixels>>
    var imascale: seq<Option<Pixels>>
    var sent: seq<Image>

    function Context(): Ctx
      reads this
    {
      Ctx(noiseGroup, dmtx, baseTrj, item)
    }

    function Buffered(): Buffers
      reads this
    {
      Buffers(acsGroup, sensmaps, oldGrid, acqGroup, segmentZero)
    }

    function Cached(): Caches
      reads this
    {
      Caches(rawdata, imagesets, imascale)
    }

    function Produced(): Output
      reads this
    {
      Output(Cached(), sent)
    }

    function View(): State
      reads this
    {
      State(Context(), Buffered(), Produced())
    }

    constructor(cfg: Config)
      ensures this.cfg == cfg && View() == Init(cfg)
    {
      this.cfg := cfg;
      noiseGroup := [];
      dmtx := None;
      baseTrj := None;
      item := None;
      acsGroup := seq(cfg.nSlc, _ => []);
      sensmaps := seq(cfg.nSlc, _ => None);
      oldGrid := [];
      acqGroup := seq(cfg.nContr, _ => seq(cfg.nSlc, _ => []));
      segmentZero := None;
      rawdata := seq(cfg.nContr, _ => None);
      imagesets := seq(cfg.nContr, _ => None);
      imascale := seq(cfg.nContr, _ => None);
      sent := [];
    }

    /** Everything before the branch on calibration data: base trajectory, noise, skipped readouts. */
    method Admit(ins: PulseqProt.Inserted) returns (more: bool)
      modifies this
      ensures Buffered() == old(Buffered()) && Produced() == old(Produced())
      ensures Admitted(old(Context()), ins) == (Context(), more)
    {
      var a := ins.acq;
      item := Some(a);
      if ins.base.Some? {
        baseTrj := ins.base;
      }
      if Has(a, NoiseMeasurement) {
        noiseGroup := noiseGroup + [a];
        return false;
      }
      if |noiseGroup| > 0 && dmtx.None? {
        dmtx := Some(Prewhitening(noiseGroup));
        noiseGroup := [];
      }
      return !Has(a, PhaseCorrData) && !Has(a, DummyScanData);
    }

    /** A calibration readout. */
    method Calibrate(a: Acquisition) returns (err: Option<RouteError>)
      modifies this
      ensures Context() == old(Context()) && Produced() == old(Produced())
      ensures CalibrationStep(cfg, dmtx, old(Buffered()), a) == if err.None? then Success(Buffered()) else Failure(err.value)
    {
      var sl := a.idx.slice as nat;
      if sl >= |acsGroup| {
        return Some(SliceOutOfRange);
      }
      acsGroup := acsGroup[sl := acsGroup[sl] + [a]];
      if Has(a, LastInSlice) {
        if sl >= |sensmaps| {
          return Some(SliceOutOfRange);
        }
        var m := ProcessAcs(acsGroup[sl], dmtx, cfg.acsSort(acsGroup[sl], dmtx));
        if m.Failure? {
          return Some(m.error);
        }
        sensmaps := sensmaps[sl := m.value];
        oldGrid := oldGrid + [sl];
        acsGroup := acsGroup[sl := []];
      }
      return None;
    }

    /** The number of slices with a map, as a list comprehension counts it. */
    static method CountMaps(m: seq<Option<SensMap>>) returns (n: nat)
      ensures n == Present(m)
    {
      n := 0;
      for i := 0 to |m|
        invariant n == Present(m[..i])
      {
        assert m[..i + 1][..i] == m[..i];
        if m[i].Some? {
          n := n + 1;
        }
      }
      assert m[..|m|] == m;
    }

    /** Copy maps between neighbouring slices when only some slices have one. */
    method Duplicate() returns (err: Option<RouteError>)
      modifies this
      ensures Context() == old(Context()) && Produced() == old(Produced())
      ensures Buffered() == old(Buffered()).(sensmaps := sensmaps)
      ensures Duplicated(old(sensmaps)) == if err.None? then Success(sensmaps) else Failure(err.value)
    {
      var n := CountMaps(sensmaps);
      if n == |sensmaps| || n == 0 {
        return None;
      }
      var r;
      if |sensmaps| % 2 == 0 {
        err, r := CopyFromNext(sensmaps);
      } else {
        err, r := CopyFromPrevious(sensmaps);
      }
      if err.None? {
        sensmaps := r;
      }
    }

    /** With an even slice count, every even slice but the last takes the next slice's map. */
    static method CopyFromNext(m: seq<Option<SensMap>>) returns (err: Option<RouteError>, r: seq<Option<SensMap>>)
      requires |m| % 2 == 0 && 0 < Present(m) < |m|
      ensures Duplicated(m) == if err.None? then Success(r) else Failure(err.value)
    {
      r := m;
      var i := 0;
      while i < |m| - 1
        invariant 0 <= i <= |m| && i % 2 == 0 && |r| == |m|
        invariant forall k :: 0 <= k < |m| ==>
          r[k] == if k < i && Source(|m|, k).Some? then m[Source(|m|, k).value] else m[k]
        invariant forall k :: 0 <= k < i && Source(|m|, k).Some? ==> m[Source(|m|, k).value].Some?
      {
        if r[i + 1].None? {
          assert Source(|m|, i) == Some(i + 1);
          return Some(MissingSensMap), r;
        }
        r := r[i := r[i + 1]];
        i := i + 2;
      }
      assert SourcesPresent(m);
      assert r == Copied(m);
      return None, r;
    }

    /** With an odd slice count, every odd slice takes the previous slice's map. */
    static method CopyFromPrevious(m: seq<Option<SensMap>>) returns (err: Option<RouteError>, r: seq<Option<SensMap>>)
      requires |m| % 2 == 1 && 0 < Present(m) < |m|
      ensures Duplicated(m) == if err.None? then Success(r) else Failure(err.value)
    {
      r := m;
      var i := 1;
      while i < |m|
        invariant 1 <= i <= |m| + 1 && i % 2 == 1 && |r| == |m|
        invariant forall k :: 0 <= k < |m| ==>
          r[k] == if k < i && Source(|m|, k).Some? then m[Source(|m|, k).value] else m[k]
        invariant forall k :: 0 <= k < i && Source(|m|, k).Some? ==> m[Source(|m|, k).value].Some?
      {
        if r[i - 1].None? {
          assert Source(|m|, i) == Some(i - 1);
          return Some(MissingSensMap), r;
        }
        r := r[i := r[i - 1]];
        i := i + 2;
      }
      assert SourcesPresent(m);
      assert r == Copied(m);
      return None, r;
    }

    /** Append a segment-0 readout or splice a later segment into the last one. */
    method Place(a: Acquisition) returns (err: Option<RouteError>)
      requires Listed(Buffered(), a)
      modifies this
      ensures Context() == old(Context()) && Produced() == old(Produced())
      ensures Placed(old(Buffered()), a) == if err.None? then Success(Buffered()) else Failure(err.value)
    {
      var c := a.idx.contrast as nat;
      var sl := a.idx.slice as nat;
      var lst := acqGroup[c][sl];
      if a.idx.segment == 0 {
        acqGroup := acqGroup[c := acqGroup[c][sl := lst + [a]]];
        segmentZero := Some(a);
        return None;
      }
      if |lst| == 0 {
        return Some(NoOpenReadout);
      }
      var e := Splice(lst[|lst| - 1], a);
      if e.None? {
        return Some(SegmentShape);
      }
      acqGroup := acqGroup[c := acqGroup[c][sl := ReplaceLast(lst, e.value)]];
      return None;
    }

    /** FOV-correct the completed readout in place. */
    method Reapply(a: Acquisition) returns (err: Option<RouteError>)
      requires Listed(Buffered(), a) && |acqGroup[a.idx.contrast][a.idx.slice]| > 0
      modifies this
      ensures Context() == old(Context()) && Produced() == old(Produced())
      ensures Reapplied(cfg, baseTrj, old(Buffered()), a) == if err.None? then Success(Buffered()) else Failure(err.value)
    {
      var c := a.idx.contrast as nat;
      var sl := a.idx.slice as nat;
      var lst := acqGroup[c][sl];
      var entry := lst[|lst| - 1];
      if segmentZero.None? {
        return Some(NoSegmentZero);
      }
      var e := WriteAll(entry, cfg.reapply(entry.data, segmentZero.value, baseTrj));
      if e.None? {
        return Some(SegmentShape);
      }
      acqGroup := acqGroup[c := acqGroup[c][sl := ReplaceLast(lst, e.value)]];
      return None;
    }

    /** process_raw on one group, updating its caches; returns the images to send. */
    method Reconstruct(group: seq<Acquisition>, smap: Option<SensMap>, dream: Option<seq<real>>)
      returns (err: Option<RouteError>, images: seq<Image>)
      modifies this
      ensures Context() == old(Context()) && Buffered() == old(Buffered()) && sent == old(sent)
      ensures ProcessRaw(cfg, old(Cached()), group, dmtx, smap, dream) ==
        if err.None? then Success((Cached(), images)) else Failure(err.value)
    {
      images := [];
      if |group| == 0 {
        return Some(SortFailed), images;
      }
      var sorted := cfg.sort(group, dmtx);
      if sorted.Failure? {
        return Some(SortFailed), images;
      }
      if dream.None? {
        return Some(NoProtArrays), images;
      }
      var c := group[0].idx.contrast as nat;
      if c >= |rawdata| || |dream.value| == 0 || c >= |imagesets| {
        return Some(DreamArrayIndex), images;
      }
      err, images := Record(group, sorted.value, smap, dream.value);
    }

    /** The caches, the maps, the scale and the numbering of one sorted group. */
    method Record(group: seq<Acquisition>, sorted: SpiralSort.Sorted, smap: Option<SensMap>, d: seq<real>)
      returns (err: Option<RouteError>, images: seq<Image>)
      requires |group| > 0 && |d| > 0
      requires group[0].idx.contrast as nat < |rawdata| && group[0].idx.contrast as nat < |imagesets|
      modifies this
      ensures Context() == old(Context()) && Buffered() == old(Buffered()) && sent == old(sent)
      ensures Recorded(cfg, old(Cached()), group, sorted, smap, d) ==
        if err.None? then Success((Cached(), images)) else Failure(err.value)
    {
      images := [];
      var c := group[0].idx.contrast as nat;
      rawdata := rawdata[c := Some(sorted)];
      var data := Pictured(cfg, sorted, smap, d, c);
      imagesets := imagesets[c := Some(data)];
      var maps := Full(imagesets);
      if maps {
        var m := Mapped(cfg, rawdata, imagesets, d, group, smap, data);
        if m.Failure? {
          return Some(m.error), images;
        }
        data := m.value;
        rawdata := seq(cfg.nContr, _ => None);
        imagesets := seq(cfg.nContr, _ => None);
      }
      if c >= |imascale| {
        return Some(DreamArrayIndex), images;
      }
      var scale := if imascale[c].Some? then imascale[c].value else data;
      imascale := imascale[c := Some(scale)];
      var nPar := cfg.parts(data);
      if nPar == 0 {
        return Some(EmptyImage), images;
      }
      images := NumberImages(group[0], nPar, cfg.nSlc, scale, maps);
      return None, images;
    }

    /** Reconstruct and send a closed [contrast][slice] group, then empty it. */
    method Close(a: Acquisition) returns (err: Option<RouteError>)
      requires Listed(Buffered(), a)
      modifies this
      ensures Context() == old(Context())
      ensures Closed(cfg, dmtx, old(Buffered()), old(Produced()), a) ==
        if err.None? then Success((Buffered(), Produced())) else Failure(err.value)
    {
      var c := a.idx.contrast as nat;
      var sl := a.idx.slice as nat;
      if !(Has(a, LastInSlice) || Has(a, LastInRepetition)) {
        return None;
      }
      if sl >= |sensmaps| {
        return Some(SliceOutOfRange);
      }
      var images;
      err, images := Reconstruct(acqGroup[c][sl], sensmaps[sl], cfg.dream);
      if err.Some? {
        return;
      }
      sent := sent + images;
      acqGroup := acqGroup[c := acqGroup[c][sl := []]];
    }

    /** An imaging readout. */
    method Image(a: Acquisition) returns (err: Option<RouteError>)
      modifies this
      ensures Context() == old(Context())
      ensures Imaging(cfg, Context(), old(Buffered()), old(Produced()), a) ==
        if err.None? then Success((Buffered(), Produced())) else Failure(err.value)
    {
      err := Duplicate();
      if err.Some? {
        return;
      }
      if a.idx.contrast as nat >= |acqGroup| {
        return Some(ContrastOutOfRange);
      }
      if a.idx.slice as nat >= |acqGroup[a.idx.contrast]| {
        return Some(SliceOutOfRange);
      }
      err := Place(a);
      if err.Some? {
        return;
      }
      if a.idx.segment as int == cfg.nSegments - 1 {
        err := Reapply(a);
        if err.Some? {
          return;
        }
      }
      err := Close(a);
    }

    /** One iteration of the routing loop. */
    method Route(raw: Acquisition, prot: Acquisition) returns (err: Option<RouteError>)
      modifies this
      ensures Step(cfg, old(View()), raw, prot) == if err.None? then Success(View()) else Failure(err.value)
    {
      var r := cfg.insert(raw, prot);
      if r.Failure? {
        return Some(InsertFailed);
      }
      var a := r.value.acq;
      var more := Admit(r.value);
      if !more {
        return None;
      }
      if Has(a, ParallelCalibration) {
        err := Calibrate(a);
      } else {
        err := Image(a);
      }
    }

    /** The untriggered reconstruction after the loop, given the protocol arrays. */
    method Flush() returns (err: Option<RouteError>)
      modifies this
      ensures Flushed(cfg, old(View())) == if err.None? then Success(View()) else Failure(err.value)
    {
      if item.None? {
        return Some(NoRecords);
      }
      var a := item.value;
      var c := a.idx.contrast as nat;
      var sl := a.idx.slice as nat;
      if c >= |acqGroup| {
        return Some(ContrastOutOfRange);
      }
      if sl >= |acqGroup[c]| {
        return Some(SliceOutOfRange);
      }
      if |acqGroup[c][sl]| == 0 {
        return None;
      }
      if sl >= |sensmaps| || (sensmaps[sl].None? && sl >= |acsGroup|) {
        return Some(SliceOutOfRange);
      }
      var m := if sensmaps[sl].None? then ProcessAcs(acsGroup[sl], dmtx, cfg.acsSort(acsGroup[sl], dmtx))
               else Success(sensmaps[sl]);
      if m.Failure? {
        return Some(m.error);
      }
      sensmaps := sensmaps[sl := m.value];
      var images;
      err, images := Reconstruct(acqGroup[c][sl], sensmaps[sl], cfg.dream);
      if err.Some? {
        return;
      }
      sent := sent + images;
      acqGroup := [];
    }
  }

  /** The routing loop of process_spiral_dream: every record in order, stopping at the first exception. */
  method RouteAll(router: Router, items: seq<Acquisition>, prots: seq<Acquisition>) returns (err: Option<RouteError>)
    modifies router
    ensures RunTo(router.cfg, old(router.View()), items, prots, |items|) ==
      if err.None? then Success(router.View()) else Failure(err.value)
  {
    ghost var s0 := router.View();
    var i := 0;
    while i < |items|
      invariant 0 <= i <= |items|
      invariant RunTo(router.cfg, s0, items, prots, i) == Success(router.View())
    {
      if i >= |prots| {
        RunStopsAtFailure(router.cfg, s0, items, prots, i + 1, |items|);
        return Some(InsertFailed);
      }
      ghost var before := router.View();
      err := router.Route(items[i], prots[i]);
      assert RunTo(router.cfg, s0, items, prots, i + 1) == Step(router.cfg, before, items[i], prots[i]);
      if err.Some? {
        RunStopsAtFailure(router.cfg, s0, items, prots, i + 1, |items|);
        return err;
      }
      i := i + 1;
    }
    return None;
  }

  /** process_spiral_dream: route every record, then reconstruct what is left; the images sent are the result. */
  method Process(cfg: Config, items: seq<Acquisition>, prots: seq<Acquisition>) returns (r: Result<State, RouteError>)
    ensures r == Outcome(cfg, items, prots)
  {
    var router := new Router(cfg);
    var err := RouteAll(router, items, prots);
    if err.Some? {
      return Failure(err.value);
    }
    err := router.Flush();
    if err.Some? {
      return Failure(err.value);
    }
    return Success(router.View());
  }
}
