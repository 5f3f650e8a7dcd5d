/**
 * Pieces shared by the four acquisition routers: the exceptions that end a
 * routing loop, the one-time estimate of the prewhitening matrix, and the
 * numpy column-window assignment used to splice ADC segments into the
 * buffered segment-0 readout.
 */
module Routing {
  import opened Mrd
  import opened ReconCalls
  import KSpaceSort

  /** The Python exception that ends a routing loop (the connection is then closed). */
  datatype RouteError =
    | InsertFailed           // insert_acq raised (no protocol record, bad extension, ...)
    | SliceOutOfRange        // IndexError on a per-slice list
    | ContrastOutOfRange     // IndexError on a per-contrast list
    | NoOpenReadout          // `group[-1]` on an empty list when a later segment arrives
    | SegmentShape           // numpy could not broadcast a segment or a processed readout
    | NavigatorShape         // the buffered navigators could not be stacked and reshaped
    | NoSegmentZero          // pred_trj read before any segment-0 readout defined it
    | NoTimeColumn           // traj[:, 3] on a trajectory with fewer than four columns
    | NavigatorAppend        // phs.append after phs became an ndarray
    | NoNavigators           // phs is None in the global phase correction
    | NoDirections           // dirs undefined: the protocol has no 'Directions' array
    | ListHasNoData          // `.data` read on a list
    | MissingSensMap         // `.copy()` of a missing sensitivity map
    | SortFailed             // sort_into_kspace / sort_spiral_data / sort_data raised
    | NoProtArrays           // process_raw called without the protocol arrays, or without a 'dream' array in them
    | DreamArrayIndex        // IndexError on the 'dream' protocol array, a per-contrast cache or the user parameters
    | EmptyCacheSlot         // a per-contrast raw-data slot read while it is still None
    | NoRecords              // the loop variable `item` read after a stream without records
    | EmptyImage             // IndexError on data[..., 0] of an image without partitions
    | CoilMapShape           // a surface-coil record that cannot be reshaped, or coil maps that cannot be stacked

  /**
   * Noise handling before a record that is not a noise readout: the first
   * such record after buffered noise estimates the prewhitening matrix from
   * all of it. Returns the noise buffer (emptied when `clear`) and the matrix.
   */
  function Prewhiten(noise: seq<Acquisition>, dmtx: Option<Prewhitening>, clear: bool)
    : (r: (seq<Acquisition>, Option<Prewhitening>))
    ensures dmtx.Some? ==> r == (noise, dmtx)
    ensures |noise| == 0 ==> r == (noise, dmtx)
    ensures dmtx.None? && |noise| > 0 ==> r.1 == Some(Prewhitening(noise)) && r.0 == (if clear then [] else noise)
  {
    if |noise| > 0 && dmtx.None? then (if clear then [] else noise, Some(Prewhitening(noise))) else (noise, dmtx)
  }

  /**
   * process_acs: an empty calibration buffer gives no map; otherwise the
   * buffer is first sorted into k-space (`sorted` is that sort's outcome),
   * an exception of the sort ends the call, and the map is calibrated from
   * the whole buffer with the prewhitening matrix.
   */
  function ProcessAcs<K, E>(acs: seq<Acquisition>, dmtx: Option<Prewhitening>, sorted: Result<K, E>)
    : (r: Result<Option<SensMap>, RouteError>)
    ensures r.Failure? <==> |acs| > 0 && sorted.Failure?
    ensures r.Failure? ==> r.error == SortFailed
    ensures r.Success? ==> (r.value.Some? <==> |acs| > 0)
    ensures r.Success? && |acs| > 0 ==> r.value == Some(Calibrated(acs, dmtx))
  {
    if |acs| == 0 then Success(None)
    else if sorted.Failure? then Failure(SortFailed)
    else Success(Some(Calibrated(acs, dmtx)))
  }

  /** A [channel][sample] array whose rows all hold `cols` samples. */
  predicate Rows(m: seq<seq<Complex>>, cols: nat)
  {
    forall ch :: 0 <= ch < |m| ==> |m[ch]| == cols
  }

  /**
   * numpy broadcasting of a source with `|src|` rows of `srcCols` samples
   * onto a target of `rows` x `width`: each source axis must match or be 1.
   */
  predicate Broadcasts(src: seq<seq<Complex>>, srcCols: nat, rows: nat, width: nat)
  {
    && Rows(src, srcCols)
    && (|src| == rows || |src| == 1)
    && (srcCols == width || srcCols == 1)
  }

  /** The source sample that lands at target row `ch`, window offset `j`. */
  function Broadcast(src: seq<seq<Complex>>, srcCols: nat, ch: nat, j: nat): Complex
    requires |src| > 0 && Rows(src, srcCols) && srcCols > 0
  {
    src[if |src| == 1 then 0 else ch % |src|][if srcCols == 1 then 0 else j % srcCols]
  }

  /**
   * numpy's `dst[:, start:stop] = src` on a [channel][sample] array of `cols`
   * samples per channel: None when the shapes do not broadcast (ValueError).
   */
  function WriteColumns(dst: seq<seq<Complex>>, cols: nat, start: int, stop: int, src: seq<seq<Complex>>, srcCols: nat)
    : (r: Option<seq<seq<Complex>>>)
    ensures r.Some? <==> Broadcasts(src, srcCols, |dst|, KSpaceSort.Width(KSpaceSort.SliceBounds(start, stop, cols)))
    ensures r.Some? ==> |r.value| == |dst| && forall ch :: 0 <= ch < |dst| ==> |r.value[ch]| == |dst[ch]|
  {
    var w := KSpaceSort.SliceBounds(start, stop, cols);
    if !Broadcasts(src, srcCols, |dst|, KSpaceSort.Width(w)) then None
    else
      Some(seq(|dst|, ch requires 0 <= ch < |dst| =>
        seq(|dst[ch]|, j requires 0 <= j < |dst[ch]| =>
          if w.0 <= j < w.1 && |src| > 0 && srcCols > 0 then Broadcast(src, srcCols, ch, j - w.0) else dst[ch][j])))
  }

  /** The sample entry a segment-s readout of n samples is written from: s*n. */
  function SegmentStart(item: Acquisition): nat
  {
    item.idx.segment as nat * item.samples as nat
  }

  /**
   * Segment splice: a segment-s readout of n samples is written into
   * columns [s*n, (s+1)*n) of the buffered segment-0 readout.
   */
  function Splice(entry: Acquisition, item: Acquisition): (r: Option<Acquisition>)
    ensures r.Some? ==> r.value == entry.(data := r.value.data) && |r.value.data| == |entry.data|
    ensures r.Some? ==> forall ch :: 0 <= ch < |entry.data| ==> |r.value.data[ch]| == |entry.data[ch]|
  {
    var lo := SegmentStart(item);
    match WriteColumns(entry.data, entry.samples, lo, lo + item.samples as int, item.data, item.samples)
    case None => None
    case Some(d) => Some(entry.(data := d))
  }

  /** One sample of a successful column-window assignment. */
  lemma WrittenSample(dst: seq<seq<Complex>>, cols: nat, start: int, stop: int, src: seq<seq<Complex>>, srcCols: nat,
                      ch: nat, j: nat)
    requires WriteColumns(dst, cols, start, stop, src, srcCols).Some?
    requires 0 <= start <= stop <= cols && stop - start == srcCols && |src| == |dst|
    requires ch < |dst| && j < |dst[ch]|
    ensures WriteColumns(dst, cols, start, stop, src, srcCols).value[ch][j] ==
      if start <= j < stop then src[ch][j - start] else dst[ch][j]
  {
    assert KSpaceSort.SliceBounds(start, stop, cols) == (start, stop);
    if start <= j < stop {
      assert (j - start) % srcCols == j - start;
      assert ch % |src| == ch;
      assert Broadcast(src, srcCols, ch, j - start) == src[ch][j - start];
    }
  }

  /**
   * A segment that fits inside the extended readout and has one row per
   * channel overwrites exactly its own columns: column j of segment s holds
   * the segment's sample j - s*n, and every other column, the channel count
   * and the sample count are unchanged.
   */
  lemma SpliceWritesSegment(entry: Acquisition, item: Acquisition)
    requires Shaped(entry) && Shaped(item)
    requires |item.data| == |entry.data|
    requires SegmentStart(item) + item.samples as int <= entry.samples as int
    ensures Splice(entry, item).Some?
    ensures var e := Splice(entry, item).value;
      && e.samples == entry.samples && Shaped(e) && |e.data| == |entry.data|
      && (forall ch, j :: 0 <= ch < |e.data| && 0 <= j < e.samples ==>
            e.data[ch][j] ==
              if SegmentStart(item) <= j < SegmentStart(item) + item.samples as int
              then item.data[ch][j - SegmentStart(item)]
              else entry.data[ch][j])
  {
    var lo := SegmentStart(item);
    var hi := lo + item.samples as int;
    assert KSpaceSort.SliceBounds(lo, hi, entry.samples) == (lo, hi);
    var e := Splice(entry, item).value;
    forall ch, j | 0 <= ch < |e.data| && 0 <= j < e.samples
      ensures e.data[ch][j] == if lo <= j < hi then item.data[ch][j - lo] else entry.data[ch][j]
    {
      WrittenSample(entry.data, entry.samples, lo, hi, item.data, item.samples, ch, j);
    }
  }

  /**
   * A segment whose channel count neither matches the buffered readout nor
   * is 1 cannot be broadcast: the splice raises.
   */
  lemma SpliceRejectsChannelMismatch(entry: Acquisition, item: Acquisition)
    requires |item.data| != |entry.data| && |item.data| != 1
    ensures Splice(entry, item).None?
  {
  }

  /** numpy's `dst[:] = src`: the whole readout replaced by a broadcast source. */
  function WriteAll(entry: Acquisition, src: seq<seq<Complex>>): (r: Option<Acquisition>)
    ensures r.Some? ==> r.value == entry.(data := r.value.data) && |r.value.data| == |entry.data|
    ensures r.Some? ==> forall ch :: 0 <= ch < |entry.data| ==> |r.value.data[ch]| == |entry.data[ch]|
  {
    var srcCols := if |src| > 0 then |src[0]| else 0;
    match WriteColumns(entry.data, entry.samples, 0, entry.samples, src, srcCols)
    case None => None
    case Some(d) => Some(entry.(data := d))
  }

  /** A processed readout of the buffered readout's own shape replaces it sample for sample. */
  lemma WriteAllReplaces(entry: Acquisition, src: seq<seq<Complex>>)
    requires Shaped(entry) && |src| == |entry.data| && |src| > 0 && Rows(src, entry.samples)
    ensures WriteAll(entry, src) == Some(entry.(data := src))
  {
    var n := entry.samples as int;
    var d := WriteAll(entry, src).value.data;
    forall ch | 0 <= ch < |src|
      ensures d[ch] == src[ch]
    {
      forall j | 0 <= j < n
        ensures d[ch][j] == src[ch][j]
      {
        WrittenSample(entry.data, n, 0, n, src, n, ch, j);
      }
    }
    assert d == src;
  }

  /** b's nested lists are a's with only the list at [i][j] replaced. */
  predicate OnlyListChanged(a: seq<seq<seq<Acquisition>>>, b: seq<seq<seq<Acquisition>>>, i: nat, j: nat)
  {
    && i < |a| && j < |a[i]| && |b| == |a| && |b[i]| == |a[i]|
    && b == a[i := a[i][j := b[i][j]]]
  }

  /** Python `lst[-1] = v` on a non-empty list. */
  function ReplaceLast<T>(lst: seq<T>, v: T): (r: seq<T>)
    requires |lst| > 0
    ensures |r| == |lst| && r[..|r| - 1] == lst[..|lst| - 1] && r[|r| - 1] == v
  {
    lst[|lst| - 1 := v]
  }
}
