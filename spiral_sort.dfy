/**
 * The non-Cartesian sorters: a group of readouts is collected in arrival
 * order and laid out for BART as a trajectory [dims][ncol][nacq] and a signal
 * [1][ncol][nacq][ncha]. Three variants: the PowerGrid pipeline swaps the x
 * and y trajectory rows, the spiral DREAM pipeline prewhitens and filters
 * the signal and keeps the first three trajectory dimensions, and the JEMRIS
 * pipeline prewhitens and rescales every trajectory dimension.
 */
module SpiralSort {
  import opened Mrd
  import opened ReconCalls
  import PulseqProt

  /**
   * Why a sort raises: no readouts (numpy cannot transpose the empty stack,
   * or group[0] does not exist), readouts of different shapes (numpy cannot
   * stack them), a trajectory with fewer than three rows to reorder, or a
   * filtered signal that no longer fits its slot.
   */
  datatype SortError = EmptyGroup | Ragged | TooFewTrajDims | FilterShape

  /** BART's non-Cartesian input: sig [1][ncol][nacq][ncha], trj [dims][ncol][nacq]. */
  datatype Sorted = Sorted(sig: seq<seq<seq<seq<Complex>>>>, trj: seq<seq<seq<real>>>)

  predicate Rect<T>(m: seq<seq<T>>, rows: nat, cols: nat)
  {
    |m| == rows && forall i :: 0 <= i < rows ==> |m[i]| == cols
  }

  /** All matrices of a list have the same rows x cols shape, as np.asarray needs. */
  predicate Uniform<T>(ms: seq<seq<seq<T>>>, rows: nat, cols: nat)
  {
    forall k :: 0 <= k < |ms| ==> Rect(ms[k], rows, cols)
  }

  /** The shape of a matrix; a matrix without rows takes its column count from the header. */
  function ShapeOf<T>(m: seq<seq<T>>, headerCols: nat): (nat, nat)
  {
    (|m|, if |m| > 0 then |m[0]| else headerCols)
  }

  /** The readout's trajectory as [dims][samples]: np.swapaxes(acq.traj, 0, 1). */
  function DimsFirst(a: Acquisition): (t: seq<seq<real>>)
    requires Shaped(a)
    ensures Rect(t, a.trajDims, a.samples)
    ensures forall d, c :: 0 <= d < a.trajDims && 0 <= c < a.samples ==> t[d][c] == a.traj[c][d]
  {
    PulseqProt.SwapAxes(a.traj, a.trajDims)
  }

  /** np.transpose(trj, [1, 2, 0]) of the stacked [nacq][dims][ncol] trajectories. */
  function TrjLayout(trjs: seq<seq<seq<real>>>, nd: nat, ncol: nat): (t: seq<seq<seq<real>>>)
    requires Uniform(trjs, nd, ncol)
    ensures |t| == nd
    ensures forall d :: 0 <= d < nd ==> |t[d]| == ncol
    ensures forall d, c :: 0 <= d < nd && 0 <= c < ncol ==> |t[d][c]| == |trjs|
    ensures forall d, c, k :: 0 <= d < nd && 0 <= c < ncol && 0 <= k < |trjs| ==> t[d][c][k] == trjs[k][d][c]
  {
    seq(nd, d requires 0 <= d < nd =>
      seq(ncol, c requires 0 <= c < ncol =>
        seq(|trjs|, k requires 0 <= k < |trjs| => trjs[k][d][c])))
  }

  /** np.transpose(sig, [2, 0, 1])[np.newaxis] of the stacked [nacq][ncha][ncol] signals. */
  function SigLayout(sigs: seq<seq<seq<Complex>>>, nch: nat, ncol: nat): (s: seq<seq<seq<seq<Complex>>>>)
    requires Uniform(sigs, nch, ncol)
    ensures |s| == 1 && |s[0]| == ncol
    ensures forall c :: 0 <= c < ncol ==> |s[0][c]| == |sigs|
    ensures forall c, k :: 0 <= c < ncol && 0 <= k < |sigs| ==> |s[0][c][k]| == nch
    ensures forall c, k, ch :: 0 <= c < ncol && 0 <= k < |sigs| && 0 <= ch < nch ==> s[0][c][k][ch] == sigs[k][ch][c]
  {
    [seq(ncol, c requires 0 <= c < ncol =>
       seq(|sigs|, k requires 0 <= k < |sigs| =>
         seq(nch, ch requires 0 <= ch < nch => sigs[k][ch][c])))]
  }

  /**
   * np.asarray of both lists and the BART transposes: the trajectories and
   * the signals must each share one shape, taken from the first readout.
   */
  function Stack(sigs: seq<seq<seq<Complex>>>, trjs: seq<seq<seq<real>>>, headerCols: nat): (r: Result<Sorted, SortError>)
    requires |sigs| == |trjs|
    ensures r.Failure? <==>
      || |sigs| == 0
      || !Uniform(trjs, ShapeOf(trjs[0], headerCols).0, ShapeOf(trjs[0], headerCols).1)
      || !Uniform(sigs, ShapeOf(sigs[0], headerCols).0, ShapeOf(sigs[0], headerCols).1)
    ensures |sigs| == 0 ==> r == Failure(EmptyGroup)
    ensures r.Failure? && |sigs| > 0 ==> r == Failure(Ragged)
  {
    if |sigs| == 0 then Failure(EmptyGroup)
    else
      var (nd, nct) := ShapeOf(trjs[0], headerCols);
      var (nch, ncs) := ShapeOf(sigs[0], headerCols);
      if !Uniform(trjs, nd, nct) || !Uniform(sigs, nch, ncs) then Failure(Ragged)
      else Success(Sorted(SigLayout(sigs, nch, ncs), TrjLayout(trjs, nd, nct)))
  }

  /** number_of_samples of the first readout, the column count of a stack without rows. */
  function HeaderCols(group: seq<Acquisition>): nat
  {
    if |group| > 0 then group[0].samples else 0
  }

  // ---------------------------------------------------------------------
  // PowerGrid: sort_spiral_data(group, metadata)
  // ---------------------------------------------------------------------

  /** traj[[1, 0, 2], :] of the first three dimensions: x and y trade places. */
  function SwappedTrj(a: Acquisition): (t: seq<seq<real>>)
    requires Shaped(a) && a.trajDims >= 3
    ensures Rect(t, 3, a.samples)
  {
    var s := DimsFirst(a);
    [s[1], s[0], s[2]]
  }

  /** What the PowerGrid sort returns for a group. */
  function PowerGridSorted(group: seq<Acquisition>): (r: Result<Sorted, SortError>)
    requires AllShaped(group)
  {
    if exists k :: 0 <= k < |group| && group[k].trajDims < 3 then Failure(TooFewTrajDims)
    else
      Stack(seq(|group|, k requires 0 <= k < |group| => group[k].data),
            seq(|group|, k requires 0 <= k < |group| => SwappedTrj(group[k])),
            HeaderCols(group))
  }

  /** The loop appends each readout's data and reordered trajectory; the stack is then transposed. */
  method PowerGridSortSpiralData(group: seq<Acquisition>) returns (r: Result<Sorted, SortError>)
    requires AllShaped(group)
    ensures r == PowerGridSorted(group)
  {
    var sigs: seq<seq<seq<Complex>>> := [];
    var trjs: seq<seq<seq<real>>> := [];
    for i := 0 to |group|
      invariant forall k :: 0 <= k < i ==> group[k].trajDims >= 3
      invariant sigs == seq(i, k requires 0 <= k < i => group[k].data)
      invariant trjs == seq(i, k requires 0 <= k < i => SwappedTrj(group[k]))
    {
      if group[i].trajDims < 3 {
        return Failure(TooFewTrajDims);
      }
      sigs := sigs + [group[i].data];
      trjs := trjs + [SwappedTrj(group[i])];
    }
    r := Stack(sigs, trjs, HeaderCols(group));
  }

  /** The readouts share one sample count and one channel count. */
  predicate SameShape(group: seq<Acquisition>)
    requires |group| > 0
  {
    forall k :: 0 <= k < |group| ==> group[k].samples == group[0].samples && |group[k].data| == |group[0].data|
  }

  /**
   * A PowerGrid sort succeeds exactly for a non-empty group of readouts with
   * at least three trajectory dimensions, one sample count and one channel
   * count.
   */
  lemma PowerGridOutcome(group: seq<Acquisition>)
    requires AllShaped(group)
    ensures PowerGridSorted(group).Success? <==>
      |group| > 0 && (forall k :: 0 <= k < |group| ==> group[k].trajDims >= 3) && SameShape(group)
  {
    if |group| > 0 && forall k :: 0 <= k < |group| ==> group[k].trajDims >= 3 {
      var sigs := seq(|group|, k requires 0 <= k < |group| => group[k].data);
      var trjs := seq(|group|, k requires 0 <= k < |group| => SwappedTrj(group[k]));
      var n := group[0].samples;
      assert ShapeOf(trjs[0], n) == (3, n);
      assert ShapeOf(sigs[0], n) == (|group[0].data|, n);
      if SameShape(group) {
        assert Uniform(trjs, 3, n);
        assert Uniform(sigs, |group[0].data|, n);
      } else {
        var k :| 0 <= k < |group| && !(group[k].samples == n && |group[k].data| == |group[0].data|);
        if group[k].samples != n {
          assert trjs[k] == SwappedTrj(group[k]);
          assert |trjs[k][0]| != n;
        } else {
          assert !Rect(sigs[k], |group[0].data|, n);
        }
      }
    }
  }

  /**
   * After a successful PowerGrid sort, trajectory rows 0 and 1 hold the y
   * and x coordinates of each readout and row 2 its z coordinate, and the
   * signal holds every channel's samples, readout k at position k.
   */
  lemma PowerGridLayout(group: seq<Acquisition>, k: nat, c: nat, ch: nat)
    requires AllShaped(group) && PowerGridSorted(group).Success?
    requires k < |group| && c < group[k].samples && ch < |group[k].data|
    ensures var s := PowerGridSorted(group).value;
      && |s.trj| == 3 && c < |s.trj[0]| && c < |s.trj[1]| && c < |s.trj[2]|
      && k < |s.trj[0][c]| && k < |s.trj[1][c]| && k < |s.trj[2][c]|
      && s.trj[0][c][k] == group[k].traj[c][1]
      && s.trj[1][c][k] == group[k].traj[c][0]
      && s.trj[2][c][k] == group[k].traj[c][2]
      && |s.sig| == 1 && c < |s.sig[0]| && k < |s.sig[0][c]| && ch < |s.sig[0][c][k]|
      && s.sig[0][c][k][ch] == group[k].data[ch][c]
  {
    PowerGridOutcome(group);
    var sigs := seq(|group|, k requires 0 <= k < |group| => group[k].data);
    var trjs := seq(|group|, k requires 0 <= k < |group| => SwappedTrj(group[k]));
    var n := group[0].samples;
    assert ShapeOf(trjs[0], n) == (3, n);
    assert ShapeOf(sigs[0], n) == (|group[0].data|, n);
    assert trjs[k] == SwappedTrj(group[k]);
  }

  // ---------------------------------------------------------------------
  // Spiral DREAM: sort_spiral_data(group, metadata, dmtx)
  // ---------------------------------------------------------------------

  /** filt_ksp(kspace, traj): the readout filter against Gibbs ringing. */
  type ReadoutFilter = (seq<seq<Complex>>, seq<seq<real>>) -> seq<seq<Complex>>

  function Min(a: nat, b: nat): nat
  {
    if a < b then a else b
  }

  /** np.swapaxes(acq.traj[:, :3], 0, 1): the first (at most) three dimensions, [dims][samples]. */
  function DreamTrj(a: Acquisition): (t: seq<seq<real>>)
    requires Shaped(a)
    ensures Rect(t, Min(3, a.trajDims), a.samples)
  {
    DimsFirst(a)[..Min(3, a.trajDims)]
  }

  /** The prewhitened signals of a group, in arrival order. */
  function WhitenedSigs(group: seq<Acquisition>, dmtx: Option<Prewhitening>, whiten: Whitening): (sigs: seq<seq<seq<Complex>>>)
    ensures |sigs| == |group|
  {
    seq(|group|, k requires 0 <= k < |group| => Whitened(group[k].data, dmtx, whiten))
  }

  /**
   * What the spiral DREAM sort returns: no readout to take the rotation
   * matrix from fails first; the stacked signals are then filtered readout
   * by readout, each filtered signal written back into its slot.
   */
  function DreamSorted(group: seq<Acquisition>, dmtx: Option<Prewhitening>, whiten: Whitening,
                       filt: ReadoutFilter): (r: Result<Sorted, SortError>)
    requires AllShaped(group)
    ensures |group| == 0 ==> r == Failure(EmptyGroup)
  {
    if |group| == 0 then Failure(EmptyGroup)
    else
      var sigs := WhitenedSigs(group, dmtx, whiten);
      var trjs := seq(|group|, k requires 0 <= k < |group| => DreamTrj(group[k]));
      var stacked := Stack(sigs, trjs, HeaderCols(group));
      if stacked.Failure? then stacked
      else
        var (nch, ncs) := ShapeOf(sigs[0], HeaderCols(group));
        var filtered := Filtered(sigs, trjs, filt);
        if !Uniform(filtered, nch, ncs) then Failure(FilterShape)
        else Success(Sorted(SigLayout(filtered, nch, ncs), stacked.value.trj))
  }

  /** The first loop collects signals and trajectories; the second filters every stacked signal. */
  method DreamSortSpiralData(group: seq<Acquisition>, dmtx: Option<Prewhitening>, whiten: Whitening,
                             filt: ReadoutFilter) returns (r: Result<Sorted, SortError>)
    requires AllShaped(group)
    ensures r == DreamSorted(group, dmtx, whiten, filt)
  {
    if |group| == 0 {
      return Failure(EmptyGroup);
    }
    var sigs: seq<seq<seq<Complex>>> := [];
    var trjs: seq<seq<seq<real>>> := [];
    for i := 0 to |group|
      invariant sigs == WhitenedSigs(group[..i], dmtx, whiten)
      invariant trjs == seq(i, k requires 0 <= k < i => DreamTrj(group[k]))
    {
      sigs := sigs + [Whitened(group[i].data, dmtx, whiten)];
      trjs := trjs + [DreamTrj(group[i])];
    }
    assert group[..|group|] == group;
    var stacked := Stack(sigs, trjs, HeaderCols(group));
    if stacked.Failure? {
      return stacked;
    }
    var (nch, ncs) := ShapeOf(sigs[0], HeaderCols(group));
    var filtered := FilterEach(sigs, trjs, filt, nch, ncs);
    if filtered.None? {
      return Failure(FilterShape);
    }
    r := Success(Sorted(SigLayout(filtered.value, nch, ncs), stacked.value.trj));
  }

  /** Each readout's signal filtered with its own trajectory. */
  function Filtered(sigs: seq<seq<seq<Complex>>>, trjs: seq<seq<seq<real>>>, filt: ReadoutFilter)
    : (f: seq<seq<seq<Complex>>>)
    requires |sigs| == |trjs|
    ensures |f| == |sigs|
  {
    seq(|sigs|, k requires 0 <= k < |sigs| => filt(sigs[k], trjs[k]))
  }

  /**
   * for nacq in range(sig.shape[0]): sig[nacq] = filt_ksp(sig[nacq], trj[nacq]);
   * None when a filtered signal does not fit the nch x ncs slot it is written to.
   */
  method FilterEach(sigs: seq<seq<seq<Complex>>>, trjs: seq<seq<seq<real>>>, filt: ReadoutFilter, nch: nat, ncs: nat)
    returns (r: Option<seq<seq<seq<Complex>>>>)
    requires |sigs| == |trjs|
    ensures r.Some? <==> Uniform(Filtered(sigs, trjs, filt), nch, ncs)
    ensures r.Some? ==> r.value == Filtered(sigs, trjs, filt)
  {
    var filtered: seq<seq<seq<Complex>>> := [];
    for i := 0 to |sigs|
      invariant filtered == Filtered(sigs[..i], trjs[..i], filt)
      invariant Uniform(filtered, nch, ncs)
    {
      var f := filt(sigs[i], trjs[i]);
      if !Rect(f, nch, ncs) {
        assert Filtered(sigs, trjs, filt)[i] == f;
        return None;
      }
      filtered := filtered + [f];
    }
    assert sigs[..|sigs|] == sigs && trjs[..|trjs|] == trjs;
    r := Some(filtered);
  }

  /**
   * After a successful spiral DREAM sort, trajectory row d < 3 holds
   * dimension d of each readout and the signal holds each readout's
   * prewhitened, filtered samples, readout k at position k.
   */
  lemma DreamLayout(group: seq<Acquisition>, dmtx: Option<Prewhitening>, whiten: Whitening, filt: ReadoutFilter,
                    k: nat, c: nat, d: nat, ch: nat)
    requires AllShaped(group) && DreamSorted(group, dmtx, whiten, filt).Success?
    requires k < |group| && c < group[k].samples && d < Min(3, group[k].trajDims)
    requires ch < |Whitened(group[k].data, dmtx, whiten)| && c < |Whitened(group[k].data, dmtx, whiten)[ch]|
    ensures var s := DreamSorted(group, dmtx, whiten, filt).value;
      var w := Whitened(group[k].data, dmtx, whiten);
      && d < |s.trj| && c < |s.trj[d]| && k < |s.trj[d][c]|
      && s.trj[d][c][k] == group[k].traj[c][d]
      && |s.sig| == 1 && c < |s.sig[0]| && k < |s.sig[0][c]| && ch < |s.sig[0][c][k]|
      && s.sig[0][c][k][ch] == filt(w, DreamTrj(group[k]))[ch][c]
  {
    var sigs := WhitenedSigs(group, dmtx, whiten);
    var trjs := seq(|group|, k requires 0 <= k < |group| => DreamTrj(group[k]));
    var hc := HeaderCols(group);
    var (nd, nct) := ShapeOf(trjs[0], hc);
    var (nch, ncs) := ShapeOf(sigs[0], hc);
    var filtered := Filtered(sigs, trjs, filt);
    assert trjs[k] == DreamTrj(group[k]) && sigs[k] == Whitened(group[k].data, dmtx, whiten);
    assert Uniform(trjs, nd, nct) && Uniform(sigs, nch, ncs) && Uniform(filtered, nch, ncs);
    var s := DreamSorted(group, dmtx, whiten, filt).value;
    assert s == Sorted(SigLayout(filtered, nch, ncs), TrjLayout(trjs, nd, nct));
    assert Rect(sigs[k], nch, ncs) && Rect(trjs[k], nd, nct);
    assert filtered[k] == filt(sigs[k], trjs[k]);
  }

  // ---------------------------------------------------------------------
  // JEMRIS: sort_data(group, metadata, dmtx)
  // ---------------------------------------------------------------------

  /** Every trajectory dimension as [dims][samples], multiplied by fov / (2 pi). */
  function JemrisTrj(a: Acquisition, scale: real): (t: seq<seq<real>>)
    requires Shaped(a)
    ensures Rect(t, a.trajDims, a.samples)
    ensures forall d, c :: 0 <= d < a.trajDims && 0 <= c < a.samples ==> t[d][c] == a.traj[c][d] * scale
  {
    seq(a.trajDims, d requires 0 <= d < a.trajDims =>
      seq(a.samples, c requires 0 <= c < a.samples => a.traj[c][d] * scale))
  }

  /** What the JEMRIS sort returns; scale is fov / (2 pi) of the recon field of view. */
  function JemrisSorted(group: seq<Acquisition>, dmtx: Option<Prewhitening>, whiten: Whitening,
                        scale: real): (r: Result<Sorted, SortError>)
    requires AllShaped(group)
  {
    Stack(WhitenedSigs(group, dmtx, whiten),
          seq(|group|, k requires 0 <= k < |group| => JemrisTrj(group[k], scale)),
          HeaderCols(group))
  }

  /** The loop appends each readout's prewhitened data and scaled trajectory; the stack is then transposed. */
  method JemrisSortData(group: seq<Acquisition>, dmtx: Option<Prewhitening>, whiten: Whitening, scale: real)
    returns (r: Result<Sorted, SortError>)
    requires AllShaped(group)
    ensures r == JemrisSorted(group, dmtx, whiten, scale)
  {
    var sigs: seq<seq<seq<Complex>>> := [];
    var trjs: seq<seq<seq<real>>> := [];
    for i := 0 to |group|
      invariant sigs == WhitenedSigs(group[..i], dmtx, whiten)
      invariant trjs == seq(i, k requires 0 <= k < i => JemrisTrj(group[k], scale))
    {
      sigs := sigs + [Whitened(group[i].data, dmtx, whiten)];
      trjs := trjs + [JemrisTrj(group[i], scale)];
    }
    assert group[..|group|] == group;
    r := Stack(sigs, trjs, HeaderCols(group));
  }

  /**
   * After a successful JEMRIS sort, trajectory row d holds dimension d of
   * each readout scaled by fov / (2 pi), and the signal holds each readout's
   * prewhitened samples, readout k at position k.
   */
  lemma JemrisLayout(group: seq<Acquisition>, dmtx: Option<Prewhitening>, whiten: Whitening, scale: real,
                     k: nat, c: nat, d: nat, ch: nat)
    requires AllShaped(group) && JemrisSorted(group, dmtx, whiten, scale).Success?
    requires k < |group| && c < group[k].samples && d < group[k].trajDims
    requires ch < |Whitened(group[k].data, dmtx, whiten)| && c < |Whitened(group[k].data, dmtx, whiten)[ch]|
    ensures var s := JemrisSorted(group, dmtx, whiten, scale).value;
      var w := Whitened(group[k].data, dmtx, whiten);
      && d < |s.trj| && c < |s.trj[d]| && k < |s.trj[d][c]|
      && s.trj[d][c][k] == group[k].traj[c][d] * scale
      && |s.sig| == 1 && c < |s.sig[0]| && k < |s.sig[0][c]| && ch < |s.sig[0][c][k]|
      && s.sig[0][c][k][ch] == w[ch][c]
  {
    var sigs := WhitenedSigs(group, dmtx, whiten);
    var trjs := seq(|group|, k requires 0 <= k < |group| => JemrisTrj(group[k], scale));
    var hc := HeaderCols(group);
    var (nd, nct) := ShapeOf(trjs[0], hc);
    var (nch, ncs) := ShapeOf(sigs[0], hc);
    assert trjs[k] == JemrisTrj(group[k], scale) && sigs[k] == Whitened(group[k].data, dmtx, whiten);
    assert Uniform(trjs, nd, nct) && Uniform(sigs, nch, ncs);
    assert JemrisSorted(group, dmtx, whiten, scale).value == Sorted(SigLayout(sigs, nch, ncs), TrjLayout(trjs, nd, nct));
    assert Rect(sigs[k], nch, ncs) && Rect(trjs[k], nd, nct);
  }

  /**
   * Without prewhitening, a JEMRIS sort of readouts with a trajectory
   * succeeds exactly when the group is non-empty and its readouts share one
   * sample count, one channel count and one number of trajectory dimensions.
   */
  lemma JemrisOutcome(group: seq<Acquisition>, whiten: Whitening, scale: real)
    requires AllShaped(group) && (|group| > 0 ==> group[0].trajDims > 0)
    ensures JemrisSorted(group, None, whiten, scale).Success? <==>
      |group| > 0 && SameShape(group) && forall k :: 0 <= k < |group| ==> group[k].trajDims == group[0].trajDims
  {
    if |group| > 0 {
      var sigs := WhitenedSigs(group, None, whiten);
      var trjs := seq(|group|, k requires 0 <= k < |group| => JemrisTrj(group[k], scale));
      var n, nd := group[0].samples, group[0].trajDims;
      assert ShapeOf(trjs[0], n) == (nd, n);
      assert ShapeOf(sigs[0], n) == (|group[0].data|, n);
      if SameShape(group) && forall k :: 0 <= k < |group| ==> group[k].trajDims == nd {
        assert Uniform(trjs, nd, n);
        assert Uniform(sigs, |group[0].data|, n);
      } else if k :| 0 <= k < |group| && group[k].trajDims != nd {
        assert trjs[k] == JemrisTrj(group[k], scale);
      } else {
        var k :| 0 <= k < |group| && !(group[k].samples == n && |group[k].data| == |group[0].data|);
        assert trjs[k] == JemrisTrj(group[k], scale);
        if group[k].samples != n {
          assert |trjs[k][0]| != n;
        } else {
          assert sigs[k] == group[k].data;
        }
      }
    }
  }
}
